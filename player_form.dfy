/** The coercion layer shared by the list page and the create page: the form
    keeps every field as text, a submit turns the text into a typed payload,
    and opening a record for editing turns the record back into text. */
module PlayerForm {
  import opened Wrappers
  import opened JsText
  import opened Http

  /** A player record as the list page receives it from `GET /api/players`.
      Names and counters are optional because the page guards them with `??`. */
  datatype Player = Player(
    id: int,
    first_name: Option<string>,
    last_name: Option<string>,
    jersey_number: Option<int>,
    position: Option<string>,
    nationality: Option<string>,
    date_of_birth: Option<string>,
    height_cm: Option<int>,
    weight_kg: Option<int>,
    team_name: Option<string>,
    league: Option<string>,
    goals: Option<int>,
    assists: Option<int>,
    yellow_cards: Option<int>,
    red_cards: Option<int>)

  /** The form state: every field as the text its input holds. */
  datatype Form = Form(
    first_name: string,
    last_name: string,
    jersey_number: string,
    position: string,
    nationality: string,
    date_of_birth: string,
    height_cm: string,
    weight_kg: string,
    team_name: string,
    league: string,
    goals: string,
    assists: string,
    yellow_cards: string,
    red_cards: string)

  /** The body a submit sends, typed as the database columns are. */
  datatype Payload = Payload(
    first_name: string,
    last_name: string,
    jersey_number: Option<int>,
    position: Option<string>,
    nationality: Option<string>,
    date_of_birth: Option<string>,
    height_cm: Option<int>,
    weight_kg: Option<int>,
    team_name: Option<string>,
    league: Option<string>,
    goals: int,
    assists: int,
    yellow_cards: int,
    red_cards: int)

  /** The request a submit issues: method, path and JSON body. */
  datatype Submission = Submission(verb: Method, url: string, payload: Payload)

  /** The fourteen form fields, each named by its input's `name` attribute. */
  datatype Field =
    | FirstName | LastName | JerseyNumber | Position | Nationality | DateOfBirth
    | HeightCm | WeightKg | TeamName | League | Goals | Assists | YellowCards | RedCards

  function Key(f: Field): string {
    match f
    case FirstName => "first_name"
    case LastName => "last_name"
    case JerseyNumber => "jersey_number"
    case Position => "position"
    case Nationality => "nationality"
    case DateOfBirth => "date_of_birth"
    case HeightCm => "height_cm"
    case WeightKg => "weight_kg"
    case TeamName => "team_name"
    case League => "league"
    case Goals => "goals"
    case Assists => "assists"
    case YellowCards => "yellow_cards"
    case RedCards => "red_cards"
  }

  /** The field an input `name` designates, if any. */
  function FieldNamed(name: string): (r: Option<Field>)
    ensures r.Some? ==> Key(r.value) == name
    ensures r.None? ==> forall f: Field :: Key(f) != name
  {
    if name == "first_name" then Some(FirstName)
    else if name == "last_name" then Some(LastName)
    else if name == "jersey_number" then Some(JerseyNumber)
    else if name == "position" then Some(Position)
    else if name == "nationality" then Some(Nationality)
    else if name == "date_of_birth" then Some(DateOfBirth)
    else if name == "height_cm" then Some(HeightCm)
    else if name == "weight_kg" then Some(WeightKg)
    else if name == "team_name" then Some(TeamName)
    else if name == "league" then Some(League)
    else if name == "goals" then Some(Goals)
    else if name == "assists" then Some(Assists)
    else if name == "yellow_cards" then Some(YellowCards)
    else if name == "red_cards" then Some(RedCards)
    else None
  }

  /** `form[Key(f)]`. */
  function Get(form: Form, f: Field): string {
    match f
    case FirstName => form.first_name
    case LastName => form.last_name
    case JerseyNumber => form.jersey_number
    case Position => form.position
    case Nationality => form.nationality
    case DateOfBirth => form.date_of_birth
    case HeightCm => form.height_cm
    case WeightKg => form.weight_kg
    case TeamName => form.team_name
    case League => form.league
    case Goals => form.goals
    case Assists => form.assists
    case YellowCards => form.yellow_cards
    case RedCards => form.red_cards
  }

  /** `{ ...form, [Key(f)]: v }`: the named field takes `v`, every other
      field keeps its text. */
  function Set(form: Form, f: Field, v: string): (r: Form)
    ensures Get(r, f) == v
    ensures forall g :: g != f ==> Get(r, g) == Get(form, g)
  {
    match f
    case FirstName => form.(first_name := v)
    case LastName => form.(last_name := v)
    case JerseyNumber => form.(jersey_number := v)
    case Position => form.(position := v)
    case Nationality => form.(nationality := v)
    case DateOfBirth => form.(date_of_birth := v)
    case HeightCm => form.(height_cm := v)
    case WeightKg => form.(weight_kg := v)
    case TeamName => form.(team_name := v)
    case League => form.(league := v)
    case Goals => form.(goals := v)
    case Assists => form.(assists := v)
    case YellowCards => form.(yellow_cards := v)
    case RedCards => form.(red_cards := v)
  }

  /** The four match counters, which default to 0 rather than to null. */
  predicate IsCounter(f: Field) {
    f.Goals? || f.Assists? || f.YellowCards? || f.RedCards?
  }

  /** The form a create starts from: blank text, no position, counters "0". */
  function EmptyForm(): (r: Form)
    ensures forall f :: Get(r, f) == if IsCounter(f) then "0" else ""
  {
    Form("", "", "", "", "", "", "", "", "", "", "0", "0", "0", "0")
  }

  /** `toStr`: an absent number shows as empty text, a present one as its
      numeral. */
  function ToStr(n: Option<int>): (r: string)
    ensures r == "" <==> n.None?
    ensures n.Some? ==> !Blank(r)
  {
    if n.None? then "" else ShowNum(n.value)
  }

  /** `toNumOrNull`: blank text and text that does not parse to a finite
      number give `None`; otherwise the number the trimmed text denotes. */
  function ToNumOrNull(s: string): (r: Option<int>)
    ensures Blank(s) ==> r.None?
    ensures !Blank(s) ==> r == ParseNum(Trim(s))
  {
    var t := Trim(s);
    if t == "" then None else ParseNum(t)
  }

  /** `toNumOrZero`: never absent; 0 exactly where `toNumOrNull` is absent. */
  function ToNumOrZero(s: string): (r: int)
    ensures ToNumOrNull(s).Some? ==> r == ToNumOrNull(s).value
    ensures ToNumOrNull(s).None? ==> r == 0
    ensures Blank(s) ==> r == 0
  {
    ToNumOrNull(s).GetOr(0)
  }

  /** `toDateOnly`: blank text gives `None`; otherwise the trimmed text cut
      just before its first `T`, so a present result never holds a `T`. */
  function ToDateOnly(value: string): (r: Option<string>)
    ensures r.None? <==> Blank(value)
    ensures r.Some? ==> 'T' !in r.value && r.value <= Trim(value)
    ensures r.Some? && |r.value| < |Trim(value)| ==> Trim(value)[|r.value|] == 'T'
  {
    var v := Trim(value);
    if v == "" then None
    else if 'T' in v then Some(BeforeFirst(v, 'T'))
    else Some(v)
  }

  /** `s.trim() === "" ? null : s`: blank text is absent, any other text is
      kept untrimmed. */
  function TextOrNull(s: string): (r: Option<string>)
    ensures r.None? <==> Blank(s)
    ensures r.Some? ==> r.value == s
  {
    if Trim(s) == "" then None else Some(s)
  }

  /** The payload built in `onSubmit`: names as typed, the empty position
      as null, blank optional text as null and other text untrimmed,
      numbers through `toNumOrNull`, counters through `toNumOrZero` and the
      date through `toDateOnly`. */
  function ToPayload(form: Form): (r: Payload)
    ensures r.first_name == form.first_name && r.last_name == form.last_name
    ensures r.position.None? <==> form.position == ""
    ensures r.position.Some? ==> r.position.value == form.position
    ensures r.nationality == TextOrNull(form.nationality)
    ensures r.team_name == TextOrNull(form.team_name)
    ensures r.league == TextOrNull(form.league)
    ensures r.jersey_number == ToNumOrNull(form.jersey_number)
    ensures r.height_cm == ToNumOrNull(form.height_cm)
    ensures r.weight_kg == ToNumOrNull(form.weight_kg)
    ensures r.goals == ToNumOrZero(form.goals) && r.assists == ToNumOrZero(form.assists)
    ensures r.yellow_cards == ToNumOrZero(form.yellow_cards)
    ensures r.red_cards == ToNumOrZero(form.red_cards)
    ensures r.date_of_birth == ToDateOnly(form.date_of_birth)
    ensures r.date_of_birth.Some? ==> 'T' !in r.date_of_birth.value
  {
    Payload(
      form.first_name,
      form.last_name,
      ToNumOrNull(form.jersey_number),
      if form.position == "" then None else Some(form.position),
      TextOrNull(form.nationality),
      ToDateOnly(form.date_of_birth),
      ToNumOrNull(form.height_cm),
      ToNumOrNull(form.weight_kg),
      TextOrNull(form.team_name),
      TextOrNull(form.league),
      ToNumOrZero(form.goals),
      ToNumOrZero(form.assists),
      ToNumOrZero(form.yellow_cards),
      ToNumOrZero(form.red_cards))
  }

  /** The form `openEdit` fills from a record; `EditFormShowsRecord`
      states field by field what it shows. */
  function EditForm(p: Player): (r: Form)
    ensures 'T' !in r.date_of_birth
    ensures r.goals != "" && r.assists != "" && r.yellow_cards != "" && r.red_cards != ""
  {
    Form(
      p.first_name.GetOr(""),
      p.last_name.GetOr(""),
      ToStr(p.jersey_number),
      p.position.GetOr(""),
      p.nationality.GetOr(""),
      DateShown(p.date_of_birth),
      ToStr(p.height_cm),
      ToStr(p.weight_kg),
      p.team_name.GetOr(""),
      p.league.GetOr(""),
      ToStr(Some(p.goals.GetOr(0))),
      ToStr(Some(p.assists.GetOr(0))),
      ToStr(Some(p.yellow_cards.GetOr(0))),
      ToStr(Some(p.red_cards.GetOr(0))))
  }

  /** `p.date_of_birth ? p.date_of_birth.split("T")[0] : ""`. */
  function DateShown(d: Option<string>): string {
    if d.Some? && d.value != "" then BeforeFirst(d.value, 'T') else ""
  }

  /** An optional text as it comes back from the form: blank text is lost. */
  function KeepNonBlank(o: Option<string>): Option<string> {
    if o.Some? && !Blank(o.value) then o else None
  }

  /** What `openEdit` shows for a record: null text shows as "",
      present text as itself, a null number as "" and a present one as its
      numeral, a null counter as "0", and the date as the record's date cut
      at its first `T`. */
  lemma EditFormShowsRecord(p: Player)
    ensures var r := EditForm(p);
      && (p.first_name.None? ==> r.first_name == "")
      && (p.first_name.Some? ==> r.first_name == p.first_name.value)
      && (p.last_name.None? ==> r.last_name == "")
      && (p.last_name.Some? ==> r.last_name == p.last_name.value)
      && (p.position.None? ==> r.position == "")
      && (p.position.Some? ==> r.position == p.position.value)
      && (p.nationality.None? ==> r.nationality == "")
      && (p.nationality.Some? ==> r.nationality == p.nationality.value)
      && (p.team_name.None? ==> r.team_name == "")
      && (p.team_name.Some? ==> r.team_name == p.team_name.value)
      && (p.league.None? ==> r.league == "")
      && (p.league.Some? ==> r.league == p.league.value)
    ensures var r := EditForm(p);
      && (r.jersey_number == "" <==> p.jersey_number.None?)
      && (p.jersey_number.Some? ==> r.jersey_number == ShowNum(p.jersey_number.value))
      && (r.height_cm == "" <==> p.height_cm.None?)
      && (p.height_cm.Some? ==> r.height_cm == ShowNum(p.height_cm.value))
      && (r.weight_kg == "" <==> p.weight_kg.None?)
      && (p.weight_kg.Some? ==> r.weight_kg == ShowNum(p.weight_kg.value))
    ensures var r := EditForm(p);
      && (p.goals.None? ==> r.goals == "0")
      && (p.goals.Some? ==> r.goals == ShowNum(p.goals.value))
      && (p.assists.None? ==> r.assists == "0")
      && (p.assists.Some? ==> r.assists == ShowNum(p.assists.value))
      && (p.yellow_cards.None? ==> r.yellow_cards == "0")
      && (p.yellow_cards.Some? ==> r.yellow_cards == ShowNum(p.yellow_cards.value))
      && (p.red_cards.None? ==> r.red_cards == "0")
      && (p.red_cards.Some? ==> r.red_cards == ShowNum(p.red_cards.value))
    ensures var r := EditForm(p);
      && 'T' !in r.date_of_birth
      && r.date_of_birth <= p.date_of_birth.GetOr("")
      && (p.date_of_birth.Some? && |r.date_of_birth| < |p.date_of_birth.value| ==>
            p.date_of_birth.value[|r.date_of_birth|] == 'T')
  {
  }

  /** An input's `name` designates the field whose key it is. */
  lemma FieldNamedKey(f: Field)
    ensures FieldNamed(Key(f)) == Some(f)
  {
  }

  /** Number text round trip: what `toStr` shows, `toNumOrNull` reads back. */
  lemma NumTextRoundTrip(n: Option<int>)
    ensures ToNumOrNull(ToStr(n)) == n
  {
    if n.Some? {
      var t := ShowNum(n.value);
      assert Trim(t) == t != "";
      ParseShow(n.value);
    }
  }

  /** A counter shown by `openEdit` is submitted back as the same number,
      and an absent counter as 0. */
  lemma CounterRoundTrip(n: Option<int>)
    ensures ToNumOrZero(ToStr(Some(n.GetOr(0)))) == n.GetOr(0)
  {
    NumTextRoundTrip(Some(n.GetOr(0)));
  }

  /** Optional text shown by `openEdit` comes back unless it was blank. */
  lemma TextRoundTrip(o: Option<string>)
    ensures TextOrNull(o.GetOr("")) == KeepNonBlank(o)
  {
  }

  /** The date `openEdit` shows, cut before its `T`, is submitted back
      trimmed, or absent when that cut is blank. */
  lemma DateRoundTrip(d: Option<string>)
    ensures ToDateOnly(DateShown(d)) ==
        (if d.None? || Blank(BeforeFirst(d.value, 'T')) then None
         else Some(Trim(BeforeFirst(d.value, 'T'))))
  {
    if d.Some? {
      TrimKeepsOut(BeforeFirst(d.value, 'T'), 'T');
    }
  }

  /** Submitting the untouched create form sends every optional field as
      `None` and every counter as 0. */
  lemma EmptyFormPayload()
    ensures ToPayload(EmptyForm()) ==
      Payload("", "", None, None, None, None, None, None, None, None, 0, 0, 0, 0)
  {
    NumTextRoundTrip(Some(0));
  }

  /** The numeric half of `EditThenSubmit`. */
  lemma EditedNumbersRoundTrip(p: Player)
    ensures var q := ToPayload(EditForm(p));
      && q.jersey_number == p.jersey_number
      && q.height_cm == p.height_cm
      && q.weight_kg == p.weight_kg
      && q.goals == p.goals.GetOr(0)
      && q.assists == p.assists.GetOr(0)
      && q.yellow_cards == p.yellow_cards.GetOr(0)
      && q.red_cards == p.red_cards.GetOr(0)
  {
    var f := EditForm(p);
    assert f.jersey_number == ToStr(p.jersey_number);
    assert f.height_cm == ToStr(p.height_cm);
    assert f.weight_kg == ToStr(p.weight_kg);
    assert f.goals == ToStr(Some(p.goals.GetOr(0)));
    assert f.assists == ToStr(Some(p.assists.GetOr(0)));
    assert f.yellow_cards == ToStr(Some(p.yellow_cards.GetOr(0)));
    assert f.red_cards == ToStr(Some(p.red_cards.GetOr(0)));
    NumTextRoundTrip(p.jersey_number);
    NumTextRoundTrip(p.height_cm);
    NumTextRoundTrip(p.weight_kg);
    CounterRoundTrip(p.goals);
    CounterRoundTrip(p.assists);
    CounterRoundTrip(p.yellow_cards);
    CounterRoundTrip(p.red_cards);
  }

  /** The optional texts of `EditThenSubmit`: each comes back unless it
      was blank. */
  lemma EditedOptionalTextRoundTrip(p: Player)
    ensures var q := ToPayload(EditForm(p));
      && q.nationality == KeepNonBlank(p.nationality)
      && q.team_name == KeepNonBlank(p.team_name)
      && q.league == KeepNonBlank(p.league)
  {
    var f := EditForm(p);
    var q := ToPayload(f);
    assert q.nationality == TextOrNull(f.nationality);
    assert q.team_name == TextOrNull(f.team_name);
    assert q.league == TextOrNull(f.league);
    TextRoundTrip(p.nationality);
    TextRoundTrip(p.team_name);
    TextRoundTrip(p.league);
  }

  /** The date of `EditThenSubmit`: cut before its `T`, then trimmed. */
  lemma EditedDateRoundTrip(p: Player)
    ensures ToPayload(EditForm(p)).date_of_birth ==
      (if p.date_of_birth.None? || Blank(BeforeFirst(p.date_of_birth.value, 'T')) then None
       else Some(Trim(BeforeFirst(p.date_of_birth.value, 'T'))))
  {
    var f := EditForm(p);
    assert f.date_of_birth == DateShown(p.date_of_birth);
    assert ToPayload(f).date_of_birth == ToDateOnly(f.date_of_birth);
    DateRoundTrip(p.date_of_birth);
  }

  /** The names and position of `EditThenSubmit`. */
  lemma EditedNamesRoundTrip(p: Player)
    ensures var q := ToPayload(EditForm(p));
      && q.first_name == p.first_name.GetOr("")
      && q.last_name == p.last_name.GetOr("")
      && q.position == (if p.position == Some("") then None else p.position)
  {
    var f := EditForm(p);
    assert f.first_name == p.first_name.GetOr("") && f.last_name == p.last_name.GetOr("");
    assert f.position == p.position.GetOr("");
  }

  /** The textual half of `EditThenSubmit`. */
  lemma EditedTextRoundTrip(p: Player)
    ensures var q := ToPayload(EditForm(p));
      && q.first_name == p.first_name.GetOr("")
      && q.last_name == p.last_name.GetOr("")
      && q.position == (if p.position == Some("") then None else p.position)
      && q.nationality == KeepNonBlank(p.nationality)
      && q.date_of_birth ==
           (if p.date_of_birth.None? || Blank(BeforeFirst(p.date_of_birth.value, 'T')) then None
            else Some(Trim(BeforeFirst(p.date_of_birth.value, 'T'))))
      && q.team_name == KeepNonBlank(p.team_name)
      && q.league == KeepNonBlank(p.league)
  {
    EditedNamesRoundTrip(p);
    EditedOptionalTextRoundTrip(p);
    EditedDateRoundTrip(p);
  }

  /** Opening a record for editing and submitting it unchanged sends the
      record back: numbers and counters exactly (an absent counter as 0),
      optional text unless it was blank, the date cut before its `T` and
      trimmed. */
  lemma EditThenSubmit(p: Player)
    ensures var q := ToPayload(EditForm(p));
      && q.first_name == p.first_name.GetOr("")
      && q.last_name == p.last_name.GetOr("")
      && q.jersey_number == p.jersey_number
      && q.position == (if p.position == Some("") then None else p.position)
      && q.nationality == KeepNonBlank(p.nationality)
      && q.date_of_birth ==
           (if p.date_of_birth.None? || Blank(BeforeFirst(p.date_of_birth.value, 'T')) then None
            else Some(Trim(BeforeFirst(p.date_of_birth.value, 'T'))))
      && q.height_cm == p.height_cm
      && q.weight_kg == p.weight_kg
      && q.team_name == KeepNonBlank(p.team_name)
      && q.league == KeepNonBlank(p.league)
      && q.goals == p.goals.GetOr(0)
      && q.assists == p.assists.GetOr(0)
      && q.yellow_cards == p.yellow_cards.GetOr(0)
      && q.red_cards == p.red_cards.GetOr(0)
  {
    EditedNumbersRoundTrip(p);
    EditedTextRoundTrip(p);
  }

  /** A record whose optional fields are all absent comes back from the
      edit form with them absent and with its counters. */
  lemma NullFieldsStayNull(p: Player)
    requires p.jersey_number.None? && p.position.None? && p.nationality.None?
    requires p.date_of_birth.None? && p.height_cm.None? && p.weight_kg.None?
    requires p.team_name.None? && p.league.None?
    ensures var q := ToPayload(EditForm(p));
      && q.jersey_number.None? && q.position.None? && q.nationality.None?
      && q.date_of_birth.None? && q.height_cm.None? && q.weight_kg.None?
      && q.team_name.None? && q.league.None?
      && q.goals == p.goals.GetOr(0) && q.assists == p.assists.GetOr(0)
      && q.yellow_cards == p.yellow_cards.GetOr(0) && q.red_cards == p.red_cards.GetOr(0)
  {
    EditThenSubmit(p);
  }

  /** A date followed by `T` and a time of day is stored as the date alone,
      whatever the time part holds. */
  lemma TimestampStoredAsDate(date: string, time: string)
    requires date != [] && !IsSpace(date[0]) && 'T' !in date
    ensures ToDateOnly(date + "T" + time) == Some(date)
  {
    var v := date + "T" + time;
    var r := Trim(v);
    var k: nat :| TrimmedAt(v, r, k);
    assert v[0] == date[0];
    assert k == 0;
    assert !IsSpace(v[|date|]);
    assert |date| < |r|;
    assert r[..|date|] == v[..|date|] == date;
    assert r[|date|] == 'T';
    BeforeFirstAt(r, 'T', |date|);
  }

  /** An ISO timestamp is stored as its calendar date. */
  lemma IsoTimestampStoredAsDate()
    ensures ToDateOnly("2020-05-01T00:00:00.000Z") == Some("2020-05-01")
  {
    var date, time := "2020-05-01", "00:00:00.000Z";
    assert 'T' !in date && !IsSpace(date[0]);
    assert date + "T" + time == "2020-05-01T00:00:00.000Z";
    TimestampStoredAsDate(date, time);
  }

  /** Text that starts with `T` is cut to the empty string, which is sent
      as present rather than as null. */
  lemma LeadingTGivesEmptyDate()
    ensures ToDateOnly("T10:00") == Some("")
  {
    var v := "T10:00";
    assert !IsSpace(v[0]) && !IsSpace(v[|v| - 1]);
    assert Trim(v) == v && v[0] == 'T';
    BeforeFirstAt(v, 'T', 0);
  }
}
