/** A page submit seen end to end: the payload is serialised as JSON, the
    create route reads it back and binds it to the INSERT. */
module SubmitToInsert {
  import opened Wrappers
  import opened JsValue
  import opened Http
  import opened PlayersTable
  import opened PlayerForm
  import PlayersRoute
  import PlayersRouteJs

  function OptText(o: Option<string>): Value {
    if o.None? then Null else Str(o.value)
  }

  function OptNum(o: Option<int>): Value {
    if o.None? then Null else Num(o.value)
  }

  /** `JSON.stringify(payload)` as the route's `request.json()` reads it:
      every member present, absent values as null. */
  function PayloadJson(p: Payload): (r: Value)
    ensures r.Obj? && forall c :: c in Columns ==> c in r.fields
  {
    Obj(map[
      "first_name" := Str(p.first_name),
      "last_name" := Str(p.last_name),
      "jersey_number" := OptNum(p.jersey_number),
      "position" := OptText(p.position),
      "nationality" := OptText(p.nationality),
      "date_of_birth" := OptText(p.date_of_birth),
      "height_cm" := OptNum(p.height_cm),
      "weight_kg" := OptNum(p.weight_kg),
      "team_name" := OptText(p.team_name),
      "league" := OptText(p.league),
      "goals" := Num(p.goals),
      "assists" := Num(p.assists),
      "yellow_cards" := Num(p.yellow_cards),
      "red_cards" := Num(p.red_cards)])
  }

  /** The payload's fields in INSERT column order. */
  function PayloadRow(p: Payload): (r: seq<Value>)
    ensures |r| == |Columns|
  {
    [
      Str(p.first_name), Str(p.last_name), OptNum(p.jersey_number), OptText(p.position),
      OptText(p.nationality), OptText(p.date_of_birth), OptNum(p.height_cm),
      OptNum(p.weight_kg), OptText(p.team_name), OptText(p.league),
      Num(p.goals), Num(p.assists), Num(p.yellow_cards), Num(p.red_cards)
    ]
  }

  /** The name, position and nationality members of the serialised payload. */
  lemma LeadingMembers(p: Payload)
    ensures var json := PayloadJson(p);
      && Lookup(json, "first_name") == Str(p.first_name)
      && Lookup(json, "last_name") == Str(p.last_name)
      && Lookup(json, "jersey_number") == OptNum(p.jersey_number)
      && Lookup(json, "position") == OptText(p.position)
      && Lookup(json, "nationality") == OptText(p.nationality)
  {
  }

  /** The date, size, team and league members of the serialised payload. */
  lemma MiddleMembers(p: Payload)
    ensures var json := PayloadJson(p);
      && Lookup(json, "date_of_birth") == OptText(p.date_of_birth)
      && Lookup(json, "height_cm") == OptNum(p.height_cm)
      && Lookup(json, "weight_kg") == OptNum(p.weight_kg)
      && Lookup(json, "team_name") == OptText(p.team_name)
      && Lookup(json, "league") == OptText(p.league)
  {
  }

  /** The counter members of the serialised payload. */
  lemma CounterMembers(p: Payload)
    ensures var json := PayloadJson(p);
      && Lookup(json, "goals") == Num(p.goals)
      && Lookup(json, "assists") == Num(p.assists)
      && Lookup(json, "yellow_cards") == Num(p.yellow_cards)
      && Lookup(json, "red_cards") == Num(p.red_cards)
  {
  }

  /** The typed handler binds a serialised payload exactly as it is: the
      payload holds no undefined member and no null counter. */
  lemma TypedBindsPayload(p: Payload)
    ensures PlayersRoute.BindValues(PayloadJson(p)) == PayloadRow(p)
  {
    LeadingMembers(p);
    MiddleMembers(p);
    CounterMembers(p);
  }

  /** So does the untyped handler. */
  lemma UntypedBindsPayload(p: Payload)
    ensures PlayersRouteJs.BindValues(PayloadJson(p)) == PayloadRow(p)
  {
    LeadingMembers(p);
    MiddleMembers(p);
    CounterMembers(p);
  }

  /** The typed handler inserts a serialised payload exactly when both
      names are non-empty, binding the payload's values in column order. */
  lemma TypedPostOfPayload(p: Payload, db: DbOutcome)
    ensures var r := PlayersRoute.Post(Parsed(PayloadJson(p)), db);
      && (p.first_name != "" && p.last_name != "" ==> r.bound == Some(PayloadRow(p)))
      && (p.first_name == "" || p.last_name == "" ==> r.response.status == 400 && r.bound.None?)
  {
    var json := PayloadJson(p);
    assert Lookup(json, "first_name") == Str(p.first_name);
    assert Lookup(json, "last_name") == Str(p.last_name);
    assert PlayersRoute.NamesGiven(json) <==> p.first_name != "" && p.last_name != "";
    TypedBindsPayload(p);
  }

  /** The untyped handler inserts every serialised payload, binding its
      values in column order. */
  lemma UntypedPostOfPayload(p: Payload, db: DbOutcome)
    ensures PlayersRouteJs.Post(Parsed(PayloadJson(p)), db).bound == Some(PayloadRow(p))
  {
    UntypedBindsPayload(p);
  }

  /** A page submit with both names filled is inserted with its payload's
      values in column order by either handler; one with an empty name is
      refused by the typed handler with 400 before any query. */
  lemma FormSubmitBindsPayload(form: Form, db: DbOutcome)
    ensures var request := Parsed(PayloadJson(ToPayload(form)));
      && (form.first_name != "" && form.last_name != "" ==>
            PlayersRoute.Post(request, db).bound == Some(PayloadRow(ToPayload(form))))
      && (form.first_name == "" || form.last_name == "" ==>
            PlayersRoute.Post(request, db).response.status == 400
            && PlayersRoute.Post(request, db).bound.None?)
      && PlayersRouteJs.Post(request, db).bound == Some(PayloadRow(ToPayload(form)))
  {
    var p := ToPayload(form);
    assert p.first_name == form.first_name && p.last_name == form.last_name;
    TypedPostOfPayload(p, db);
    UntypedPostOfPayload(p, db);
  }

  /** Submitting the untouched create form with its names filled inserts
      null in every optional column and 0 in every counter. */
  lemma EmptyFormInsertsDefaults(first: string, last: string, db: DbOutcome)
    requires first != "" && last != ""
    ensures var form := EmptyForm().(first_name := first, last_name := last);
      PlayersRoute.Post(Parsed(PayloadJson(ToPayload(form))), db).bound ==
        Some([Str(first), Str(last), Null, Null, Null, Null, Null, Null, Null, Null,
              Num(0), Num(0), Num(0), Num(0)])
  {
    var form := EmptyForm().(first_name := first, last_name := last);
    EmptyFormPayload();
    assert ToPayload(form) == ToPayload(EmptyForm()).(first_name := first, last_name := last);
    FormSubmitBindsPayload(form, db);
  }
}
