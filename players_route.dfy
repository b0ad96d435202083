/** `GET` and `POST` on `/api/players`, the typed handler. The awaited query
    is an input: the handler is a function of the request and of what the
    query gave back. */
module PlayersRoute {
  import opened Wrappers
  import opened JsValue
  import opened Http
  import opened PlayersTable

  const NamesRequired := "first_name and last_name are required"

  /** The string form of the TypeError raised by reading `first_name` from a
      `null` body. */
  const NullBodyError := "TypeError: Cannot read properties of null (reading 'first_name')"

  /** `isRowArray`: the result of a SELECT is an array of rows. An array is
      never null and never passes `hasInsertId`, so the two guards tell a
      SELECT result from an INSERT result. */
  predicate IsRowArray(v: Value)
    ensures IsRowArray(v) ==> !Nullish(v) && !HasInsertId(v)
  {
    v.Arr?
  }

  /** `hasInsertId`: a non-null object whose `insertId` is a number. Of the
      JSON values whose `typeof` is "object", null is excluded and an array
      has no `insertId` member, which leaves objects. */
  predicate HasInsertId(v: Value)
    ensures HasInsertId(v) <==> Lookup(v, "insertId").Num?
  {
    v.Obj? && "insertId" in v.fields && v.fields["insertId"].Num?
  }

  /** Both names present and non-empty, as `!body.first_name || !body.last_name`
      rejects. */
  predicate NamesGiven(body: Value)
    ensures NamesGiven(body) <==>
      && body.Obj? && "first_name" in body.fields && "last_name" in body.fields
      && Truthy(body.fields["first_name"]) && Truthy(body.fields["last_name"])
  {
    Truthy(Lookup(body, "first_name")) && Truthy(Lookup(body, "last_name"))
  }

  /** `GET`: always an array with status 200 unless the query threw. */
  function Get(db: DbOutcome): (r: Response)
    ensures db.Failed? ==> r == ErrorResponse(500, db.error)
    ensures db.Done? ==> r.status == 200 && r.body.Arr?
    ensures db.Done? && db.result.Arr? ==> r.body == db.result
    ensures db.Done? && !db.result.Arr? ==> r.body.items == []
  {
    match db
    case Failed(error) => ErrorResponse(500, error)
    case Done(result) =>
      if !IsRowArray(result) then Response(200, Arr([])) else Response(200, result)
  }

  /** The `values` of the INSERT: each column's member of the body, with
      absent or null optional columns bound as null and absent or null
      counters bound as 0. */
  function BindValues(body: Value): (r: seq<Value>)
    ensures |r| == |Columns|
    ensures forall i :: 0 <= i < FirstCounter ==>
      r[i] == (if Nullish(Lookup(body, Columns[i])) then Null else Lookup(body, Columns[i]))
    ensures forall i :: FirstCounter <= i < |Columns| ==>
      r[i] == (if Nullish(Lookup(body, Columns[i])) then Num(0) else Lookup(body, Columns[i]))
  {
    [
      Coalesce(Lookup(body, "first_name"), Null),
      Coalesce(Lookup(body, "last_name"), Null),
      Coalesce(Lookup(body, "jersey_number"), Null),
      Coalesce(Lookup(body, "position"), Null),
      Coalesce(Lookup(body, "nationality"), Null),
      Coalesce(Lookup(body, "date_of_birth"), Null),
      Coalesce(Lookup(body, "height_cm"), Null),
      Coalesce(Lookup(body, "weight_kg"), Null),
      Coalesce(Lookup(body, "team_name"), Null),
      Coalesce(Lookup(body, "league"), Null),
      Coalesce(Lookup(body, "goals"), Num(0)),
      Coalesce(Lookup(body, "assists"), Num(0)),
      Coalesce(Lookup(body, "yellow_cards"), Num(0)),
      Coalesce(Lookup(body, "red_cards"), Num(0))
    ]
  }

  /** The 201 body: `{ message: "success", data: { id, first_name, last_name } }`. */
  function Created(id: Value, body: Value): Value {
    Obj(map[
      "message" := Str("success"),
      "data" := Obj(map[
        "id" := id,
        "first_name" := Lookup(body, "first_name"),
        "last_name" := Lookup(body, "last_name")])])
  }

  /** `POST`: a body without both names is refused with 400 before any
      query; otherwise exactly one INSERT is issued with `BindValues`, and
      the answer is 201 with the new id and the names when the result
      carries a numeric `insertId`, 500 otherwise. */
  function Post(request: Body, db: DbOutcome): (r: Handled)
    ensures r.bound.Some? <==>
      request.Parsed? && !Nullish(request.json) && NamesGiven(request.json)
    ensures r.bound.Some? ==> r.bound.value == BindValues(request.json)
    ensures r.response.status == 400 <==>
      request.Parsed? && !Nullish(request.json) && !NamesGiven(request.json)
    ensures r.response.status == 400 ==> r.response == ErrorResponse(400, NamesRequired)
    ensures r.response.status == 201 <==> r.bound.Some? && db.Done? && HasInsertId(db.result)
    ensures r.response.status == 201 ==>
      var data := Lookup(r.response.body, "data");
      && Lookup(r.response.body, "message") == Str("success")
      && Lookup(data, "id") == Lookup(db.result, "insertId")
      && Lookup(data, "first_name") == Lookup(request.json, "first_name")
      && Lookup(data, "last_name") == Lookup(request.json, "last_name")
    ensures r.response.status in {201, 400, 500}
    ensures r.response.status == 500 ==> Lookup(r.response.body, "message") == Str("error")
    ensures request.Unparsable? ==> r.response == ErrorResponse(500, request.reason)
    ensures r.bound.Some? && db.Failed? ==> r.response == ErrorResponse(500, db.error)
    ensures r.bound.Some? && db.Done? && !HasInsertId(db.result) ==>
      r.response == ErrorResponse(500, "Insert failed")
  {
    match request
    case Unparsable(reason) => Handled(ErrorResponse(500, reason), None)
    case Parsed(body) =>
      if Nullish(body) then Handled(ErrorResponse(500, NullBodyError), None)
      else if !NamesGiven(body) then Handled(ErrorResponse(400, NamesRequired), None)
      else
        var values := BindValues(body);
        match db
        case Failed(error) => Handled(ErrorResponse(500, error), Some(values))
        case Done(result) =>
          if !HasInsertId(result) then Handled(ErrorResponse(500, "Insert failed"), Some(values))
          else Handled(Response(201, Created(Lookup(result, "insertId"), body)), Some(values))
  }

  /** Creating without `last_name` is refused and inserts nothing. */
  lemma MissingLastNameRejected(db: DbOutcome)
    ensures var r := Post(Parsed(Obj(map["first_name" := Str("Leo")])), db);
      r.response.status == 400 && r.bound == None
  {
  }
}
