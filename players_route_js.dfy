/** `GET` and `POST` on `/api/players`, the older untyped handler: no name
    check, no null substitution for the optional columns, and no check of
    the insert result. */
module PlayersRouteJs {
  import opened Wrappers
  import opened JsValue
  import opened Http
  import opened PlayersTable
  import PlayersRoute

  /** The string form of the TypeError raised by destructuring a `null` body. */
  const NullBodyError :=
    "TypeError: Cannot destructure property 'first_name' of '(intermediate value)' as it is null."

  /** The string form of the TypeError raised by reading `insertId` from a
      nullish query result. */
  function NullResultError(result: Value): string {
    "TypeError: Cannot read properties of "
    + (if result.Null? then "null" else "undefined") + " (reading 'insertId')"
  }

  /** `GET`: the query's result as it is, or 500 when it threw. */
  function Get(db: DbOutcome): (r: Response)
    ensures db.Done? ==> r.status == 200 && r.body == db.result
    ensures db.Failed? ==> r == ErrorResponse(500, db.error)
  {
    match db
    case Done(result) => Response(200, result)
    case Failed(error) => ErrorResponse(500, error)
  }

  /** The `values` of the INSERT: the ten leading columns exactly as
      received (possibly undefined or null), the four counters with `?? 0`. */
  function BindValues(body: Value): (r: seq<Value>)
    ensures |r| == |Columns|
    ensures forall i :: 0 <= i < FirstCounter ==> r[i] == Lookup(body, Columns[i])
    ensures forall i :: FirstCounter <= i < |Columns| ==>
      r[i] == (if Nullish(Lookup(body, Columns[i])) then Num(0) else Lookup(body, Columns[i]))
  {
    [
      Lookup(body, "first_name"),
      Lookup(body, "last_name"),
      Lookup(body, "jersey_number"),
      Lookup(body, "position"),
      Lookup(body, "nationality"),
      Lookup(body, "date_of_birth"),
      Lookup(body, "height_cm"),
      Lookup(body, "weight_kg"),
      Lookup(body, "team_name"),
      Lookup(body, "league"),
      Coalesce(Lookup(body, "goals"), Num(0)),
      Coalesce(Lookup(body, "assists"), Num(0)),
      Coalesce(Lookup(body, "yellow_cards"), Num(0)),
      Coalesce(Lookup(body, "red_cards"), Num(0))
    ]
  }

  /** `POST`: every body that parses to a non-null value reaches the
      INSERT; the answer is 201 with `result.insertId` (possibly undefined)
      and the names as received, or 500 when anything threw. */
  function Post(request: Body, db: DbOutcome): (r: Handled)
    ensures r.bound.Some? <==> request.Parsed? && !Nullish(request.json)
    ensures r.bound.Some? ==> r.bound.value == BindValues(request.json)
    ensures r.response.status == 201 <==> r.bound.Some? && db.Done? && !Nullish(db.result)
    ensures r.response.status == 201 ==>
      var data := Lookup(r.response.body, "data");
      && Lookup(r.response.body, "message") == Str("success")
      && Lookup(data, "id") == Lookup(db.result, "insertId")
      && Lookup(data, "first_name") == Lookup(request.json, "first_name")
      && Lookup(data, "last_name") == Lookup(request.json, "last_name")
    ensures r.response.status != 201 ==>
      r.response.status == 500 && Lookup(r.response.body, "message") == Str("error")
    ensures r.bound.Some? && db.Failed? ==> r.response == ErrorResponse(500, db.error)
  {
    match request
    case Unparsable(reason) => Handled(ErrorResponse(500, reason), None)
    case Parsed(body) =>
      if Nullish(body) then Handled(ErrorResponse(500, NullBodyError), None)
      else
        var values := BindValues(body);
        match db
        case Failed(error) => Handled(ErrorResponse(500, error), Some(values))
        case Done(result) =>
          if Nullish(result) then Handled(ErrorResponse(500, NullResultError(result)), Some(values))
          else Handled(Response(201, PlayersRoute.Created(Lookup(result, "insertId"), body)), Some(values))
  }

  /** The two handlers bind the same values wherever the body has the
      member; a missing optional member is bound as undefined here and as
      null by the typed handler. */
  lemma BindingsAgree(body: Value)
    ensures forall i :: 0 <= i < |Columns| ==>
      BindValues(body)[i] == PlayersRoute.BindValues(body)[i]
      || (BindValues(body)[i] == Undefined && PlayersRoute.BindValues(body)[i] == Null)
    ensures forall i :: 0 <= i < |Columns| && Lookup(body, Columns[i]) != Undefined ==>
      BindValues(body)[i] == PlayersRoute.BindValues(body)[i]
  {
  }
}
