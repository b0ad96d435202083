/** The list page: a table of players and a modal form that either creates
    a player or edits the one it was opened for. */
module PlayersList {
  import opened Wrappers
  import opened JsText
  import opened Http
  import opened PlayerForm

  datatype Endpoint = Endpoint(verb: Method, url: string)

  /** The endpoint `onSubmit` chooses: `PUT /api/players/{id}` when
      `editingId` is truthy, `POST /api/players` otherwise. An id of 0 is
      falsy and so chooses POST. */
  function Target(editingId: Option<int>): (r: Endpoint)
    ensures r.verb == PUT <==> editingId.Some? && editingId.value != 0
    ensures r.verb.PUT? || r.verb.POST?
    ensures r.verb.POST? ==> r.url == Collection
    ensures r.verb.PUT? ==> r.url == Collection + "/" + ShowNum(editingId.value)
  {
    if editingId.Some? && editingId.value != 0
    then Endpoint(PUT, Collection + "/" + ShowNum(editingId.value))
    else Endpoint(POST, Collection)
  }

  /** The record a PUT addresses is the one being edited: the path segment
      after the collection reads back as its id. */
  lemma PutTargetsEditedId(id: int)
    requires id != 0
    ensures var url := Target(Some(id)).url;
      |url| > |Collection| + 1 && url[..|Collection| + 1] == Collection + "/"
      && ParseNum(url[|Collection| + 1..]) == Some(id)
  {
    var url := Target(Some(id)).url;
    assert url[|Collection| + 1..] == ShowNum(id);
    ParseShow(id);
  }

  /** The component's state. */
  class PlayersPage {
    var players: seq<Player>
    var loading: bool
    var open: bool
    var editingId: Option<int>
    var form: Form
    var saving: bool

    constructor ()
      ensures players == [] && loading && !open && !saving
      ensures editingId == None && form == EmptyForm()
    {
      players := [];
      loading := true;
      open := false;
      editingId := None;
      form := EmptyForm();
      saving := false;
    }

    /** The state change of `fetchPlayers` once its response is read: the
        rows when the body is an array (`Some`), no rows otherwise. */
    method ReceivePlayers(listing: Option<seq<Player>>)
      modifies this`players, this`loading
      ensures players == listing.GetOr([])
      ensures !loading
    {
      players := listing.GetOr([]);
      loading := false;
    }

    /** `openCreate`: create mode over the empty form. */
    method OpenCreate()
      modifies this`editingId, this`form, this`open
      ensures editingId == None && form == EmptyForm() && open
    {
      editingId := None;
      form := EmptyForm();
      open := true;
    }

    /** `openEdit`: edit mode over the record's fields shown as text. */
    method OpenEdit(p: Player)
      modifies this`editingId, this`form, this`open
      ensures editingId == Some(p.id) && form == EditForm(p) && open
    {
      editingId := Some(p.id);
      form := EditForm(p);
      open := true;
    }

    /** `onChange`: the input named `name` takes `value`; every other field,
        and all other state, is left as it was. A name that is no form
        field leaves the form's fields unchanged. */
    method OnChange(name: string, value: string)
      modifies this`form
      ensures forall f :: Get(form, f) == if Key(f) == name then value else Get(old(form), f)
    {
      var field := FieldNamed(name);
      if field.Some? {
        form := Set(form, field.value, value);
      }
    }

    /** The first half of `onSubmit`, up to the awaited `fetch`: `saving` is
        set and the request built from the form and the edit mode. */
    method BeginSubmit() returns (request: Submission)
      modifies this`saving
      ensures saving
      ensures request.payload == ToPayload(form)
      ensures request.verb == Target(editingId).verb
      ensures request.url == Target(editingId).url
    {
      saving := true;
      var target := Target(editingId);
      request := Submission(target.verb, target.url, ToPayload(form));
    }

    /** The second half of `onSubmit`: on an ok reply the modal closes and
        the table is reloaded from `listing`; otherwise the error escapes
        carrying the server's text, or "Request failed" when that is empty,
        and nothing else changes. Either way `saving` ends false. */
    method EndSubmit(reply: Reply, listing: Option<seq<Player>>) returns (error: Option<string>)
      modifies this`saving, this`open, this`players, this`loading
      ensures !saving
      ensures reply.Answered? && reply.ok ==>
        error == None && !open && players == listing.GetOr([]) && !loading
      ensures reply.Answered? && !reply.ok ==>
        error == Some(ErrorText(reply.text, "Request failed"))
      ensures reply.FetchFailed? ==> error == Some(reply.message)
      ensures error.Some? ==>
        error.value != "" || reply.FetchFailed?
      ensures error.Some? ==>
        open == old(open) && players == old(players) && loading == old(loading)
    {
      match reply {
        case Answered(ok, text) =>
          if ok {
            open := false;
            ReceivePlayers(listing);
            error := None;
          } else {
            error := Some(ErrorText(text, "Request failed"));
          }
        case FetchFailed(message) =>
          error := Some(message);
      }
      saving := false;
    }
  }
}
