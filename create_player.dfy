/** The create page: one form that always posts a new player and then
    returns to the list. */
module CreatePlayer {
  import opened Http
  import opened PlayerForm

  /** How a submit ends for the user: sent back to the list, or shown an
      alert with a message. */
  datatype Outcome = Navigate(path: string) | Alert(message: string)

  /** The message the page alerts when a submit fails. */
  function FailureMessage(reply: Reply): (r: string)
    requires !(reply.Answered? && reply.ok)
    ensures reply.Answered? ==> r != "" && (reply.text != "" ==> r == reply.text)
    ensures reply.Answered? && reply.text == "" ==> r == "Create failed"
    ensures reply.FetchFailed? ==> r == reply.message
  {
    match reply
    case Answered(_, text) => ErrorText(text, "Create failed")
    case FetchFailed(message) => message
  }

  class CreatePlayerPage {
    var form: Form
    var saving: bool

    constructor ()
      ensures form == EmptyForm() && !saving
    {
      form := EmptyForm();
      saving := false;
    }

    /** `onChange`: the input named `name` takes `value`; every other field
        keeps its text. */
    method OnChange(name: string, value: string)
      modifies this`form
      ensures forall f :: Get(form, f) == if Key(f) == name then value else Get(old(form), f)
    {
      var field := FieldNamed(name);
      if field.Some? {
        form := Set(form, field.value, value);
      }
    }

    /** The first half of `onSubmit`: `saving` is set and the form's payload
        is posted to the collection, whatever the form holds. */
    method BeginSubmit() returns (request: Submission)
      modifies this`saving
      ensures saving
      ensures request == Submission(POST, Collection, ToPayload(form))
    {
      saving := true;
      request := Submission(POST, Collection, ToPayload(form));
    }

    /** The second half of `onSubmit`: an ok reply returns to `/players`; a
        failed one alerts the server's text ("Create failed" when empty) or
        the fetch error's message. `saving` ends false on both paths. */
    method EndSubmit(reply: Reply) returns (outcome: Outcome)
      modifies this`saving
      ensures !saving
      ensures reply.Answered? && reply.ok ==> outcome == Navigate("/players")
      ensures !(reply.Answered? && reply.ok) ==> outcome == Alert(FailureMessage(reply))
    {
      if reply.Answered? && reply.ok {
        outcome := Navigate("/players");
      } else {
        outcome := Alert(FailureMessage(reply));
      }
      saving := false;
    }
  }
}
