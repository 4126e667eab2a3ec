/** The contact dialog: a three-field form whose submission goes to the contact
    endpoint, with loading, success and error state. */
module ContactDialog {
  import opened Wrappers

  /** The message shown when a failed submission carries none. */
  const DefaultError: string := "문의 등록 실패"

  /** The limits the form's inputs declare (`minLength`, `maxLength`, `required`). */
  const TitleMin: int := 2
  const TitleMax: int := 60
  const EmailMax: int := 80
  const ContentMin: int := 5
  const ContentMax: int := 500

  /** The dialog's state; `closeCalls` counts the calls made to `onClose`. */
  datatype DialogState = DialogState(title: string, content: string, email: string,
                                     loading: bool, success: bool, error: Option<string>,
                                     closeCalls: nat)

  /** The `useState` initial values. */
  function Initial(): (s: DialogState)
    ensures s.title == "" && s.content == "" && s.email == ""
    ensures !s.loading && !s.success && s.error.None? && s.closeCalls == 0
  {
    DialogState("", "", "", false, false, None, 0)
  }

  /** The browser lets the form submit only when every declared limit holds:
      title of 2 to 60 characters, a non-empty email of at most 80, content of 5 to 500. */
  predicate FieldsValid(title: string, email: string, content: string) {
    && TitleMin <= |title| <= TitleMax
    && 0 < |email| <= EmailMax
    && ContentMin <= |content| <= ContentMax
  }

  /** The form is on screen only while the dialog is open and has not succeeded,
      and its button is disabled while loading. */
  predicate CanSubmit(open: bool, s: DialogState) {
    open && !s.success && !s.loading && FieldsValid(s.title, s.email, s.content)
  }

  /** The error text stored after a failed submission: its message, or the default. */
  function ErrorText(message: Option<string>): (e: string)
    ensures message.Some? ==> e == message.value
    ensures message.None? ==> e == DefaultError
  {
    message.GetOr(DefaultError)
  }

  /** The payload sent to the contact endpoint. */
  datatype ContactRequest = ContactRequest(title: string, content: string, email: string)

  /** `handleSubmit` up to the request: only a submit the form allows gets here;
      it sets loading and clears the error. */
  function SubmitStart(s: DialogState, open: bool): (t: DialogState)
    ensures !CanSubmit(open, s) ==> t == s
    ensures CanSubmit(open, s) ==>
      t.loading && t.error.None? &&
      t.title == s.title && t.content == s.content && t.email == s.email &&
      t.success == s.success && t.closeCalls == s.closeCalls
  {
    if CanSubmit(open, s) then s.(loading := true, error := None) else s
  }

  /** `handleSubmit` after the request: on success the flag is set and the
      fields cleared; on failure the error text is stored and the fields kept.
      Loading ends either way. */
  function SubmitSettle(s: DialogState, result: Settled<()>): (t: DialogState)
    ensures !t.loading && t.closeCalls == s.closeCalls
    ensures result.Fulfilled? ==>
      t.success && t.title == "" && t.content == "" && t.email == "" && t.error == s.error
    ensures result.Rejected? ==>
      t.error == Some(ErrorText(result.message)) && t.success == s.success &&
      t.title == s.title && t.content == s.content && t.email == s.email
  {
    match result
    case Fulfilled(_) => s.(success := true, title := "", content := "", email := "", loading := false)
    case Rejected(m) => s.(error := Some(ErrorText(m)), loading := false)
  }

  /** `handleClose`: clear success, error and the fields, then call `onClose`.
      `loading` is not touched. */
  function Close(s: DialogState): (t: DialogState)
    ensures !t.success && t.error.None? && t.title == "" && t.content == "" && t.email == ""
    ensures t.loading == s.loading && t.closeCalls == s.closeCalls + 1
  {
    DialogState("", "", "", s.loading, false, None, s.closeCalls + 1)
  }

  datatype DialogView = Closed | SuccessPanel | Form(error: Option<string>, buttonDisabled: bool)

  /** Nothing when closed; the success message after a submission succeeded;
      otherwise the form, showing the stored error only when it is truthy, with
      the button disabled while loading. */
  function Render(open: bool, s: DialogState): (v: DialogView)
    ensures v.Closed? <==> !open
    ensures v.SuccessPanel? <==> open && s.success
    ensures v.Form? ==> v.buttonDisabled == s.loading
    ensures v.Form? ==> (v.error.Some? <==> Truthy(s.error))
    ensures v.Form? && v.error.Some? ==> v.error == s.error
  {
    if !open then Closed
    else if s.success then SuccessPanel
    else Form(if Truthy(s.error) then s.error else None, s.loading)
  }

  /** A submit in flight blocks a second one: the button is disabled until it settles. */
  lemma SubmitIsNotReentrant(s: DialogState, open: bool)
    requires CanSubmit(open, s)
    ensures !CanSubmit(open, SubmitStart(s, open))
    ensures Render(open, SubmitStart(s, open)) == Form(None, true)
  {
  }

  /** After a failed submission the fields are still there, so the same message
      can be submitted again, and the error is on screen when it has text. */
  lemma FailureAllowsRetry(s: DialogState, open: bool, message: Option<string>)
    requires CanSubmit(open, s)
    ensures var t := SubmitSettle(SubmitStart(s, open), Rejected(message));
            && CanSubmit(open, t)
            && Render(open, t) == Form(if ErrorText(message) != "" then Some(ErrorText(message)) else None, false)
  {
  }

  /** After a successful submission the success panel replaces the form, so no
      second submission is possible; closing returns to an empty form, which
      needs new input before it can be sent. */
  lemma SuccessThenClose(s: DialogState, open: bool)
    requires CanSubmit(open, s)
    ensures var t := SubmitSettle(SubmitStart(s, open), Fulfilled(()));
            && Render(open, t) == SuccessPanel
            && !CanSubmit(open, t)
            && Render(open, Close(t)) == Form(None, false)
            && !CanSubmit(open, Close(t))
  {
  }

  /** Closing is a reset: apart from the call to `onClose` and a submission
      still in flight, the state is back to the initial one. */
  lemma CloseResets(s: DialogState)
    ensures Close(s).(loading := false, closeCalls := 0) == Initial()
  {
  }

  /** The dialog's state as the component holds it. */
  class Dialog {
    var title: string
    var content: string
    var email: string
    var loading: bool
    var success: bool
    var error: Option<string>
    var closeCalls: nat

    function Snapshot(): DialogState
      reads this
    {
      DialogState(title, content, email, loading, success, error, closeCalls)
    }

    constructor ()
      ensures Snapshot() == Initial()
    {
      title, content, email := "", "", "";
      loading, success := false, false;
      error := None;
      closeCalls := 0;
    }

    /** The form's `onSubmit`: a submit the form allows sets loading, clears the
        error and sends the three fields; any other changes nothing. */
    method Submit(open: bool) returns (sent: Option<ContactRequest>)
      modifies this
      ensures Snapshot() == SubmitStart(old(Snapshot()), open)
      ensures sent == if CanSubmit(open, old(Snapshot())) then Some(ContactRequest(old(title), old(content), old(email))) else None
    {
      if !CanSubmit(open, Snapshot()) {
        return None;
      }
      loading := true;
      error := None;
      sent := Some(ContactRequest(title, content, email));
    }

    /** The contact request settled. */
    method SubmitSettled(result: Settled<()>)
      requires loading
      modifies this
      ensures Snapshot() == SubmitSettle(old(Snapshot()), result)
    {
      match result {
        case Fulfilled(_) =>
          success := true;
          title, content, email := "", "", "";
        case Rejected(m) =>
          error := Some(ErrorText(m));
      }
      loading := false;
    }

    /** `handleClose`. */
    method HandleClose()
      modifies this
      ensures Snapshot() == Close(old(Snapshot()))
    {
      success := false;
      error := None;
      title, content, email := "", "", "";
      closeCalls := closeCalls + 1;
    }
  }
}
