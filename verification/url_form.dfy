/**
 * The creation form (`URLForm`): its two inputs and inline error message,
 * `handleSubmit` (custom-code normalisation, outcome handling, error-text
 * extraction), the dismiss button and typing into the inputs. The remote
 * create call is opaque: only its outcome is an input.
 */
module UrlForm {
  import opened Wrappers
  import opened ApiClient
  import opened UrlsContext
  import Text

  datatype Form = Form(newUrl: string, customCode: string, errorMessage: string)

  /** Both inputs empty and no error shown. */
  const InitialForm: Form := Form("", "", "")

  /** The message shown when a failed create carries no usable `message`. */
  const DefaultError: string := "An error occurred"

  /** The error panel is rendered exactly when the message is a non-empty string. */
  predicate ErrorVisible(f: Form) {
    f.errorMessage != ""
  }

  /** Typing into the URL input. */
  function EditUrl(f: Form, s: string): (r: Form)
    ensures r.newUrl == s && r.customCode == f.customCode && r.errorMessage == f.errorMessage
  {
    f.(newUrl := s)
  }

  /** Typing into the custom-code input. */
  function EditCode(f: Form, s: string): (r: Form)
    ensures r.customCode == s && r.newUrl == f.newUrl && r.errorMessage == f.errorMessage
  {
    f.(customCode := s)
  }

  /**
   * `customCode.trim() || null`: the trimmed code, or null (`None`) when
   * trimming leaves the empty string.
   */
  function NormaliseCode(code: string): (r: Option<string>)
    ensures r.None? <==> Text.AllWhitespace(code)
    ensures r.Some? ==> |r.value| > 0 && Text.Trimmed(r.value) && r.value == Text.Trim(code)
  {
    var trimmed := Text.Trim(code);
    if trimmed == "" then None else Some(trimmed)
  }

  /** A code typed with surrounding whitespace is sent as the code alone. */
  lemma NormaliseCodeStripsPadding(pre: string, code: string, post: string)
    requires Text.AllWhitespace(pre) && Text.AllWhitespace(post)
    requires |code| > 0 && Text.Trimmed(code)
    ensures NormaliseCode(pre + code + post) == Some(code)
  {
    Text.TrimUnique(pre, code, post);
  }

  /** Whether a rejection carries a usable message: response, body and a non-empty `message` all present. */
  predicate HasMessage(e: ApiError) {
    && e.response.Some?
    && e.response.value.data.Some?
    && e.response.value.data.value.message.Some?
    && e.response.value.data.value.message.value != ""
  }

  /**
   * `error.response?.data?.message || "An error occurred"`: the server's
   * message when it is there and non-empty, the generic text otherwise.
   */
  function ErrorMessage(e: ApiError): (m: string)
    ensures m != ""
    ensures HasMessage(e) ==> m == e.response.value.data.value.message.value
    ensures !HasMessage(e) ==> m == DefaultError
  {
    match e.response
    case None => DefaultError
    case Some(response) =>
      match response.data
      case None => DefaultError
      case Some(body) =>
        match body.message
        case Some(message) => if message == "" then DefaultError else message
        case None => DefaultError
  }

  /**
   * HTML constraint validation: the URL input is `required`, so the browser
   * submits the form only when that input is not empty.
   */
  predicate SubmitAllowed(f: Form) {
    f.newUrl != ""
  }

  /** The form just after `handleSubmit` starts, and the create call it issues. */
  datatype Submitted = Submitted(form: Form, call: Call)

  /**
   * The synchronous start of `handleSubmit`: clear the error, then call
   * create with the URL exactly as typed and the normalised code.
   */
  function BeginSubmit(f: Form): (r: Submitted)
    ensures !ErrorVisible(r.form)
    ensures r.form.newUrl == f.newUrl && r.form.customCode == f.customCode
    ensures r.call.Create? && r.call.url == f.newUrl
    ensures r.call.customCode.None? <==> Text.AllWhitespace(f.customCode)
    ensures r.call.customCode.Some? ==> r.call.customCode.value == Text.Trim(f.customCode)
  {
    Submitted(f.(errorMessage := ""), Create(f.newUrl, NormaliseCode(f.customCode)))
  }

  /** The form once the create call settles, and whether `onUrlCreation` was invoked. */
  datatype Completed = Completed(form: Form, notified: bool)

  /**
   * The rest of `handleSubmit`: on success invoke the callback when one
   * was passed and empty both inputs; on failure keep the inputs and show
   * the extracted message.
   */
  function CompleteSubmit(f: Form, hasCallback: bool, outcome: Outcome<ApiError>): (r: Completed)
    ensures outcome.Pass? ==> r.notified == hasCallback && r.form.newUrl == "" && r.form.customCode == ""
    ensures outcome.Pass? ==> r.form.errorMessage == f.errorMessage
    ensures outcome.Fail? ==> !r.notified
    ensures outcome.Fail? ==> r.form.newUrl == f.newUrl && r.form.customCode == f.customCode
    ensures outcome.Fail? ==> r.form.errorMessage == ErrorMessage(outcome.error) && ErrorVisible(r.form)
  {
    match outcome
    case Pass => Completed(Form("", "", f.errorMessage), hasCallback)
    case Fail(e) => Completed(f.(errorMessage := ErrorMessage(e)), false)
  }

  /** A whole submission: the form afterwards, the calls issued and whether the callback ran. */
  datatype Submission = Submission(form: Form, calls: seq<Call>, notified: bool)

  /** Submitting the form, including the browser's `required` check on the URL input. */
  function Submit(f: Form, hasCallback: bool, outcome: Outcome<ApiError>): (r: Submission)
    ensures !SubmitAllowed(f) ==> r == Submission(f, [], false)
    ensures SubmitAllowed(f) ==> r.calls == [Create(f.newUrl, NormaliseCode(f.customCode))]
    ensures SubmitAllowed(f) && outcome.Pass? ==> r.form == InitialForm && r.notified == hasCallback
    ensures SubmitAllowed(f) && outcome.Fail? ==>
              && r.form == f.(errorMessage := ErrorMessage(outcome.error))
              && ErrorVisible(r.form) && !r.notified
  {
    if !SubmitAllowed(f) then Submission(f, [], false)
    else
      var started := BeginSubmit(f);
      var done := CompleteSubmit(started.form, hasCallback, outcome);
      Submission(done.form, [started.call], done.notified)
  }

  /** The close button on the error panel: clear the message, nothing else. */
  function Dismiss(f: Form): (r: Form)
    ensures !ErrorVisible(r)
    ensures r.newUrl == f.newUrl && r.customCode == f.customCode
  {
    f.(errorMessage := "")
  }

  /** Resubmitting after a failure needs no dismiss: a new failure replaces the old message. */
  lemma FailureMessageReplaced(f: Form, e1: ApiError, e2: ApiError)
    requires SubmitAllowed(f)
    ensures var first := Submit(f, false, Fail(e1)).form;
            Submit(first, false, Fail(e2)).form.errorMessage == ErrorMessage(e2)
  {
  }
}
