/**
 * The submission form (app/page.tsx): its two inputs, the validation that
 * runs before any request, the mapping of the settled request to an error
 * message or a navigation to the report viewer, and the `isLoading` and
 * `error` state the handler updates.
 */
module SubmitForm {
  import opened Wrappers
  import opened Text
  import opened QueryParams
  import opened ApiTypes
  import EmailPattern

  const FillAllFields := "Please fill in all fields"
  const InvalidEmail := "Please enter a valid email address"
  const SubmitFailed := "Failed to submit form. Please try again."
  const SomethingWentWrong := "Something went wrong. Please check your batch number and try again."
  const ViewerRoute := "/pdf"
  const DefaultProduct := "Report"

  /** A full-page navigation: the route and the query pairs it carries. */
  datatype Navigation = Navigation(route: string, query: Query)

  /** What the handler does once the request has settled. */
  datatype Settled = Navigate(to: Navigation) | Show(message: string)

  /** The checks made before any request: the message to show, or None when
      the request may be issued. */
  function Validate(email: string, batchNo: string): (r: Option<string>)
    ensures email == "" || batchNo == "" ==> r == Some(FillAllFields)
    ensures email != "" && batchNo != "" && !EmailPattern.PatternMatches(email) ==> r == Some(InvalidEmail)
    ensures r.None? <==> email != "" && batchNo != "" && EmailPattern.PatternMatches(email)
  {
    if email == "" || batchNo == "" then Some(FillAllFields)
    else if !EmailPattern.Test(email) then Some(InvalidEmail)
    else None
  }

  /** The message shown for a thrown request error: the first truthy of the
      backend's message and the error's own message, else the fallback. */
  function ThrownMessage(err: RequestError): (m: string)
    ensures m != ""
    ensures Truthy(err.responseMessage) ==> m == err.responseMessage.value
    ensures !Truthy(err.responseMessage) && Truthy(err.message) ==> m == err.message.value
    ensures !Truthy(err.responseMessage) && !Truthy(err.message) ==> m == SomethingWentWrong
  {
    Or(err.responseMessage, Or(err.message, SomethingWentWrong))
  }

  /** The outcome of a settled request. A reply with `success` and `data`
      navigates to the viewer with the document URL and the product name
      (or "Report" when the name is empty); any other reply shows its message
      or the generic failure text; a thrown error shows ThrownMessage. */
  function Settle(reply: Reply): (r: Settled)
    ensures r.Navigate? <==> reply.Responded? && reply.response.success && reply.response.data.Some?
    ensures r.Navigate? ==>
      var d := reply.response.data.value;
      r.to.route == ViewerRoute &&
      r.to.query == [("url", d.pdfUrl), ("product", if d.productName != "" then d.productName else DefaultProduct)]
    ensures r.Show? ==> r.message != ""
    ensures reply.Responded? && r.Show? ==>
      r.message == if reply.response.message != "" then reply.response.message else SubmitFailed
    ensures reply.Threw? ==> r == Show(ThrownMessage(reply.err))
  {
    match reply
    case Responded(response) =>
      if response.success && response.data.Some? then
        var d := response.data.value;
        Navigate(Navigation(ViewerRoute, [("url", d.pdfUrl), ("product", Or(Some(d.productName), DefaultProduct))]))
      else
        Show(Or(Some(response.message), SubmitFailed))
    case Threw(err) =>
      Show(ThrownMessage(err))
  }

  /** The form page's state. `sent` records every request issued, oldest first. */
  class SubmissionForm {
    var email: string
    var batchNo: string
    var isLoading: bool
    var error: string
    var sent: seq<SubmissionRequest>

    constructor ()
      ensures email == "" && batchNo == "" && !isLoading && error == "" && sent == []
    {
      email, batchNo, isLoading, error, sent := "", "", false, "", [];
    }

    /** The email input's change handler. */
    method SetEmail(value: string)
      modifies this`email
      ensures email == value
    {
      email := value;
    }

    /** The batch-number input's change handler. */
    method SetBatchNo(value: string)
      modifies this`batchNo
      ensures batchNo == value
    {
      batchNo := value;
    }

    /** handleSubmit up to the awaited request: clear the error, validate,
        and only when both checks pass enter the loading state and issue one
        request carrying the two inputs unchanged. */
    method BeginSubmit() returns (request: Option<SubmissionRequest>)
      modifies this`isLoading, this`error, this`sent
      ensures Validate(email, batchNo).Some? ==>
        request.None? && error == Validate(email, batchNo).value &&
        isLoading == old(isLoading) && sent == old(sent)
      ensures Validate(email, batchNo).None? ==>
        request == Some(SubmissionRequest(email, batchNo)) && error == "" &&
        isLoading && sent == old(sent) + [request.value]
    {
      error := "";
      var check := Validate(email, batchNo);
      if check.Some? {
        error := check.value;
        return None;
      }
      isLoading := true;
      request := Some(SubmissionRequest(email, batchNo));
      sent := sent + [request.value];
    }

    /** handleSubmit after the request settles: navigate, or show the message
        Settle gives; in every case leave the loading state. */
    method FinishSubmit(reply: Reply) returns (next: Option<Navigation>)
      modifies this`isLoading, this`error
      ensures !isLoading
      ensures Settle(reply).Navigate? ==> next == Some(Settle(reply).to) && error == old(error)
      ensures Settle(reply).Show? ==> next.None? && error == Settle(reply).message
    {
      match Settle(reply) {
        case Navigate(to) =>
          next := Some(to);
        case Show(message) =>
          error := message;
          next := None;
      }
      isLoading := false;
    }

    /** The whole handler, given how the request would settle. */
    method HandleSubmit(reply: Reply) returns (next: Option<Navigation>)
      modifies this`isLoading, this`error, this`sent
      ensures Validate(email, batchNo).Some? ==>
        next.None? && error == Validate(email, batchNo).value &&
        isLoading == old(isLoading) && sent == old(sent)
      ensures Validate(email, batchNo).None? ==>
        sent == old(sent) + [SubmissionRequest(email, batchNo)] && !isLoading &&
        match Settle(reply)
        case Navigate(to) => next == Some(to) && error == ""
        case Show(message) => next.None? && error == message
    {
      var request := BeginSubmit();
      if request.None? {
        return None;
      }
      next := FinishSubmit(reply);
    }
  }
}
