/**
 * The values exchanged with the submission backend (lib/types.ts), and what a
 * failed request can carry when the HTTP client throws.
 */
module ApiTypes {
  import opened Wrappers

  /** The JSON body of the submission request. */
  datatype SubmissionRequest = SubmissionRequest(email: string, batchNo: string)

  /** The `data` member of a successful reply. */
  datatype ReportData = ReportData(pdfUrl: string, productName: string, submittedAt: string)

  /** The reply envelope; `data` is optional. */
  datatype SubmissionResponse = SubmissionResponse(success: bool, message: string, data: Option<ReportData>)

  /** A thrown request error: `err.response.data.message` and `err.message`,
      each of which may be absent. */
  datatype RequestError = RequestError(responseMessage: Option<string>, message: Option<string>)

  /** How the awaited request settles: it resolves to a reply or it throws. */
  datatype Reply = Responded(response: SubmissionResponse) | Threw(err: RequestError)
}
