# Batch-number report front-end, modelled in Dafny

The repository is a small Next.js front-end with two client pages. The form
page (`app/page.tsx`) takes an email address and a batch number, validates
them, posts them to the backend once, and either navigates to the report
viewer or shows an error. The viewer page (`app/pdf/page.tsx`) reads the
document URL and the product name from its query, embeds the document, shows
a success banner that hides itself after 4000 ms or when closed, reports a
missing URL or a failed embed, and offers a download under a file name
derived from the product name.

This project models the logic of those two pages as data and events:

- `wrappers.dfy`, `text.dfy`: optional values, the characters the regular
  expression class `\s` matches, and JavaScript truthiness of strings and
  `a || b` on them.
- `query_params.dfy`: the query as a list of (key, value) pairs and
  `URLSearchParams.get` (the first pair with the key, or null).
- `api_types.dfy`: the request and reply shapes of `lib/types.ts`, the two
  messages a thrown request error can carry, and `Reply`, how the awaited
  request settles.
- `email_pattern.dfy`: the pattern `^[^\s@]+@[^\s@]+\.[^\s@]+$` three ways:
  its meaning as a split of the string into its five pieces
  (`PatternMatches`), a scanning matcher (`Test`), and a plain description
  (`WellFormed`: no whitespace, exactly one '@', something before it, and a
  '.' after it with a character of the domain on each side). The matcher and
  the description are both proved equal to the pattern.
- `submit_form.dfy`: the validation, the mapping of a settled request to a
  navigation or a message, and the `SubmissionForm` class holding `email`,
  `batchNo`, `isLoading`, `error` and the log `sent` of issued requests. The
  async handler is split at its `await`: `BeginSubmit` runs up to the
  request, `FinishSubmit` after it (including the `finally`), and
  `HandleSubmit` composes them for a given reply.
- `download_name.dfy`: `replace(/\s+/g, '_')` as a recursive function, an
  independent one-character-at-a-time definition proved equal to it, and the
  download file name `<name>_Report.pdf`.
- `report_viewer.dfy`: the page state (`error`, the banner flag, the pending
  banner timer) as a state machine over the events effect run, timer fired,
  banner closed, embed failed and download clicked; the render conditions;
  which events the page can receive in a state; and the `Viewer` class whose
  event methods are proved to perform exactly the machine's steps.
- `submit_to_viewer.dfy`: the hand-over from form to viewer through the
  navigation query, and the worked examples.

## Model

| member | source | states |
|---|---|---|
| `QueryParams.Get` | app/pdf/page.tsx:10-11 | the lookup yields null exactly when no pair has the key, and otherwise the value of the first pair with that key |
| `EmailPattern.Test` | app/page.tsx:23 | the scanning matcher used by the form accepts a string exactly when some split of it fits `[^\s@]+ @ [^\s@]+ \. [^\s@]+` end to end |
| `EmailPattern.PatternCharacterisation` | app/page.tsx:23 | the pattern accepts a string exactly when it has no whitespace, exactly one '@' with something before it, and a '.' after the '@' with at least one character on each side within the domain |
| `SubmitForm.Validate` | app/page.tsx:17-26 | an empty email or batch number gives "Please fill in all fields"; otherwise an email the pattern rejects gives "Please enter a valid email address"; the request may be issued exactly when both fields are non-empty and the pattern accepts the email |
| `SubmitForm.ThrownMessage` | app/page.tsx:47-53 | a thrown error shows the backend's message if non-empty, else the error's own message if non-empty, else "Something went wrong. Please check your batch number and try again."; never an empty message |
| `SubmitForm.Settle` | app/page.tsx:37-53 | navigation happens exactly when the reply has `success` and `data`, to "/pdf" with `url` = the document URL and `product` = the product name or "Report" when it is empty; any other reply shows its message or "Failed to submit form. Please try again."; a thrown error shows ThrownMessage; every non-navigating outcome has a non-empty message |
| `SubmitForm.SubmissionForm.constructor` | app/page.tsx:8-11 | both inputs empty, not loading, no error, no request issued |
| `SubmitForm.SubmissionForm.SetEmail` | app/page.tsx:142 | the email input's change handler stores the new value |
| `SubmitForm.SubmissionForm.SetBatchNo` | app/page.tsx:168 | the batch-number input's change handler stores the new value |
| `SubmitForm.SubmissionForm.BeginSubmit` | app/page.tsx:13-35 | the error is reset; on a failed check the check's message is shown, nothing is sent and `isLoading` is unchanged; otherwise loading starts and exactly one request carrying the two inputs unchanged is issued |
| `SubmitForm.SubmissionForm.FinishSubmit` | app/page.tsx:36-56 | after the request settles `isLoading` is false on every path; a navigation is returned and the error left alone, or the Settle message is shown |
| `SubmitForm.SubmissionForm.HandleSubmit` | app/page.tsx:13-57 | the whole handler: a request is logged exactly once and only when both checks pass; the resulting error depends only on the inputs and the reply, not on earlier attempts; after a request `isLoading` is false, also on success |
| `DownloadName.ReplaceSpaceRuns` | app/pdf/page.tsx:34 | the replacement leaves no whitespace and never lengthens the name |
| `DownloadName.ReplaceIsStreamed` | app/pdf/page.tsx:34 | replacing each maximal whitespace run by one '_' equals the character-by-character reading where a whitespace character gives '_' when it starts a run and nothing when it continues one |
| `DownloadName.StreamedInRun` | app/pdf/page.tsx:34 | inside a whitespace run, the character-by-character reading skips the rest of the run |
| `DownloadName.ReplaceKeepsSpaceFree` | app/pdf/page.tsx:34 | a name without whitespace is left unchanged |
| `DownloadName.ReplaceIdempotent` | app/pdf/page.tsx:34 | replacing twice gives the same name as replacing once |
| `DownloadName.ReplaceAfterSpaceFree` | app/pdf/page.tsx:34 | a whitespace-free prefix passes through the replacement unchanged |
| `DownloadName.FileName` | app/pdf/page.tsx:34 | the file name has no whitespace, ends in "_Report.pdf", and before that suffix is the replaced product name |
| `DownloadName.FileNameExample` | app/pdf/page.tsx:34 | "Acme Co" gives "Acme_Co_Report.pdf" |
| `ReportViewer.ProductName` | app/pdf/page.tsx:11 | the shown name is the `product` value, or "Report" when it is absent or empty; never empty |
| `ReportViewer.Next` | app/pdf/page.tsx:13-43 | no event sets the error back to null, no event shows the banner again, and no event leaves a timer pending while the banner is hidden |
| `ReportViewer.Render` | app/pdf/page.tsx:69-153 | a set error is shown in the error panel instead of the document, and without an error there is no panel; the document is embedded exactly when there is a URL and no error; the header download button is shown exactly when there is a URL; the error panel's Download and Go Back buttons exactly when there is a URL and an error; the banner exactly while its flag is set |
| `ReportViewer.Enabled` | app/pdf/page.tsx:22-151 | the events the page can receive: the timer fires only while pending (23-26), the close button exists only inside the shown banner (83-109), the embed's error handler only on the rendered document, i.e. with a URL and no error (113, 143-151), and a download only from the buttons shown with a URL (69-77, 121-129) |
| `ReportViewer.RunIsMonotone` | app/pdf/page.tsx:13-43 | over any sequence of events the error stays set once set, the banner stays hidden once hidden, and a pending timer always belongs to a shown banner |
| `ReportViewer.MissingUrlIsReported` | app/pdf/page.tsx:16-19 | without a URL the first effect sets "No PDF URL provided", and after any events the page can then receive that message stays, nothing is embedded, and neither the header download button nor the error panel's Download and Go Back buttons are offered |
| `ReportViewer.MissingUrlStays` | app/pdf/page.tsx:16-19 | without a URL, once "No PDF URL provided" is shown no receivable event replaces it |
| `ReportViewer.LoadErrorShowsPanel` | app/pdf/page.tsx:41-43 | a failed embed shows "Failed to load PDF. Please try downloading it instead." in the error panel instead of the document, with Download and Go Back exactly when there is a URL |
| `ReportViewer.BannerLifetime` | app/pdf/page.tsx:14-26 | the first effect schedules the banner timer and its firing hides the banner; closing hides it from any state and closing twice equals closing once |
| `ReportViewer.Viewer.constructor` | app/pdf/page.tsx:8-14 | reads `url` and `product` from the query, starts with no error, the banner shown and no timer |
| `ReportViewer.Viewer.RunEffect` | app/pdf/page.tsx:16-28 | performs exactly the effect step: a missing URL is reported and the timer is re-armed while the banner shows |
| `ReportViewer.Viewer.FireTimer` | app/pdf/page.tsx:23-25 | performs exactly the timer step: a pending timer hides the banner |
| `ReportViewer.Viewer.DismissBanner` | app/pdf/page.tsx:99 | performs exactly the close step: the banner is hidden and its timer cancelled |
| `ReportViewer.Viewer.HandlePdfError` | app/pdf/page.tsx:41-43 | performs exactly the embed-failure step: the error becomes the load-failure message |
| `ReportViewer.Viewer.HandleDownload` | app/pdf/page.tsx:30-39 | a download is requested exactly when the URL is present, of that URL, under FileName of the product name, which has no whitespace; the page state is untouched |
| `SubmitToViewer.NavigationOpensReport` | app/page.tsx:37-43 | a successful reply opens the viewer on the reply's document URL and product name (or "Report"); the viewer reports a missing URL exactly when that URL is empty |
| `SubmitToViewer.ValidationExamples` | app/page.tsx:18-26 | a missing batch number and "not-an-email" are rejected with their messages; "a@b.com" with "B1" passes |
| `SubmitToViewer.ViewerExample` | app/pdf/page.tsx:30-39 | a viewer opened on a URL with product "Acme Co" shows no error after its effect, and its download handler asks for that URL under "Acme_Co_Report.pdf" |
| `SubmitToViewer.SettleExamples` | app/page.tsx:37-53 | a success navigates with the URL and "Widget"; `success: false` with "Batch not found" shows exactly that; a thrown error without messages shows the generic fallback |

## Left out

- JSX, CSS, icons, animations and the `Suspense` wrapper of the viewer: presentation only.
- The assignment to `window.location.href`, `router.back()`, `router.push('/')` and the temporary anchor element of the download: browser side effects; navigation and download are returned as values (`Navigation`, `DownloadRequest`).
- Serialising the navigation query with `URLSearchParams` and decoding it with `searchParams.get`: library behaviour; the query is the list of (key, value) pairs it carries.
- Real timers and the React effect runtime: the 4000 ms timeout is the `TimerFired` event, `clearTimeout` the clearing of the pending-timer flag, and the effect's re-run after a dependency change the `EffectRun` event; no clock is modelled.
- `lib/api/submission.ts` and `hooks/use-api.ts`: network I/O through an HTTP client that is not part of this model; the settled request is the input `Reply`.
- `constants/index.ts`, `config/env.ts`, `types/index.ts`: constants, environment lookups and type declarations with no behaviour.
- The browser's own `required` and `type="email"` checks and the `disabled={isLoading}` attributes: enforced by the browser. The handler has no re-entrancy guard, so `BeginSubmit` may be called while loading, as in the code.
- `console.error` logging of a thrown request error.
- Characters: Dafny's `char` is a Unicode scalar value while JavaScript strings are UTF-16 code units; every character `\s` matches is in the Basic Multilingual Plane, so the classification agrees, but unpaired surrogates are not representable.
- The two messages of a thrown error are modelled as strings or absent; a non-string value in those places is not modelled. `response.message` is a string, as `lib/types.ts` declares it; an absent message behaves like the empty one under `||`.
- The form page's render conditions (the error box and the busy button label) are not modelled; they only display `error` and `isLoading`.
- The header's back arrow (`router.back()`, app/pdf/page.tsx:52-58) is always rendered, so the viewer is never a dead end; it is a browser navigation and is not modelled.
