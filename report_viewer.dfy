/**
 * The report viewer (app/pdf/page.tsx): the two query values it reads, the
 * download it offers, and its page state (`error`, the success banner and the
 * banner's pending timer) as a state machine driven by the events the page
 * reacts to. The React runtime is reduced to one rule: when the banner flag
 * changes, the effect's cleanup cancels the pending timer, and the effect
 * itself runs again as a separate EffectRun event.
 */
module ReportViewer {
  import opened Wrappers
  import opened Text
  import opened QueryParams
  import DownloadName

  const NoUrlMessage := "No PDF URL provided"
  const LoadFailedMessage := "Failed to load PDF. Please try downloading it instead."
  const DefaultProduct := "Report"

  /** The shown product name: the `product` value, or "Report" when it is
      absent or empty. */
  function ProductName(product: Option<string>): (r: string)
    ensures r != ""
    ensures Truthy(product) ==> r == product.value
    ensures !Truthy(product) ==> r == DefaultProduct
  {
    Or(product, DefaultProduct)
  }

  /** A browser download of `href` saved under `fileName`. */
  datatype DownloadRequest = DownloadRequest(href: string, fileName: string)

  /** The page state: the error message (null until something fails), whether
      the success banner is shown, and whether its 4000 ms timer is pending. */
  datatype ViewerState = ViewerState(error: Option<string>, showBanner: bool, timerPending: bool)

  /** The events the page reacts to. EffectRun is the effect running after a
      render whose dependencies changed (and on the first render). */
  datatype Event = EffectRun | TimerFired | Dismiss | PdfLoadError | DownloadClicked

  /** The state of a freshly mounted page. */
  function Initial(): ViewerState {
    ViewerState(None, true, false)
  }

  /** A timer is only pending while the banner is shown. */
  predicate Inv(s: ViewerState) {
    s.timerPending ==> s.showBanner
  }

  /** One event. The error is never set back to null, the banner never comes
      back, and a pending timer always belongs to a shown banner. */
  function Next(urlPresent: bool, s: ViewerState, e: Event): (t: ViewerState)
    ensures s.error.Some? ==> t.error.Some?
    ensures !s.showBanner ==> !t.showBanner
    ensures Inv(s) ==> Inv(t)
  {
    match e
    case EffectRun =>
      // the cleanup cancels the previous timer; a new one is set while the banner shows
      ViewerState(if urlPresent then s.error else Some(NoUrlMessage), s.showBanner, s.showBanner)
    case TimerFired =>
      if s.timerPending then ViewerState(s.error, false, false) else s
    case Dismiss =>
      ViewerState(s.error, false, false)
    case PdfLoadError =>
      s.(error := Some(LoadFailedMessage))
    case DownloadClicked =>
      s
  }

  /** A sequence of events, oldest first. */
  function Run(urlPresent: bool, s: ViewerState, events: seq<Event>): ViewerState
    decreases |events|
  {
    if events == [] then s else Run(urlPresent, Next(urlPresent, s, events[0]), events[1..])
  }

  /** What the page shows: the header download button, the banner, the error
      panel with its message, the error panel's Download and Go Back buttons,
      and the embedded document. */
  datatype Screen = Screen(headerDownload: bool, banner: bool, errorPanel: Option<string>,
                           errorActions: bool, iframe: bool)

  function Render(urlPresent: bool, s: ViewerState): (v: Screen)
    ensures Truthy(s.error) ==> v.errorPanel == s.error && !v.iframe
    ensures !Truthy(s.error) ==> v.errorPanel.None?
    ensures v.iframe <==> urlPresent && !Truthy(s.error)
    ensures v.headerDownload <==> urlPresent
    ensures v.errorActions <==> urlPresent && Truthy(s.error)
    ensures v.banner == s.showBanner
  {
    var failed := Truthy(s.error);
    Screen(urlPresent, s.showBanner, if failed then s.error else None,
           failed && urlPresent, !failed && urlPresent)
  }

  /** The events the page can receive in a state: the timer fires only while
      pending, the close button and the embed exist only while rendered, and a
      download needs one of the two download buttons. */
  predicate Enabled(urlPresent: bool, s: ViewerState, e: Event)
    ensures e == TimerFired ==> (Enabled(urlPresent, s, e) <==> s.timerPending)
    ensures e == Dismiss ==> (Enabled(urlPresent, s, e) <==> s.showBanner)
    ensures e == PdfLoadError ==> (Enabled(urlPresent, s, e) <==> urlPresent && !Truthy(s.error))
    ensures e == DownloadClicked ==> (Enabled(urlPresent, s, e) <==> urlPresent)
  {
    var v := Render(urlPresent, s);
    match e
    case EffectRun => true
    case TimerFired => s.timerPending
    case Dismiss => v.banner
    case PdfLoadError => v.iframe
    case DownloadClicked => v.headerDownload || v.errorActions
  }

  /** Every event of the sequence is one the page can receive when it happens. */
  predicate Feasible(urlPresent: bool, s: ViewerState, events: seq<Event>)
    decreases |events|
  {
    events == [] ||
    (Enabled(urlPresent, s, events[0]) && Feasible(urlPresent, Next(urlPresent, s, events[0]), events[1..]))
  }

  /** Over any sequence of events the error, once set, stays set; the banner,
      once hidden, stays hidden; and no timer is pending without the banner. */
  lemma {:induction false} RunIsMonotone(urlPresent: bool, s: ViewerState, events: seq<Event>)
    ensures s.error.Some? ==> Run(urlPresent, s, events).error.Some?
    ensures !s.showBanner ==> !Run(urlPresent, s, events).showBanner
    ensures Inv(s) ==> Inv(Run(urlPresent, s, events))
    decreases |events|
  {
    if events != [] {
      RunIsMonotone(urlPresent, Next(urlPresent, s, events[0]), events[1..]);
    }
  }

  /** Without a URL the first effect reports it, and whatever the page then
      receives, the report stays, no document is embedded and no download or
      Go Back button is offered. */
  lemma {:induction false} MissingUrlIsReported(events: seq<Event>)
    requires Feasible(false, Next(false, Initial(), EffectRun), events)
    ensures var t := Run(false, Initial(), [EffectRun] + events);
      t.error == Some(NoUrlMessage) &&
      Render(false, t) == Screen(false, t.showBanner, Some(NoUrlMessage), false, false)
  {
    assert ([EffectRun] + events)[1..] == events;
    MissingUrlStays(Next(false, Initial(), EffectRun), events);
  }

  lemma {:induction false} MissingUrlStays(s: ViewerState, events: seq<Event>)
    requires s.error == Some(NoUrlMessage)
    requires Feasible(false, s, events)
    ensures Run(false, s, events).error == Some(NoUrlMessage)
    decreases |events|
  {
    if events != [] {
      MissingUrlStays(Next(false, s, events[0]), events[1..]);
    }
  }

  /** A failed embed replaces the document by the error panel, which offers
      the download and the way back when there is a URL. */
  lemma LoadErrorShowsPanel(urlPresent: bool, s: ViewerState)
    ensures var v := Render(urlPresent, Next(urlPresent, s, PdfLoadError));
      v.errorPanel == Some(LoadFailedMessage) && !v.iframe && v.errorActions == urlPresent
  {
  }

  /** Mounting runs the effect, which schedules the timer; when it fires the
      banner is gone. Closing the banner hides it at once, from any state,
      and closing it again changes nothing. */
  lemma BannerLifetime(urlPresent: bool, s: ViewerState)
    ensures Next(urlPresent, Initial(), EffectRun).timerPending
    ensures !Run(urlPresent, Initial(), [EffectRun, TimerFired]).showBanner
    ensures !Next(urlPresent, s, Dismiss).showBanner
    ensures Next(urlPresent, Next(urlPresent, s, Dismiss), Dismiss) == Next(urlPresent, s, Dismiss)
  {
    assert [EffectRun, TimerFired][1..] == [TimerFired];
  }

  /** The page component with its query values and its React state. */
  class Viewer {
    const pdfUrl: Option<string>
    const productName: string
    var error: Option<string>
    var showDownloadAnimation: bool
    var timerPending: bool

    function State(): ViewerState
      reads this
    {
      ViewerState(error, showDownloadAnimation, timerPending)
    }

    predicate UrlPresent() {
      Truthy(pdfUrl)
    }

    ghost predicate Valid()
      reads this
    {
      Inv(State())
    }

    /** Reads `url` and `product` from the query and starts with no error and
        the banner shown. */
    constructor (query: Query)
      ensures pdfUrl == Get(query, "url")
      ensures productName == ProductName(Get(query, "product"))
      ensures State() == Initial() && Valid()
    {
      pdfUrl := Get(query, "url");
      productName := ProductName(Get(query, "product"));
      error, showDownloadAnimation, timerPending := None, true, false;
    }

    /** The effect: report a missing URL, and (re)arm the banner timer while
        the banner shows. */
    method RunEffect()
      requires Valid()
      modifies this
      ensures Valid()
      ensures State() == Next(UrlPresent(), old(State()), EffectRun)
    {
      if !UrlPresent() {
        error := Some(NoUrlMessage);
      }
      timerPending := showDownloadAnimation;
    }

    /** The 4000 ms timeout callback. */
    method FireTimer()
      requires Valid()
      modifies this
      ensures Valid()
      ensures State() == Next(UrlPresent(), old(State()), TimerFired)
    {
      if timerPending {
        showDownloadAnimation := false;
        timerPending := false;
      }
    }

    /** The banner's close button. */
    method DismissBanner()
      requires Valid()
      modifies this
      ensures Valid()
      ensures State() == Next(UrlPresent(), old(State()), Dismiss)
    {
      showDownloadAnimation := false;
      timerPending := false;
    }

    /** handlePdfError, the embed's error handler. */
    method HandlePdfError()
      requires Valid()
      modifies this
      ensures Valid()
      ensures State() == Next(UrlPresent(), old(State()), PdfLoadError)
    {
      error := Some(LoadFailedMessage);
    }

    /** handleDownload: the download it starts, if any; the page state is
        left alone. */
    method HandleDownload() returns (request: Option<DownloadRequest>)
      ensures request.Some? <==> UrlPresent()
      ensures request.Some? ==>
        request.value.href == pdfUrl.value && request.value.fileName == DownloadName.FileName(productName)
      ensures request.Some? ==> NoSpace(request.value.fileName)
    {
      request := None;
      if UrlPresent() {
        request := Some(DownloadRequest(pdfUrl.value, DownloadName.FileName(productName)));
      }
    }
  }
}
