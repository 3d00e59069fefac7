/**
 * The hand-over from the submission form to the report viewer: the only
 * thing the two pages share is the query of the navigation.
 */
module SubmitToViewer {
  import opened Wrappers
  import opened Text
  import opened QueryParams
  import opened ApiTypes
  import SubmitForm
  import ReportViewer
  import DownloadName
  import EmailPattern

  /** A successful reply opens the viewer on the reply's document URL, under
      the reply's product name or "Report" when that is empty; the viewer
      reports a missing URL exactly when the backend sent an empty one. */
  lemma NavigationOpensReport(response: SubmissionResponse)
    requires response.success && response.data.Some?
    ensures var nav := SubmitForm.Settle(Responded(response));
      var d := response.data.value;
      nav.Navigate? && nav.to.route == SubmitForm.ViewerRoute &&
      Get(nav.to.query, "url") == Some(d.pdfUrl) &&
      (Truthy(Get(nav.to.query, "url")) <==> d.pdfUrl != "") &&
      ReportViewer.ProductName(Get(nav.to.query, "product")) ==
        (if d.productName != "" then d.productName else SubmitForm.DefaultProduct)
  {
  }

  /** The worked validation examples: a missing batch number, an address
      without '@', and a well-formed address. */
  lemma ValidationExamples()
    ensures SubmitForm.Validate("a@b.com", "") == Some(SubmitForm.FillAllFields)
    ensures SubmitForm.Validate("not-an-email", "B1") == Some(SubmitForm.InvalidEmail)
    ensures SubmitForm.Validate("a@b.com", "B1").None?
  {
    var bad := "not-an-email";
    assert forall i :: 0 <= i < |bad| ==> bad[i] != '@';
    EmailPattern.PatternCharacterisation(bad);
    assert EmailPattern.MatchesAt("a@b.com", 1, 3) by {
      assert "a@b.com"[..1] == "a" && "a@b.com"[2..3] == "b" && "a@b.com"[4..] == "com";
    }
  }

  /** The worked reply examples: a success, a business rejection and a bare
      transport error. */
  lemma SettleExamples()
    ensures SubmitForm.Settle(Responded(SubmissionResponse(true, "",
              Some(ReportData("https://x/y.pdf", "Widget", "t"))))) ==
            SubmitForm.Navigate(SubmitForm.Navigation("/pdf", [("url", "https://x/y.pdf"), ("product", "Widget")]))
    ensures SubmitForm.Settle(Responded(SubmissionResponse(false, "Batch not found", None))) ==
            SubmitForm.Show("Batch not found")
    ensures SubmitForm.Settle(Threw(RequestError(None, None))) == SubmitForm.Show(SubmitForm.SomethingWentWrong)
  {
  }

  /** Opening the viewer on a URL and "Acme Co" and pressing download asks
      for "Acme_Co_Report.pdf". */
  method ViewerExample() returns (request: Option<ReportViewer.DownloadRequest>)
    ensures request == Some(ReportViewer.DownloadRequest("https://x/y.pdf", "Acme_Co_Report.pdf"))
  {
    var v := new ReportViewer.Viewer([("url", "https://x/y.pdf"), ("product", "Acme Co")]);
    v.RunEffect();
    assert v.error.None?;
    request := v.HandleDownload();
    DownloadName.FileNameExample();
    assert request == Some(ReportViewer.DownloadRequest("https://x/y.pdf", "Acme_Co_Report.pdf"));
  }
}
