/**
 * The components wired together as the application wires them: one store,
 * the upload form bound to it, and the results page reading it.
 */
module Session {
  import opened Wrappers
  import opened JsonValue
  import opened UploadContext
  import opened FileUploader
  import opened Results

  /** A dropped video that the service analyses leads to a results page that renders and stays. */
  method UploadThenShowResults(f: CandidateFile, report: Json, url: string, backend: string) returns (page: Page)
    requires Validate(f).Accepted? && !Falsy(report) && url != ""
    ensures !page.redirectHome && page.content.Some?
    ensures page.content.value.report == report
    ensures page.content.value.downloadUrl == backend + url
  {
    var store := new UploadStore();
    var uploader := new Uploader(store);
    uploader.HandleDrop([f]);
    uploader.HandleUpload(Reply(report, url));
    assert uploader.navigatedTo == Some("/results");
    page := ResultsPage(store.jsonReport, store.videoDownloadUrl, backend);
  }

  /** A refused file is never posted; the results page then redirects and renders nothing. */
  method RejectedFileNeverPosts(f: CandidateFile, outcome: UploadOutcome, backend: string)
    returns (posted: nat, page: Page)
    requires Validate(f).Rejected?
    ensures posted == 0
    ensures page.redirectHome && page.content.None?
  {
    var store := new UploadStore();
    var uploader := new Uploader(store);
    uploader.HandleFileChange([f]);
    uploader.HandleUpload(outcome);
    posted := |uploader.requests|;
    page := ResultsPage(store.jsonReport, store.videoDownloadUrl, backend);
  }

  /**
   * A failed second upload leaves the first report on the results page and
   * records the error. The first upload navigates to `/results`, which
   * unmounts the form; coming back to `/` mounts a fresh form, with no file
   * staged, bound to the same store.
   */
  method FailureKeepsEarlierReport(
    f: CandidateFile, report: Json, url: string, g: CandidateFile, failure: UploadOutcome, backend: string)
    returns (page: Page, error: Option<string>)
    requires Validate(f).Accepted? && !Falsy(report) && url != ""
    requires Validate(g).Accepted? && !failure.Reply?
    ensures !page.redirectHome && page.content.Some? && page.content.value.report == report
    ensures error == Some(FailureMessage(failure)) && error.value != ""
  {
    var store := new UploadStore();
    var first := new Uploader(store);
    first.HandleFileChange([f]);
    first.HandleUpload(Reply(report, url));
    assert first.navigatedTo == Some("/results");
    var second := new Uploader(store);
    second.HandleFileChange([g]);
    second.HandleUpload(failure);
    page := ResultsPage(store.jsonReport, store.videoDownloadUrl, backend);
    error := store.error;
  }
}
