/**
 * The upload form: the gate a picked or dropped file must pass before it is
 * staged, and the upload handler that drives the session store around the
 * POST to the analysis service.
 */
module FileUploader {
  import opened Wrappers
  import opened JsonValue
  import opened UploadContext

  /** A file the user picked or dropped: its declared MIME type and its size in bytes. */
  datatype CandidateFile = CandidateFile(name: string, mediaType: string, size: nat)

  /** The size limit: 100 MiB. */
  const MaxSize: nat := 100 * 1024 * 1024

  const NotAVideoMessage: string := "Please upload a video file"
  const TooLargeMessage: string := "File size exceeds 100MB limit"
  const NoFileMessage: string := "Please select a video file first"
  const ServerErrorMessage: string := "Server error. Please try again later."
  const UnexpectedErrorMessage: string := "An unexpected error occurred during upload"

  /** The outcome of `validateFile`: accepted, or the error toast it raises. */
  datatype Validation = Accepted | Rejected(message: string)

  /** `type.startsWith('video/')` */
  predicate IsVideoType(mediaType: string) {
    "video/" <= mediaType
  }

  /** `validateFile`: the type is checked first, then the size. */
  function Validate(f: CandidateFile): Validation {
    if !IsVideoType(f.mediaType) then Rejected(NotAVideoMessage)
    else if f.size > MaxSize then Rejected(TooLargeMessage)
    else Accepted
  }

  /** A file whose type does not start with `video/` is refused for its type, whatever its size. */
  lemma NonVideoRejected(f: CandidateFile)
    requires !IsVideoType(f.mediaType)
    ensures Validate(f) == Rejected("Please upload a video file")
  {
  }

  /** A video file is accepted exactly when it is at most 104,857,600 bytes, and refused for its size otherwise. */
  lemma VideoSizeLimit(f: CandidateFile)
    requires IsVideoType(f.mediaType)
    ensures Validate(f).Accepted? <==> f.size <= 104857600
    ensures Validate(f).Rejected? ==> Validate(f).message == "File size exceeds 100MB limit"
  {
  }

  /** Exactly 100 MiB passes, one byte more does not; an oversize non-video reports only the type. */
  lemma SizeBoundary(name: string, mediaType: string)
    ensures Validate(CandidateFile(name, "video/mp4", 104857600)) == Accepted
    ensures Validate(CandidateFile(name, "video/mp4", 104857601)) == Rejected("File size exceeds 100MB limit")
    ensures !IsVideoType(mediaType) ==>
              Validate(CandidateFile(name, mediaType, 104857601)) == Rejected("Please upload a video file")
  {
  }

  /** What the POST to `/upload-video` came back with. */
  datatype UploadOutcome =
    | Reply(report: Json, downloadUrl: string)  // `response.data.json_report`, `.video_download_url`
    | AxiosError(message: Option<string>)       // `error.response?.data?.message`
    | OtherError                                // anything else that was thrown

  /** The message shown and stored after a failed upload. */
  function FailureMessage(outcome: UploadOutcome): (message: string)
    requires !outcome.Reply?
    ensures message != ""
    ensures outcome.AxiosError? && outcome.message.Some? && outcome.message.value != "" ==>
              message == outcome.message.value
    ensures outcome.AxiosError? && (outcome.message.None? || outcome.message.value == "") ==>
              message == "Server error. Please try again later."
    ensures outcome.OtherError? ==> message == "An unexpected error occurred during upload"
  {
    match outcome
    case AxiosError(m) =>
      if m.Some? && m.value != "" then m.value else ServerErrorMessage
    case OtherError => UnexpectedErrorMessage
  }

  /** The multipart form `handleUpload` posts: the file under the single field `video`. */
  function UploadForm(f: CandidateFile): seq<(string, CandidateFile)> {
    [("video", f)]
  }

  /** The upload form component, bound to the store of its provider. */
  class Uploader {
    /** The staged file (`useState(null)`). */
    var file: Option<CandidateFile>
    /** The store `useUpload()` returned. */
    const store: UploadStore
    /** The error toasts raised so far, oldest first. */
    var toasts: seq<string>
    /** The forms posted to `/upload-video` so far, oldest first. */
    var requests: seq<seq<(string, CandidateFile)>>
    /** The route navigated to, if any. */
    var navigatedTo: Option<string>

    constructor (store: UploadStore)
      ensures this.store == store
      ensures file == None && toasts == [] && requests == [] && navigatedTo == None
    {
      this.store := store;
      file := None;
      toasts := [];
      requests := [];
      navigatedTo := None;
    }

    /** Stage the first of `files` if it validates; otherwise toast why and keep the staged file. */
    method StageFirst(files: seq<CandidateFile>)
      modifies this
      ensures |files| > 0 && Validate(files[0]).Accepted? ==> file == Some(files[0])
      ensures !(|files| > 0 && Validate(files[0]).Accepted?) ==> file == old(file)
      ensures toasts == if |files| > 0 && Validate(files[0]).Rejected?
                        then old(toasts) + [Validate(files[0]).message] else old(toasts)
      ensures requests == old(requests) && navigatedTo == old(navigatedTo)
    {
      if |files| > 0 {
        var selected := files[0];
        var verdict := Validate(selected);
        if verdict.Accepted? {
          file := Some(selected);
        } else {
          toasts := toasts + [verdict.message];
        }
      }
    }

    /** `handleFileChange`: the files chosen in the picker. */
    method HandleFileChange(files: seq<CandidateFile>)
      modifies this
      ensures |files| > 0 && Validate(files[0]).Accepted? ==> file == Some(files[0])
      ensures !(|files| > 0 && Validate(files[0]).Accepted?) ==> file == old(file)
      ensures toasts == if |files| > 0 && Validate(files[0]).Rejected?
                        then old(toasts) + [Validate(files[0]).message] else old(toasts)
      ensures requests == old(requests) && navigatedTo == old(navigatedTo)
    {
      StageFirst(files);
    }

    /** `handleDrop`: the files dropped on the drop zone. */
    method HandleDrop(files: seq<CandidateFile>)
      modifies this
      ensures |files| > 0 && Validate(files[0]).Accepted? ==> file == Some(files[0])
      ensures !(|files| > 0 && Validate(files[0]).Accepted?) ==> file == old(file)
      ensures toasts == if |files| > 0 && Validate(files[0]).Rejected?
                        then old(toasts) + [Validate(files[0]).message] else old(toasts)
      ensures requests == old(requests) && navigatedTo == old(navigatedTo)
    {
      StageFirst(files);
    }

    /**
     * `handleUpload` up to the awaited POST: with no staged file, toast and
     * stop; otherwise mark the store loading, clear its error and post the
     * form.
     */
    method StartUpload() returns (form: Option<seq<(string, CandidateFile)>>)
      modifies this, store
      ensures file == old(file) && navigatedTo == old(navigatedTo)
      ensures old(file).None? ==>
                && form == None
                && toasts == old(toasts) + ["Please select a video file first"]
                && requests == old(requests)
                && store.State() == old(store.State())
      ensures old(file).Some? ==>
                && form == Some([("video", old(file).value)])
                && toasts == old(toasts)
                && requests == old(requests) + [form.value]
                && store.State() == old(store.State()).(isLoading := true, error := None)
    {
      if file.None? {
        toasts := toasts + [NoFileMessage];
        return None;
      }
      store.SetIsLoading(true);
      store.SetError(None);
      var f := UploadForm(file.value);
      requests := requests + [f];
      form := Some(f);
    }

    /**
     * `handleUpload` after the POST settled: publish the report and the
     * download URL and go to `/results`, or stop loading and record the
     * error; a failure leaves the published report and URL as they were.
     */
    method SettleUpload(outcome: UploadOutcome)
      modifies this, store
      ensures file == old(file) && requests == old(requests)
      ensures outcome.Reply? ==>
                && store.State() == old(store.State()).(jsonReport := outcome.report,
                                                        videoDownloadUrl := outcome.downloadUrl,
                                                        isLoading := false)
                && navigatedTo == Some("/results")
                && toasts == old(toasts)
      ensures !outcome.Reply? ==>
                && store.State() == old(store.State()).(isLoading := false,
                                                        error := Some(FailureMessage(outcome)))
                && navigatedTo == old(navigatedTo)
                && toasts == old(toasts) + [FailureMessage(outcome)]
    {
      match outcome
      case Reply(report, url) =>
        store.SetJsonReport(report);
        store.SetVideoDownloadUrl(url);
        store.SetIsLoading(false);
        navigatedTo := Some("/results");
      case _ =>
        store.SetIsLoading(false);
        var message := FailureMessage(outcome);
        toasts := toasts + [message];
        store.SetError(Some(message));
    }

    /** `handleUpload`, with the POST answered by `outcome`. */
    method HandleUpload(outcome: UploadOutcome)
      modifies this, store
      ensures file == old(file)
      ensures old(file).None? ==>
                && toasts == old(toasts) + ["Please select a video file first"]
                && requests == old(requests)
                && store.State() == old(store.State())
                && navigatedTo == old(navigatedTo)
      ensures old(file).Some? ==> requests == old(requests) + [[("video", old(file).value)]]
      ensures old(file).Some? && outcome.Reply? ==>
                && store.State() == StoreState(outcome.report, outcome.downloadUrl, false, None)
                && navigatedTo == Some("/results")
                && toasts == old(toasts)
      ensures old(file).Some? && !outcome.Reply? ==>
                && store.State() == old(store.State()).(isLoading := false,
                                                        error := Some(FailureMessage(outcome)))
                && navigatedTo == old(navigatedTo)
                && toasts == old(toasts) + [FailureMessage(outcome)]
    {
      var form := StartUpload();
      if form.Some? {
        SettleUpload(outcome);
      }
    }
  }
}
