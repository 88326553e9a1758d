/**
 * The session store shared by the upload form and the results page: four
 * independent fields, each replaced by its own setter, and the guard that
 * refuses access from outside a provider.
 */
module UploadContext {
  import opened Wrappers
  import opened JsonValue

  /** The values of the store's four fields at one moment. */
  datatype StoreState = StoreState(
    jsonReport: Json,
    videoDownloadUrl: string,
    isLoading: bool,
    error: Option<string>)

  /** The state an `UploadProvider` starts in. */
  const InitialState: StoreState := StoreState(JNull, "", false, None)

  /** The store held by an `UploadProvider`. */
  class UploadStore {
    var jsonReport: Json
    var videoDownloadUrl: string
    var isLoading: bool
    var error: Option<string>

    /** The current values of the four fields. */
    function State(): StoreState
      reads this
    {
      StoreState(jsonReport, videoDownloadUrl, isLoading, error)
    }

    /** The four `useState` calls with their initial values. */
    constructor ()
      ensures State() == InitialState
      ensures jsonReport == JNull && videoDownloadUrl == ""
      ensures !isLoading && error == None
    {
      jsonReport := JNull;
      videoDownloadUrl := "";
      isLoading := false;
      error := None;
    }

    method SetJsonReport(report: Json)
      modifies this
      ensures State() == old(State()).(jsonReport := report)
    {
      jsonReport := report;
    }

    method SetVideoDownloadUrl(url: string)
      modifies this
      ensures State() == old(State()).(videoDownloadUrl := url)
    {
      videoDownloadUrl := url;
    }

    method SetIsLoading(loading: bool)
      modifies this
      ensures State() == old(State()).(isLoading := loading)
    {
      isLoading := loading;
    }

    method SetError(message: Option<string>)
      modifies this
      ensures State() == old(State()).(error := message)
    {
      error := message;
    }
  }

  /** The message `useUpload` throws outside a provider. */
  const OutsideProviderMessage: string := "useUpload must be used within an UploadProvider"

  /**
   * `useUpload`: the nearest provider's store, or the error it throws when
   * there is none (`context` is `None` outside every provider).
   */
  function UseUpload(context: Option<UploadStore>): (r: Result<UploadStore, string>)
    ensures r.Failure? <==> context.None?
    ensures r.Failure? ==> r.error == "useUpload must be used within an UploadProvider"
    ensures r.Success? ==> r.value == context.value
  {
    match context
    case None => Failure(OutsideProviderMessage)
    case Some(store) => Success(store)
  }
}
