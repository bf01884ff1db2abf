/**
 * frontend/src/services/api.js: the one GET request to the tracking
 * endpoint (30 s timeout, no retry) and the translation of its failure into
 * the message the page shows; the carrier list with its built-in fallback.
 * The request itself is not modelled: its result is an input.
 */
module ApiClient {
  import opened Wrappers
  import opened Upstream
  import opened Models
  import TrackingApi

  /** The axios timeout of every request, in milliseconds. */
  const RequestTimeoutMs := 30000

  /** The fields of an error body the client reads: `data?.message` and `data?.detail`. */
  datatype ErrorBody = ErrorBody(message: Option<string>, detail: Option<string>)

  /** How a request failed, as axios reports it. */
  datatype RequestFailure =
    | ResponseError(status: int, data: Option<ErrorBody>)  // `error.response` is set
    | NoResponse                                          // `error.request` only: no answer, or the timeout
    | SetupFailure                                        // the request could not be made

  /** The result of one request. */
  datatype Fetch<T> = Fetched(value: T) | Failed(failure: RequestFailure)

  const NotFoundFallback := "Tracking number not found. Please verify and try again."
  const BadRequestFallback := "Invalid tracking number format."
  const ServerErrorMessage := "Server error. Please try again later."
  const OtherStatusFallback := "An unexpected error occurred."
  const NoResponseMessage := "Unable to connect to the server. Please check your connection."
  const SetupFailureMessage := "An unexpected error occurred. Please try again."

  /** `data?.message || data?.detail`, "" standing for a falsy result. */
  function BodyMessage(data: Option<ErrorBody>): (m: string)
    ensures data.Some? && data.value.message.Some? && data.value.message.value != "" ==> m == data.value.message.value
    ensures data.Some? && data.value.message.GetOr("") == "" ==> m == data.value.detail.GetOr("")
    ensures data.None? ==> m == ""
  {
    match data
    case Some(b) => Or(b.message.GetOr(""), b.detail.GetOr(""))
    case None => ""
  }

  /** The message `trackConsignment` throws for a failed request. */
  function ErrorMessage(f: RequestFailure): (m: string)
    ensures m != ""
    ensures f.ResponseError? && f.status == 500 ==> m == ServerErrorMessage
    ensures f.ResponseError? && f.status != 500 && BodyMessage(f.data) != "" ==> m == BodyMessage(f.data)
    ensures f.NoResponse? ==> m == NoResponseMessage
    ensures f.SetupFailure? ==> m == SetupFailureMessage
  {
    match f
    case ResponseError(status, data) =>
      var message := BodyMessage(data);
      if status == 404 then Or(message, NotFoundFallback)
      else if status == 400 then Or(message, BadRequestFallback)
      else if status == 500 then ServerErrorMessage
      else Or(message, OtherStatusFallback)
    case NoResponse => NoResponseMessage
    case SetupFailure => SetupFailureMessage
  }

  /** `trackConsignment`: the response data, or the message of the thrown error. */
  function TrackResult(fetch: Fetch<TrackingResponse>): (r: Result<TrackingResponse, string>)
    ensures r.Success? <==> fetch.Fetched?
    ensures r.Success? ==> r.value == fetch.value
    ensures r.Failure? ==> r.error == ErrorMessage(fetch.failure)
  {
    match fetch
    case Fetched(data) => Success(data)
    case Failed(f) => Failure(ErrorMessage(f))
  }

  /** Without a usable body the fallback for the status is shown; 500 ignores the body altogether. */
  lemma FallbackMessages(data: Option<ErrorBody>)
    requires BodyMessage(data) == ""
    ensures ErrorMessage(ResponseError(404, data)) == NotFoundFallback
    ensures ErrorMessage(ResponseError(400, data)) == BadRequestFallback
    ensures forall s :: s !in {400, 404, 500} ==> ErrorMessage(ResponseError(s, data)) == OtherStatusFallback
  {
  }

  /** `message` wins over `detail` when both are set. */
  lemma MessageBeforeDetail(status: int, message: string, detail: string)
    requires status != 500 && message != ""
    ensures ErrorMessage(ResponseError(status, Some(ErrorBody(Some(message), Some(detail))))) == message
  {
  }

  /** What the back end's exception handler sends, as the client reads it: the detail arrives as `message`, there is no `detail` key. */
  function ClientView(e: TrackingApi.HttpError): (f: RequestFailure)
    ensures f.ResponseError? && f.status == e.statusCode
  {
    var body := TrackingApi.ErrorReply(e).1;
    ResponseError(e.statusCode, Some(ErrorBody(Some(body.message), None)))
  }

  /**
   * An error the back end raises reaches the user word for word unless its
   * status is 500, which always reads "Server error…" (so an upstream 401 is
   * never explained to the user).
   */
  lemma BackendErrorShown(e: TrackingApi.HttpError)
    requires e.detail != ""
    ensures e.statusCode != 500 ==> ErrorMessage(ClientView(e)) == e.detail
    ensures e.statusCode == 500 ==> ErrorMessage(ClientView(e)) == ServerErrorMessage
  {
  }

  /** The built-in list `getSupportedCarriers` falls back on. */
  const FallbackCarriers: seq<TrackingApi.CarrierInfo> := [
    TrackingApi.CarrierInfo("india-post", "India Post", "\U{1F1EE}\U{1F1F3}"),
    TrackingApi.CarrierInfo("delhivery", "Delhivery", "\U{1F4E6}"),
    TrackingApi.CarrierInfo("bluedart", "Blue Dart", "\U{2708}\U{FE0F}"),
    TrackingApi.CarrierInfo("dtdc", "DTDC", "\U{1F69A}"),
    TrackingApi.CarrierInfo("ecom-express", "Ecom Express", "\U{1F6D2}"),
    TrackingApi.CarrierInfo("ekart", "Ekart Logistics", "\U{1F3AF}")]

  /** `getSupportedCarriers`: the list the back end sends, or the built-in list on any failure. */
  function SupportedCarriers(fetch: Fetch<seq<TrackingApi.CarrierInfo>>): (r: seq<TrackingApi.CarrierInfo>)
    ensures fetch.Failed? ==> r == FallbackCarriers
    ensures fetch.Fetched? ==> r == fetch.value
  {
    match fetch
    case Fetched(carriers) => carriers
    case Failed(_) => FallbackCarriers
  }

  /** Whether or not the request succeeds, the page offers the same carriers as the back end lists. */
  lemma CarriersAgreeWithBackend(fetch: Fetch<seq<TrackingApi.CarrierInfo>>)
    requires fetch.Fetched? ==> fetch.value == TrackingApi.CarrierList
    ensures SupportedCarriers(fetch) == TrackingApi.CarrierList
  {
  }
}
