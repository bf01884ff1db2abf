/**
 * The tracking endpoint of backend/main.py: validation of the tracking
 * number, the mapping of the two TrackingMore exchanges to an HTTP outcome,
 * the enrichment of a found record with the delay verdict and the summary,
 * the error body of the exception handler, and the fixed carrier list.
 *
 * The network is not modelled: each exchange is given as its outcome.
 */
module TrackingApi {
  import opened Wrappers
  import opened Models
  import opened Upstream
  import opened Normalize
  import opened DelayDetection

  /** The `meta` object of a TrackingMore answer. */
  datatype Meta = Meta(code: Option<int>, message: Option<string>)

  /** A TrackingMore answer body that parsed as JSON. */
  datatype Body = Body(meta: Option<Meta>, data: Option<seq<RawTracking>>)

  /** An HTTP answer: status, raw text, and the body parsed as JSON or the parser's error text. */
  datatype Reply = Reply(status: int, text: string, body: Result<Body, string>)

  /** How one request to TrackingMore ended. */
  datatype Exchange = TimedOut | ConnectFailed(reason: string) | Replied(reply: Reply)

  /** The `HTTPException` the endpoint raises. */
  datatype HttpError = HttpError(statusCode: int, detail: string)

  datatype Outcome = Tracked(response: TrackingResponse) | Rejected(error: HttpError)

  const MinTrackingNumberLength := 8
  const InvalidFormat := HttpError(400, "Invalid tracking number format")
  const UpstreamTimeout := HttpError(504, "Tracking service timeout. Please try again.")
  const AuthFailed := HttpError(500, "API authentication failed")
  const NumberNotFound := HttpError(404, "Tracking number not found")
  const NoDataYet := HttpError(404, "No tracking data available yet. " + "The carrier may still be processing this shipment.")

  /** `data.get("meta", {}).get("code")`. */
  function MetaCode(b: Body): Option<int> {
    match b.meta
    case Some(m) => m.code
    case None => None
  }

  /** `data.get("meta", {}).get("message", "Unknown error")`: the default applies only when the key is absent. */
  function MetaMessage(b: Body): string {
    match b.meta
    case Some(m) => m.message.GetOr("Unknown error")
    case None => "Unknown error"
  }

  /** `data.get("data")` is truthy: a non-empty list. */
  predicate HasData(b: Body) {
    b.data.Some? && b.data.value != []
  }

  /** The answer to the GET request, once it has arrived. */
  function ReplyOutcome(reply: Reply): Result<RawTracking, HttpError> {
    if reply.status == 200 then
      match reply.body
      case Failure(msg) => Failure(HttpError(500, "Internal server error: " + msg))
      case Success(b) =>
        if MetaCode(b) == Some(200) && HasData(b) then
          var trackingList := b.data.value;
          if |trackingList| > 0 then Success(trackingList[0]) else Failure(NoDataYet)
        else Failure(HttpError(404, "Tracking information not found: " + MetaMessage(b)))
    else if reply.status == 401 then Failure(AuthFailed)
    else if reply.status == 404 then Failure(NumberNotFound)
    else Failure(HttpError(reply.status, "External API error: " + reply.text))
  }

  function TransportFailure(x: Exchange): HttpError
    requires !x.Replied?
  {
    if x.TimedOut? then UpstreamTimeout else HttpError(503, "Unable to connect to tracking service: " + x.reason)
  }

  /**
   * The record to normalise, or the error to raise, given how the create
   * request and the GET request ended.  The create answer itself is ignored;
   * only its failing to arrive matters.
   */
  function UpstreamOutcome(create: Exchange, get: Exchange): Result<RawTracking, HttpError> {
    if !create.Replied? then Failure(TransportFailure(create))
    else if !get.Replied? then Failure(TransportFailure(get))
    else ReplyOutcome(get.reply)
  }

  /**
   * `track_consignment`: reject a short number before any request, otherwise
   * map the exchanges to an error or normalise the first record and add the
   * delay verdict, as `detect_delay` yields it for the event models it is
   * handed (`DelayVerdictAsCalled`), and the summary built on that verdict.  `hours` is the clock reading against the
   * record's last update, `parse` the timestamp reader of the event sort.
   */
  method TrackConsignment(trackingNumber: string, create: Exchange, get: Exchange,
                          parse: string -> Option<nat>, hours: Option<int>) returns (o: Outcome)
    ensures |trackingNumber| < MinTrackingNumberLength ==> o == Rejected(InvalidFormat)
    ensures |trackingNumber| >= MinTrackingNumberLength ==>
      (o.Tracked? <==> UpstreamOutcome(create, get).Success?)
    ensures |trackingNumber| >= MinTrackingNumberLength && o.Rejected? ==>
      o.error == UpstreamOutcome(create, get).error
    ensures o.Tracked? ==>
      var raw := UpstreamOutcome(create, get).value;
      var r := o.response;
      r.trackingNumber == trackingNumber && r.carrier == "India Post"
      && r.status == FriendlyStatus(RawStatus(raw))
      && r.events == ArrangeEvents(EventsFrom(TrackInfo(raw)), parse)
      && r.origin == OriginOf(raw.originInfo, r.events)
      && r.destination == DestinationOf(raw.destinationInfo, r.status, r.events)
      && r.lastUpdated == LastUpdated(raw)
      && r.delayInfo == Some(DelayVerdictAsCalled(raw, r.events, hours))
      && r.smartSummary == Some(SmartSummary(raw, r.events, DelayVerdictAsCalled(raw, r.events, hours)))
  {
    if |trackingNumber| < MinTrackingNumberLength {
      return Rejected(InvalidFormat);
    }
    var upstream := UpstreamOutcome(create, get);
    if upstream.Failure? {
      return Rejected(upstream.error);
    }
    var raw := upstream.value;
    var normalized := NormalizeTrackingData(trackingNumber, raw, parse);
    var delayInfo := DetectDelay(raw, normalized.events, hours, true);  // main.py:190 passes the models
    var smartSummary := SmartSummary(raw, normalized.events, delayInfo);
    o := Tracked(normalized.(delayInfo := Some(delayInfo), smartSummary := Some(smartSummary)));
  }

  /** A record is normalised exactly when both requests were answered and the GET answer is a 200 whose meta code is 200 and whose data list is non-empty. */
  lemma SuccessExactly(create: Exchange, get: Exchange)
    ensures UpstreamOutcome(create, get).Success? <==>
      create.Replied? && get.Replied? && get.reply.status == 200 && get.reply.body.Success?
      && MetaCode(get.reply.body.value) == Some(200) && HasData(get.reply.body.value)
    ensures UpstreamOutcome(create, get).Success? ==>
      UpstreamOutcome(create, get).value == get.reply.body.value.data.value[0]
  {
  }

  /** The "no tracking data available yet" error can never be raised: the branch before it already requires a non-empty list. */
  lemma NoDataYetUnreachable(create: Exchange, get: Exchange)
    ensures UpstreamOutcome(create, get) != Failure(NoDataYet)
  {
    if create.Replied? && get.Replied? && get.reply.status == 200 && get.reply.body.Success? {
      var b := get.reply.body.value;
      var detail := "Tracking information not found: " + MetaMessage(b);
      assert detail[0] == 'T';
      assert NoDataYet.detail[0] == 'N';
    }
  }

  /** Status codes of the upstream GET answer and the status the endpoint answers with. */
  lemma ErrorStatusMapping(create: Exchange, reply: Reply)
    requires create.Replied?
    ensures var o := UpstreamOutcome(create, Replied(reply));
      (reply.status == 401 ==> o == Failure(HttpError(500, "API authentication failed")))
      && (reply.status == 404 ==> o == Failure(HttpError(404, "Tracking number not found")))
      && (reply.status !in {200, 401, 404} ==> o.Failure? && o.error.statusCode == reply.status)
      && (reply.status == 200 && reply.body.Success? && !(MetaCode(reply.body.value) == Some(200) && HasData(reply.body.value))
          ==> o.Failure? && o.error.statusCode == 404)
  {
  }

  /** A request that times out gives 504 and one that cannot connect gives 503, whichever of the two requests it hits. */
  lemma TransportErrors(create: Exchange, get: Exchange)
    requires create.TimedOut? || (create.Replied? && get.TimedOut?)
    ensures UpstreamOutcome(create, get) == Failure(HttpError(504, "Tracking service timeout. Please try again."))
  {
  }

  lemma ConnectErrors(create: Exchange, get: Exchange)
    requires create.ConnectFailed? || (create.Replied? && get.ConnectFailed?)
    ensures UpstreamOutcome(create, get).Failure?
    ensures UpstreamOutcome(create, get).error.statusCode == 503
  {
  }

  /** The body of `http_exception_handler`: always an error flag, the detail as message and no tracking number. */
  function ErrorReply(e: HttpError): (reply: (int, ErrorResponse))
    ensures reply.0 == e.statusCode
    ensures reply.1.error && reply.1.message == e.detail && reply.1.trackingNumber.None?
  {
    (e.statusCode, ErrorResponse(e.detail))
  }

  /** One entry of the `/api/carriers` list. */
  datatype CarrierInfo = CarrierInfo(code: string, name: string, icon: string)

  const CarrierList: seq<CarrierInfo> := [
    CarrierInfo("india-post", "India Post", "\U{1F1EE}\U{1F1F3}"),
    CarrierInfo("delhivery", "Delhivery", "\U{1F4E6}"),
    CarrierInfo("bluedart", "Blue Dart", "\U{2708}\U{FE0F}"),
    CarrierInfo("dtdc", "DTDC", "\U{1F69A}"),
    CarrierInfo("ecom-express", "Ecom Express", "\U{1F6D2}"),
    CarrierInfo("ekart", "Ekart Logistics", "\U{1F3AF}")]

  /** The codes the `/api/carriers` endpoint lists, in order. */
  function CarrierCodes(list: seq<CarrierInfo>): (codes: seq<string>)
    ensures |codes| == |list|
    ensures forall i :: 0 <= i < |list| ==> codes[i] == list[i].code
  {
    if list == [] then [] else [list[0].code] + CarrierCodes(list[1..])
  }
}
