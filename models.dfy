/**
 * The response records of the DakDash API (backend/models.py).  Fields the
 * Pydantic models mark as required are plain constructor parameters; fields
 * with a default carry that default here.
 */
module Models {
  import opened Wrappers

  /** One entry of the shipment timeline. */
  datatype TrackingEvent = TrackingEvent(location: string, status: string, timestamp: string)

  /** The dictionary `detect_delay` builds and the response carries as `delay_info`. */
  datatype DelayInfo = DelayInfo(status: string, severity: string, message: string, hoursSinceUpdate: int)

  /** The normalised tracking answer sent to the front end. */
  datatype TrackingResponse = TrackingResponse(
    trackingNumber: string,
    status: string,
    lastUpdated: string,
    nameonly carrier: string := "India Post",
    nameonly origin: string := "",
    nameonly destination: string := "",
    nameonly events: seq<TrackingEvent> := [],
    nameonly delayInfo: Option<DelayInfo> := None,
    nameonly smartSummary: Option<string> := None)

  /** The error body of the API. */
  datatype ErrorResponse = ErrorResponse(
    message: string,
    nameonly error: bool := true,
    nameonly trackingNumber: Option<string> := None)

  /**
   * A response built from its three required fields alone takes the declared
   * defaults for everything else.
   */
  lemma ResponseDefaults(trackingNumber: string, status: string, lastUpdated: string)
    ensures var r := TrackingResponse(trackingNumber, status, lastUpdated);
      r.trackingNumber == trackingNumber && r.status == status && r.lastUpdated == lastUpdated
      && r.carrier == "India Post" && r.origin == "" && r.destination == ""
      && r.events == [] && r.delayInfo.None? && r.smartSummary.None?
  {
  }

  /** An error body built from its message alone is flagged as an error and names no tracking number. */
  lemma ErrorResponseDefaults(message: string)
    ensures var e := ErrorResponse(message);
      e.message == message && e.error && e.trackingNumber.None?
  {
  }
}
