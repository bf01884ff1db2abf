/**
 * The shape of a TrackingMore tracking record as backend/main.py and
 * backend/carriers.py read it, and the status table both of them apply.
 * Each dictionary key the code reads is an optional string: `None` is a key
 * that is absent, `Some("")` a key that is present but empty.
 */
module Upstream {
  import opened Wrappers
  import opened Text

  /** One entry of `origin_info.trackinfo`. */
  datatype RawEvent = RawEvent(
    trackingDetail: Option<string>,     // "tracking_detail"
    details: Option<string>,            // "Details"
    checkpointStatus: Option<string>,   // "checkpoint_status"
    statusDescription: Option<string>,  // "StatusDescription"
    checkpointDate: Option<string>,     // "checkpoint_date"
    date: Option<string>,               // "Date"
    location: Option<string>)           // "location"

  datatype OriginInfo = OriginInfo(
    trackinfo: Option<seq<RawEvent>>,
    countryName: Option<string>,
    postalCode: Option<string>)

  datatype DestinationInfo = DestinationInfo(
    recipientCity: Option<string>,
    recipientState: Option<string>,
    recipientPostal: Option<string>,
    recipientAddress: Option<string>)

  /** One element of the `data` list of a TrackingMore answer. */
  datatype RawTracking = RawTracking(
    deliveryStatus: Option<string>,        // "delivery_status"
    substatus: Option<string>,             // "substatus"
    originInfo: Option<OriginInfo>,        // "origin_info"
    destinationInfo: Option<DestinationInfo>,
    updateDate: Option<string>,            // "update_date"
    updatedAt: Option<string>,             // "updated_at"
    updateAt: Option<string>,              // "update_at"
    latestCheckpointTime: Option<string>)  // "latest_checkpoint_time"

  /** Python `a or b` on two strings: the first unless it is empty. */
  function Or(a: string, b: string): (r: string)
    ensures r == a || r == b
    ensures r == "" <==> a == "" && b == ""
  {
    if a != "" then a else b
  }

  /** The `trackinfo` list, or no entries when it or `origin_info` is absent. */
  function TrackInfo(data: RawTracking): seq<RawEvent> {
    match data.originInfo
    case Some(info) => info.trackinfo.GetOr([])
    case None => []
  }

  /** `data.get("delivery_status", "") or data.get("substatus", "unknown")`. */
  function RawStatus(data: RawTracking): string {
    Or(data.deliveryStatus.GetOr(""), data.substatus.GetOr("unknown"))
  }

  /** The lower-cased `delivery_status` that detect_delay and the summary branch on. */
  function DeliveryStatus(data: RawTracking): string {
    Lower(data.deliveryStatus.GetOr(""))
  }

  /** The fixed table of friendly status names, keyed by the lower-cased upstream status. */
  const StatusTable: map<string, string> := map[
    "delivered" := "Delivered",
    "transit" := "In Transit",
    "pickup" := "Ready for Pickup",
    "exception" := "Exception",
    "expired" := "Expired",
    "pending" := "Pending",
    "notfound" := "Not Found",
    "infotreceived" := "Info Received",
    "inforeceived" := "Info Received"]

  /**
   * The friendly status of an upstream status: the table entry of its
   * lower-cased form, else its title-cased form, else "Unknown".
   */
  function FriendlyStatus(status: string): (r: string)
    ensures r != ""
    ensures Lower(status) in StatusTable ==> r == StatusTable[Lower(status)]
    ensures Lower(status) !in StatusTable && status != "" ==> Lower(r) == Lower(status)
    ensures Lower(status) !in StatusTable && status != "" ==> r == Title(status)
    ensures status == "" ==> r == "Unknown"
  {
    LowerOfTitle(status);
    if Lower(status) in StatusTable then StatusTable[Lower(status)]
    else if status != "" then Title(status)
    else "Unknown"
  }

  /** The table's keys are 6 to 9, 12 or 13 characters long, so no other length is mapped. */
  lemma UnmappedByLength(k: string)
    requires |k| !in {6, 7, 8, 9, 12, 13}
    ensures k !in StatusTable
  {
  }

  /**
   * A status reads "Delivered" exactly when the upstream status is
   * "delivered" in any letter case: no other upstream value, mapped or
   * title-cased, can produce it.
   */
  lemma FriendlyStatusDelivered(status: string)
    ensures FriendlyStatus(status) == "Delivered" <==> Lower(status) == "delivered"
  {
    var r := FriendlyStatus(status);
    if Lower(status) in StatusTable {
      OnlyDeliveredMapsToDelivered(Lower(status));
    } else if status != "" && r == "Delivered" {
      LowerOfDelivered();
    }
  }

  lemma OnlyDeliveredMapsToDelivered(k: string)
    requires k in StatusTable
    ensures StatusTable[k] == "Delivered" <==> k == "delivered"
  {
  }

  lemma LowerOfDelivered()
    ensures Lower("Delivered") == "delivered"
  {
    LowerOfWord("Delivered", "delivered");
  }

  /** Two upstream statuses that differ only in letter case get the same friendly status. */
  lemma FriendlyStatusIgnoresCase(s: string, t: string)
    requires Lower(s) == Lower(t) && Lower(s) in StatusTable
    ensures FriendlyStatus(s) == FriendlyStatus(t)
  {
  }
}
