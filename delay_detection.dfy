/**
 * backend/delay_detection.py: the rule cascade that flags a late shipment and
 * the decision tree that picks the one-sentence summary.
 *
 * The hours since the last update are an input: `Some(h)` is the whole number
 * of hours the clock comparison yields, `None` stands for a last-update text
 * that `datetime.fromisoformat` rejects (the `except` branch at the end of
 * `detect_delay`).  The events are the dictionaries `{location, status,
 * timestamp}` the function is written for.
 */
module DelayDetection {
  import opened Wrappers
  import opened Text
  import opened Models
  import opened Upstream

  const ExceptionStatuses: set<string> := {"exception", "alert", "undelivered"}

  /** The result `detect_delay` starts from. */
  const Initial: DelayInfo := DelayInfo("Normal", "none", "Shipment is progressing normally", 0)

  const DeliveredMessage := "Shipment has been delivered"
  const NoUpdatesMessage := "No tracking updates available yet"
  const ExceptionMessage := "Shipment encountered an exception. Please contact India Post for details."

  /** `update_at`, else `latest_checkpoint_time`; "" when neither is set. */
  function LastUpdate(data: RawTracking): string {
    Or(data.updateAt.GetOr(""), data.latestCheckpointTime.GetOr(""))
  }

  /** The first two events share a non-empty location and more than 36 hours have passed. */
  predicate Stuck(events: seq<TrackingEvent>, hours: int) {
    |events| >= 2 && events[0].location != "" && events[0].location == events[1].location && hours > 36
  }

  /** The three messages of the time thresholds, each naming the hours. */
  function AwaitingPickupMessage(hours: int): string {
    "No movement detected for " + IntToString(hours) + " hours. Shipment may still be awaiting pickup."
  }

  function NotMovedMessage(hours: int): string {
    "Shipment has not moved for " + IntToString(hours) + " hours. This is unusual and may indicate a delay."
  }

  function NoUpdatesForMessage(hours: int): string {
    "No updates for " + IntToString(hours) + " hours. Shipment may be delayed at a sorting facility."
  }

  /** The time thresholds, first match wins; "Normal" when none applies. */
  function ThresholdVerdict(deliveryStatus: string, hours: int): (d: DelayInfo)
    ensures d.hoursSinceUpdate == hours
  {
    if deliveryStatus == "pending" && hours > 24 then
      DelayInfo("Possible Delay", "low", AwaitingPickupMessage(hours), hours)
    else if hours > 72 then
      DelayInfo("Delayed", "high", NotMovedMessage(hours), hours)
    else if hours > 48 then
      DelayInfo("Possible Delay", "medium", NoUpdatesForMessage(hours), hours)
    else
      Initial.(hoursSinceUpdate := hours)
  }

  /**
   * The verdict, read as a priority list: delivered, then no timestamp, then an
   * unreadable timestamp, then the exception statuses, then a shipment stuck
   * at one location, then the time thresholds.
   */
  function DelayVerdict(data: RawTracking, events: seq<TrackingEvent>, hours: Option<int>): (d: DelayInfo) {
    var s := DeliveryStatus(data);
    if s == "delivered" then Initial.(message := DeliveredMessage)
    else if LastUpdate(data) == "" then Initial.(status := "Unknown", message := NoUpdatesMessage)
    else if hours.None? then Initial
    else
      var h := hours.value;
      if s in ExceptionStatuses then DelayInfo("Exception", "high", ExceptionMessage, h)
      else if Stuck(events, h) then
        DelayInfo("Delayed", "high", "Shipment stuck at " + events[0].location + " for " + IntToString(h) + " hours.", h)
      else ThresholdVerdict(s, h)
  }

  /**
   * `detect_delay` as the source runs it: start from the default verdict and
   * let each later rule overwrite the fields an earlier one set.
   * `eventsAsModels` says the events arrive as `TrackingEvent` models rather
   * than dictionaries: then `events[0].get` raises, and the `except` returns
   * the verdict as it stands.
   */
  method DetectDelay(data: RawTracking, events: seq<TrackingEvent>, hours: Option<int>, eventsAsModels: bool)
    returns (info: DelayInfo)
    ensures !eventsAsModels ==> info == DelayVerdict(data, events, hours)
    ensures eventsAsModels ==> info == DelayVerdictAsCalled(data, events, hours)
  {
    info := Initial;
    var deliveryStatus := DeliveryStatus(data);
    if deliveryStatus == "delivered" {
      info := info.(message := DeliveredMessage);
      return;
    }
    var lastUpdate := LastUpdate(data);
    if lastUpdate == "" {
      info := info.(status := "Unknown");
      info := info.(message := NoUpdatesMessage);
      return;
    }
    if hours.None? {
      return;
    }
    var h := hours.value;
    var n := IntToString(h);
    info := info.(hoursSinceUpdate := h);
    if deliveryStatus == "pending" && h > 24 {
      info := info.(status := "Possible Delay");
      info := info.(severity := "low");
      info := info.(message := "No movement detected for " + n + " hours. Shipment may still be awaiting pickup.");
    } else if h > 72 {
      info := info.(status := "Delayed");
      info := info.(severity := "high");
      info := info.(message := "Shipment has not moved for " + n + " hours. This is unusual and may indicate a delay.");
    } else if h > 48 {
      info := info.(status := "Possible Delay");
      info := info.(severity := "medium");
      info := info.(message := "No updates for " + n + " hours. Shipment may be delayed at a sorting facility.");
    }
    if |events| >= 2 {
      if eventsAsModels {
        return;
      }
      var lastLocation := events[0].location;
      var secondLastLocation := events[1].location;
      if lastLocation != "" && lastLocation == secondLastLocation && h > 36 {
        info := info.(status := "Delayed");
        info := info.(severity := "high");
        info := info.(message := "Shipment stuck at " + lastLocation + " for " + n + " hours.");
      }
    }
    if deliveryStatus in ExceptionStatuses {
      info := info.(status := "Exception");
      info := info.(severity := "high");
      info := info.(message := ExceptionMessage);
    }
  }

  // ----- properties of the verdict -----------------------------------------

  const Severities: set<string> := {"none", "low", "medium", "high"}
  const Statuses: set<string> := {"Normal", "Unknown", "Possible Delay", "Delayed", "Exception"}

  /** Every verdict uses one of four severities and one of five statuses. */
  lemma VerdictInRange(data: RawTracking, events: seq<TrackingEvent>, hours: Option<int>)
    ensures DelayVerdict(data, events, hours).severity in Severities
    ensures DelayVerdict(data, events, hours).status in Statuses
  {
  }

  /** A delivered shipment is on track whatever its timestamps and events say. */
  lemma DeliveredIsNormal(data: RawTracking, events: seq<TrackingEvent>, hours: Option<int>)
    requires DeliveryStatus(data) == "delivered"
    ensures DelayVerdict(data, events, hours) == DelayInfo("Normal", "none", "Shipment has been delivered", 0)
  {
  }

  /** An exception status wins over every time and location rule once a timestamp has been read. */
  lemma ExceptionOverridesAll(data: RawTracking, events: seq<TrackingEvent>, h: int)
    requires DeliveryStatus(data) in ExceptionStatuses && LastUpdate(data) != ""
    ensures var d := DelayVerdict(data, events, Some(h));
      d.status == "Exception" && d.severity == "high" && d.hoursSinceUpdate == h
  {
  }

  /** A shipment held at one location for more than 36 hours is Delayed/high unless an exception status speaks. */
  lemma StuckOverridesThresholds(data: RawTracking, events: seq<TrackingEvent>, h: int)
    requires DeliveryStatus(data) != "delivered" && DeliveryStatus(data) !in ExceptionStatuses
    requires LastUpdate(data) != "" && Stuck(events, h)
    ensures var d := DelayVerdict(data, events, Some(h));
      d.status == "Delayed" && d.severity == "high"
  {
  }

  /** A pending shipment never gets past "low" from the time rules alone: pending for 100 hours is still low. */
  lemma PendingCapsAtLow(data: RawTracking, events: seq<TrackingEvent>, h: int)
    requires DeliveryStatus(data) == "pending" && LastUpdate(data) != "" && !Stuck(events, h)
    ensures var d := DelayVerdict(data, events, Some(h));
      (h > 24 ==> d.status == "Possible Delay" && d.severity == "low")
      && (h <= 24 ==> d.status == "Normal" && d.severity == "none")
  {
  }

  function SeverityRank(severity: string): int {
    if severity == "high" then 3 else if severity == "medium" then 2 else if severity == "low" then 1 else 0
  }

  /**
   * More hours without an update never lower the severity: for fixed data and
   * events the verdict's severity grows with the hours.
   */
  lemma SeverityMonotoneInHours(data: RawTracking, events: seq<TrackingEvent>, h1: int, h2: int)
    requires h1 <= h2
    ensures SeverityRank(DelayVerdict(data, events, Some(h1)).severity)
         <= SeverityRank(DelayVerdict(data, events, Some(h2)).severity)
  {
    var s := DeliveryStatus(data);
    if s != "delivered" && LastUpdate(data) != "" && s !in ExceptionStatuses {
      if Stuck(events, h2) {
        assert DelayVerdict(data, events, Some(h2)).severity == "high";
      } else {
        assert !Stuck(events, h1);
        ThresholdSeverityMonotone(s, h1, h2);
      }
    }
  }

  /** The time thresholds alone never lower the severity as the hours grow. */
  lemma ThresholdSeverityMonotone(s: string, h1: int, h2: int)
    requires h1 <= h2
    ensures SeverityRank(ThresholdVerdict(s, h1).severity) <= SeverityRank(ThresholdVerdict(s, h2).severity)
  {
    ThresholdRank(s, h1);
    ThresholdRank(s, h2);
  }

  /** The rank of a time-threshold severity: low for pending past 24 hours, else high past 72, medium past 48, none otherwise. */
  lemma ThresholdRank(s: string, h: int)
    ensures SeverityRank(ThresholdVerdict(s, h).severity)
      == if s == "pending" && h > 24 then 1 else if h > 72 then 3 else if h > 48 then 2 else 0
  {
  }

  // ----- the caller mismatch at backend/main.py:190 -------------------------

  /**
   * `detect_delay` as main.py calls it, with TrackingEvent models instead of
   * dictionaries: with two or more events `events[0].get` raises, the `except`
   * swallows the error and the verdict stops after the time thresholds, so
   * neither the stuck rule nor the exception rule ever runs.  This is the
   * verdict the endpoint answers with.
   */
  function DelayVerdictAsCalled(data: RawTracking, events: seq<TrackingEvent>, hours: Option<int>): (d: DelayInfo)
    ensures |events| < 2 ==> d == DelayVerdict(data, events, hours)
  {
    var s := DeliveryStatus(data);
    if s == "delivered" || LastUpdate(data) == "" || hours.None? || |events| < 2 then DelayVerdict(data, events, hours)
    else ThresholdVerdict(s, hours.value)
  }

  /**
   * The inputs on which the two differ: a shipment in one of the exception
   * statuses, with a last update, at most 48 hours old and with two or more
   * events.  As called it reads Normal/none; the rules as written say
   * Exception/high.
   */
  lemma ExceptionHiddenByCallerMismatch(data: RawTracking, events: seq<TrackingEvent>, h: int)
    requires DeliveryStatus(data) in ExceptionStatuses && LastUpdate(data) != ""
    requires |events| >= 2 && h <= 48
    ensures DelayVerdictAsCalled(data, events, Some(h)).status == "Normal"
    ensures DelayVerdictAsCalled(data, events, Some(h)).severity == "none"
    ensures DelayVerdict(data, events, Some(h)).status == "Exception"
    ensures DelayVerdict(data, events, Some(h)).severity == "high"
  {
  }

  // ----- the smart summary ---------------------------------------------------

  /** Which sentence the summary uses. */
  datatype SummaryCase =
    | DeliveredNews | Issue | Stalled | InTransit | OutForDelivery | ReadyForPickup
    | NotMovingYet | Booked | Registered | Processing

  /**
   * The decision tree of `generate_smart_summary`: delivered, then the
   * exception statuses, then the newest event's status text, then the
   * defaults.
   */
  function SummaryCaseOf(data: RawTracking, events: seq<TrackingEvent>, info: DelayInfo): SummaryCase {
    var s := DeliveryStatus(data);
    if s == "delivered" then DeliveredNews
    else if s in ExceptionStatuses then Issue
    else if events != [] && (s == "transit" || Contains(Lower(events[0].status), "transit")) then
      (if info.status == "Delayed" then Stalled else InTransit)
    else if events != [] && (Contains(Lower(events[0].status), "out for delivery") || s == "pickup") then OutForDelivery
    else if events != [] && (Contains(Lower(events[0].status), "pickup") || s == "pickup") then ReadyForPickup
    else if events != [] && (s == "pending" || Contains(Lower(events[0].status), "booked")) then
      (if info.hoursSinceUpdate > 24 then NotMovingYet else Booked)
    else if s == "pending" then Registered
    else Processing
  }

  function SummarySentence(c: SummaryCase, location: string, hours: int): string {
    match c
    case DeliveredNews => "\U{1F389} Great news! Your parcel has been delivered successfully."
    case Issue => "\U{26A0}\U{FE0F} Your shipment has encountered an issue. Please contact India Post customer service for assistance."
    case Stalled => "\U{23F8}\U{FE0F} Your parcel is currently at " + location + ", but hasn't moved for " + IntToString(hours) + " hours. Expect possible delays."
    case InTransit => "\U{1F4E6} Your parcel is in transit. Last location: " + location + ". Delivery expected soon."
    case OutForDelivery => "\U{1F69A} Excellent! Your parcel is out for delivery from " + location + ". You should receive it today."
    case ReadyForPickup => "\U{1F4EC} Your parcel is ready for pickup at " + location + ". Please collect it at your convenience."
    case NotMovingYet => "\U{23F3} Your parcel was registered at " + location + " but hasn't started moving yet. This may take 24-48 hours."
    case Booked => "\U{2705} Your parcel has been booked at " + location + " and will begin its journey soon."
    case Registered => "\U{23F3} Your tracking number is registered. Waiting for India Post to scan and dispatch the parcel."
    case Processing => "\U{1F4E6} Your parcel is being processed. Check back soon for detailed updates."
  }

  /** `generate_smart_summary`: the sentence of the chosen case, about the newest event's location. */
  function SmartSummary(data: RawTracking, events: seq<TrackingEvent>, info: DelayInfo): string {
    var location := if events != [] then events[0].location else "";
    SummarySentence(SummaryCaseOf(data, events, info), location, info.hoursSinceUpdate)
  }

  /** Delivered is checked first, the exception statuses second, before any event is looked at. */
  lemma SummaryChecksStatusFirst(data: RawTracking, events: seq<TrackingEvent>, info: DelayInfo)
    ensures DeliveryStatus(data) == "delivered" ==> SummaryCaseOf(data, events, info) == DeliveredNews
    ensures DeliveryStatus(data) in ExceptionStatuses ==> SummaryCaseOf(data, events, info) == Issue
  {
  }

  /**
   * With the delivery status "pickup" the summary says "out for delivery",
   * because that branch comes first; "ready for pickup" is chosen only from
   * the newest event's own text.
   */
  lemma PickupStatusSaysOutForDelivery(data: RawTracking, events: seq<TrackingEvent>, info: DelayInfo)
    requires DeliveryStatus(data) == "pickup" && events != []
    requires !Contains(Lower(events[0].status), "transit")
    ensures SummaryCaseOf(data, events, info) == OutForDelivery
  {
  }

  lemma ReadyForPickupNeedsEventText(data: RawTracking, events: seq<TrackingEvent>, info: DelayInfo)
    requires SummaryCaseOf(data, events, info) == ReadyForPickup
    ensures events != [] && Contains(Lower(events[0].status), "pickup")
    ensures DeliveryStatus(data) != "pickup"
  {
  }

  /** A transit shipment is "stalled" exactly when the delay verdict is Delayed. */
  lemma TransitSummaryFollowsVerdict(data: RawTracking, events: seq<TrackingEvent>, info: DelayInfo)
    requires DeliveryStatus(data) == "transit" && events != []
    ensures SummaryCaseOf(data, events, info) == Stalled <==> info.status == "Delayed"
    ensures SummaryCaseOf(data, events, info) in {Stalled, InTransit}
  {
  }

  /** Without events only the status decides: pending gives the registered sentence, anything else the generic one. */
  lemma NoEventsSummary(data: RawTracking, info: DelayInfo)
    requires DeliveryStatus(data) != "delivered" && DeliveryStatus(data) !in ExceptionStatuses
    ensures SummaryCaseOf(data, [], info) == (if DeliveryStatus(data) == "pending" then Registered else Processing)
  {
  }
}
