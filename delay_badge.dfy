/**
 * frontend/src/components/DelayBadge.jsx: the chip that shows the delay
 * verdict, its colour, icon, label and tooltip.
 */
module DelayBadge {
  import opened Wrappers
  import opened Models
  import opened Ui
  import Upstream
  import DelayDetection

  datatype BadgeIcon = CheckCircleIcon | WarningIcon | ErrorIcon | InfoIcon

  datatype Badge = Badge(tone: Tone, icon: BadgeIcon, caption: string, tooltip: string)

  /** The chip for a missing verdict or a "Normal" one. */
  const OnTrack := Badge(SuccessColor, CheckCircleIcon, "On Track", "Shipment is on track")
  /** The tooltip of a verdict whose severity is none of high, medium and low. */
  const DefaultTooltip := "On track"

  /**
   * `DelayBadge`: no verdict or a "Normal" one shows "On Track"; otherwise the
   * chip is captioned with the verdict's status and coloured by its severity,
   * with the verdict's message as tooltip, and any other severity falls back
   * to the success colour with the tooltip "On track".
   */
  function BadgeFor(delayInfo: Option<DelayInfo>): (b: Badge)
    ensures delayInfo.None? || delayInfo.value.status == "Normal" ==> b == OnTrack
    ensures delayInfo.Some? && delayInfo.value.status != "Normal" ==> b.caption == delayInfo.value.status
    ensures b.tone != SuccessColor ==> delayInfo.Some? && b.tooltip == delayInfo.value.message
  {
    match delayInfo
    case None => OnTrack
    case Some(info) =>
      if info.status == "Normal" then OnTrack
      else if info.severity == "high" then Badge(ErrorColor, ErrorIcon, info.status, info.message)
      else if info.severity == "medium" then Badge(WarningColor, WarningIcon, info.status, info.message)
      else if info.severity == "low" then Badge(InfoColor, InfoIcon, info.status, info.message)
      else Badge(SuccessColor, CheckCircleIcon, info.status, DefaultTooltip)
  }

  function IconOfTone(t: Tone): BadgeIcon {
    match t
    case ErrorColor => ErrorIcon
    case WarningColor => WarningIcon
    case InfoColor => InfoIcon
    case _ => CheckCircleIcon
  }

  /** Every badge pairs its icon with its colour. */
  lemma IconFollowsTone(delayInfo: Option<DelayInfo>)
    ensures BadgeFor(delayInfo).icon == IconOfTone(BadgeFor(delayInfo).tone)
    ensures BadgeFor(delayInfo).tone in {SuccessColor, ErrorColor, WarningColor, InfoColor}
  {
  }

  /**
   * Severity and status agree: the severity is one of the four, high for
   * Delayed and Exception, none for Normal and Unknown, low or medium for
   * Possible Delay.
   */
  predicate SeverityMatchesStatus(v: DelayInfo) {
    v.severity in DelayDetection.Severities
    && (v.severity == "high" <==> v.status == "Delayed" || v.status == "Exception")
    && (v.severity == "none" <==> v.status == "Normal" || v.status == "Unknown")
    && (v.severity in {"low", "medium"} <==> v.status == "Possible Delay")
  }

  /**
   * For the verdicts the back end computes: red exactly for "Delayed" and
   * "Exception", amber exactly for medium severity, blue exactly for low
   * severity, green exactly for "Normal" and "Unknown"; a coloured chip
   * carries the verdict's status and message.
   */
  lemma BadgeOfVerdict(data: Upstream.RawTracking, events: seq<TrackingEvent>, hours: Option<int>)
    ensures var v := DelayDetection.DelayVerdict(data, events, hours); var b := BadgeFor(Some(v));
      (b.tone == ErrorColor <==> v.status == "Delayed" || v.status == "Exception")
      && (b.tone == WarningColor <==> v.severity == "medium")
      && (b.tone == InfoColor <==> v.severity == "low")
      && (b.tone == SuccessColor <==> v.status == "Normal" || v.status == "Unknown")
      && (b.tone != SuccessColor ==> b.caption == v.status && b.tooltip == v.message)
  {
    var v := DelayDetection.DelayVerdict(data, events, hours);
    VerdictSeverityMatchesStatus(data, events, hours);
    BadgeOfMatchingVerdict(v);
  }

  /**
   * The same colours for the verdict the endpoint answers with, which is the
   * rules' verdict or the time thresholds' verdict.
   */
  lemma BadgeOfAsCalledVerdict(data: Upstream.RawTracking, events: seq<TrackingEvent>, hours: Option<int>)
    ensures var v := DelayDetection.DelayVerdictAsCalled(data, events, hours); var b := BadgeFor(Some(v));
      (b.tone == ErrorColor <==> v.status == "Delayed" || v.status == "Exception")
      && (b.tone == WarningColor <==> v.severity == "medium")
      && (b.tone == InfoColor <==> v.severity == "low")
      && (b.tone == SuccessColor <==> v.status == "Normal" || v.status == "Unknown")
      && (b.tone != SuccessColor ==> b.caption == v.status && b.tooltip == v.message)
  {
    var s := Upstream.DeliveryStatus(data);
    if s == "delivered" || DelayDetection.LastUpdate(data) == "" || hours.None? || |events| < 2 {
      VerdictSeverityMatchesStatus(data, events, hours);
    } else {
      ThresholdSeverityMatchesStatus(s, hours.value);
    }
    BadgeOfMatchingVerdict(DelayDetection.DelayVerdictAsCalled(data, events, hours));
  }

  /** The badge of any verdict whose severity matches its status. */
  lemma BadgeOfMatchingVerdict(v: DelayInfo)
    requires SeverityMatchesStatus(v)
    ensures var b := BadgeFor(Some(v));
      (b.tone == ErrorColor <==> v.status == "Delayed" || v.status == "Exception")
      && (b.tone == WarningColor <==> v.severity == "medium")
      && (b.tone == InfoColor <==> v.severity == "low")
      && (b.tone == SuccessColor <==> v.status == "Normal" || v.status == "Unknown")
      && (b.tone != SuccessColor ==> b.caption == v.status && b.tooltip == v.message)
  {
  }

  /** Every verdict of the delay rules pairs its severity with its status. */
  lemma VerdictSeverityMatchesStatus(data: Upstream.RawTracking, events: seq<TrackingEvent>, hours: Option<int>)
    ensures SeverityMatchesStatus(DelayDetection.DelayVerdict(data, events, hours))
  {
    var s := Upstream.DeliveryStatus(data);
    if s != "delivered" && DelayDetection.LastUpdate(data) != "" && hours.Some?
      && s !in DelayDetection.ExceptionStatuses && !DelayDetection.Stuck(events, hours.value)
    {
      ThresholdSeverityMatchesStatus(s, hours.value);
    }
  }

  /** The time thresholds alone pair severity and status too. */
  lemma ThresholdSeverityMatchesStatus(s: string, h: int)
    ensures SeverityMatchesStatus(DelayDetection.ThresholdVerdict(s, h))
  {
  }

  /**
   * A shipment with no timestamp at all gets the "Unknown" verdict, which the
   * badge shows in the success colour with the tooltip "On track".
   */
  lemma UnknownVerdictBadge(data: Upstream.RawTracking, events: seq<TrackingEvent>, hours: Option<int>)
    requires Upstream.DeliveryStatus(data) != "delivered" && DelayDetection.LastUpdate(data) == ""
    ensures BadgeFor(Some(DelayDetection.DelayVerdict(data, events, hours)))
      == Badge(SuccessColor, CheckCircleIcon, "Unknown", DefaultTooltip)
  {
  }
}
