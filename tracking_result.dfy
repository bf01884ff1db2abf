/**
 * The colour tones the components choose between (MUI palette names).
 */
module Ui {
  datatype Tone = SuccessColor | WarningColor | ErrorColor | InfoColor | DefaultColor
}

/**
 * frontend/src/components/TrackingResult.jsx: the status chip's icon, the
 * "last refreshed" label and the fallbacks of the result card.
 */
module TrackingResult {
  import opened Wrappers
  import opened Text
  import opened Models
  import opened Upstream
  import opened Ui
  import DelayDetection

  datatype StatusIcon = CheckCircleIcon | ShippingIcon | ErrorIcon | ScheduleIcon

  /**
   * `getStatusColor`: the first matching word of the lower-cased status
   * decides.  The card never calls it: the chip is white and takes its colour
   * from its icon.
   */
  function StatusColor(status: string): Tone {
    var s := Lower(status);
    if Contains(s, "delivered") then SuccessColor
    else if Contains(s, "transit") || Contains(s, "picked") then WarningColor
    else if Contains(s, "exception") || Contains(s, "failed") then ErrorColor
    else DefaultColor
  }

  /** `getStatusIcon`, the chip's icon: the first matching word of the lower-cased status decides. */
  function StatusIconOf(status: string): StatusIcon {
    var s := Lower(status);
    if Contains(s, "delivered") then CheckCircleIcon
    else if Contains(s, "transit") || Contains(s, "picked") then ShippingIcon
    else if Contains(s, "exception") || Contains(s, "failed") then ErrorIcon
    else ScheduleIcon
  }

  /** The palette colour each chip icon is drawn in (`text.secondary` for the clock). */
  function IconTone(icon: StatusIcon): Tone {
    match icon
    case CheckCircleIcon => SuccessColor
    case ShippingIcon => WarningColor
    case ErrorIcon => ErrorColor
    case ScheduleIcon => DefaultColor
  }

  function IconOfTone(t: Tone): StatusIcon {
    match t
    case SuccessColor => CheckCircleIcon
    case WarningColor => ShippingIcon
    case ErrorColor => ErrorIcon
    case _ => ScheduleIcon
  }

  /**
   * The unused `getStatusColor` names the colour the icon is drawn in: the
   * two chains test the same words in the same order.
   */
  lemma IconFollowsColor(status: string)
    ensures StatusIconOf(status) == IconOfTone(StatusColor(status))
    ensures IconTone(StatusIconOf(status)) == StatusColor(status)
  {
  }

  /** The icon, and the unused colour, ignore letter case. */
  lemma StatusColorIgnoresCase(s: string, t: string)
    requires Lower(s) == Lower(t)
    ensures StatusColor(s) == StatusColor(t) && StatusIconOf(s) == StatusIconOf(t)
  {
  }

  lemma ContainsWitness(s: string, sub: string, i: nat)
    requires OccursAt(s, sub, i)
    ensures Contains(s, sub)
  {
    ContainsAt(s, sub);
  }

  lemma NotContainsLonger(s: string, sub: string)
    requires |sub| > |s|
    ensures !Contains(s, sub)
  {
    ContainsAt(s, sub);
  }

  lemma LowerUndelivered()
    ensures Lower("undelivered") == "undelivered"
  {
    LowerOfWord("undelivered", "undelivered");
  }

  /** The friendly status of an upstream "undelivered": not in the table, so its title-cased form, whose lower case is unchanged. */
  lemma FriendlyUndelivered(status: string)
    requires status == "undelivered"
    ensures Lower(FriendlyStatus(status)) == "undelivered"
  {
    LowerUndelivered();
    UnmappedByLength(Lower(status));
  }

  /** A status whose lower case contains "delivered" gets the check mark in the success colour, whatever else it says. */
  lemma DeliveredWordWins(status: string)
    requires Contains(Lower(status), "delivered")
    ensures StatusIconOf(status) == CheckCircleIcon && IconTone(StatusIconOf(status)) == SuccessColor
  {
  }

  lemma UndeliveredContainsDelivered()
    ensures Contains("undelivered", "delivered")
  {
    var s := "undelivered";
    assert s[2..11] == "delivered";
    ContainsWitness(s, "delivered", 2);
  }

  lemma UndeliveredIsException(raw: RawTracking, events: seq<TrackingEvent>, h: int)
    requires raw.deliveryStatus == Some("undelivered") && DelayDetection.LastUpdate(raw) != ""
    ensures DelayDetection.DelayVerdict(raw, events, Some(h)).status == "Exception"
  {
    LowerUndelivered();
    assert DeliveryStatus(raw) == "undelivered";
  }

  /**
   * As written, an upstream "undelivered" is shown with the green check-mark
   * icon, because "undelivered" contains "delivered";
   * once the record has a last update, the rules' delay verdict is
   * Exception, and so is the verdict the endpoint answers with when fewer
   * than two events came back.
   */
  lemma UndeliveredShownAsDelivered(raw: RawTracking, events: seq<TrackingEvent>, h: int)
    requires raw.deliveryStatus == Some("undelivered") && DelayDetection.LastUpdate(raw) != ""
    ensures StatusIconOf(FriendlyStatus(RawStatus(raw))) == CheckCircleIcon
    ensures IconTone(StatusIconOf(FriendlyStatus(RawStatus(raw)))) == SuccessColor
    ensures DelayDetection.DelayVerdict(raw, events, Some(h)).status == "Exception"
    ensures |events| < 2 ==> DelayDetection.DelayVerdictAsCalled(raw, events, Some(h)).status == "Exception"
  {
    var status := RawStatus(raw);
    assert status == "undelivered";
    FriendlyUndelivered(status);
    UndeliveredContainsDelivered();
    DeliveredWordWins(FriendlyStatus(status));
    UndeliveredIsException(raw, events, h);
  }

  /** The icon the chip evidently should have: a status that says "undelivered" is a problem, not a delivery. */
  function IntendedStatusIcon(status: string): (icon: StatusIcon)
    ensures icon == CheckCircleIcon ==> !Contains(Lower(status), "undelivered")
    ensures Contains(Lower(status), "undelivered") ==> icon == ErrorIcon
    ensures !Contains(Lower(status), "undelivered") ==> icon == StatusIconOf(status)
  {
    var s := Lower(status);
    if Contains(s, "undelivered") then ErrorIcon
    else StatusIconOf(status)
  }

  /** The intended icon is never the check mark for a status that lacks "delivered" or says "undelivered". */
  lemma IntendedNotCheckMark(status: string)
    requires !Contains(Lower(status), "delivered") || Contains(Lower(status), "undelivered")
    ensures IntendedStatusIcon(status) != CheckCircleIcon
  {
  }

  /** Two different strings of the same length do not contain each other. */
  lemma NotContainsSameLength(s: string, sub: string)
    requires |s| == |sub| && s != sub
    ensures !Contains(s, sub)
  {
    ContainsAt(s, sub);
    assert s[0..|sub|] == s;
  }

  lemma LowerOfException()
    ensures Lower("Exception") == "exception"
  {
    LowerOfWord("Exception", "exception");
  }

  lemma ExceptionLacksDelivered()
    ensures !Contains("exception", "delivered")
  {
    var s, sub := "exception", "delivered";
    assert s[0] != sub[0];
    NotContainsSameLength(s, sub);
  }

  /** With the intended icon, none of the statuses the delay rules treat as exceptions shows the check mark. */
  lemma IntendedIconOfExceptionStatuses(raw: string)
    requires Lower(raw) in DelayDetection.ExceptionStatuses
    ensures IntendedStatusIcon(FriendlyStatus(raw)) != CheckCircleIcon
  {
    var f := FriendlyStatus(raw);
    if Lower(raw) == "exception" {
      assert f == "Exception";
      LowerOfException();
      ExceptionLacksDelivered();
    } else if Lower(raw) == "alert" {
      UnmappedByLength(Lower(raw));
      assert Lower(f) == "alert";
      NotContainsLonger(Lower(f), "delivered");
    } else {
      UnmappedByLength(Lower(raw));
      assert Lower(f) == "undelivered";
      ContainsPrefix(Lower(f), "undelivered");
    }
    IntendedNotCheckMark(f);
  }

  /** "delivered" itself still gets the check mark. */
  lemma IntendedIconOfDelivered(raw: string)
    requires Lower(raw) == "delivered"
    ensures IntendedStatusIcon(FriendlyStatus(raw)) == CheckCircleIcon
  {
    var f := FriendlyStatus(raw);
    assert f == "Delivered";
    Upstream.LowerOfDelivered();
    ContainsPrefix(Lower(f), "delivered");
    NotContainsLonger(Lower(f), "undelivered");
  }

  // ----- last refreshed -----------------------------------------------------

  const MsPerSecond := 1000
  const SecondsPerMinute := 60

  /**
   * `formatLastRefreshed`: whole seconds since the last refresh (`Math.floor`,
   * which for a positive divisor is Dafny's division), bucketed into "Just
   * now", seconds, minutes and, past the hour, the locale time of day that
   * `localeTime` stands for.
   */
  function FormatLastRefreshed(lastRefreshed: Option<int>, now: int, localeTime: int -> string): string {
    match lastRefreshed
    case None => ""
    case Some(t) =>
      var seconds := (now - t) / MsPerSecond;
      if seconds < 10 then "Just now"
      else if seconds < 60 then IntToString(seconds) + "s ago"
      else
        var minutes := seconds / SecondsPerMinute;
        if minutes < 60 then IntToString(minutes) + "m ago"
        else localeTime(t)
  }

  lemma SecondsThenMinutes(d: int)
    requires d >= 0
    ensures (d / 1000) / 60 == d / 60000
  {
    var q, r := d / 60000, d % 60000;
    assert d == 60000 * q + r;
    assert d / 1000 == 60 * q + r / 1000;
  }

  /** The label as a function of the elapsed milliseconds `d`. */
  lemma RefreshBuckets(t: int, now: int, localeTime: int -> string)
    ensures var d, r := now - t, FormatLastRefreshed(Some(t), now, localeTime);
      (d < 10000 ==> r == "Just now")
      && (10000 <= d < 60000 ==> r == NatToString(d / 1000) + "s ago" && 10 <= d / 1000 < 60)
      && (60000 <= d < 3600000 ==> r == NatToString(d / 60000) + "m ago" && 1 <= d / 60000 < 60)
      && (d >= 3600000 ==> r == localeTime(t))
  {
    var d := now - t;
    if d >= 0 {
      SecondsThenMinutes(d);
    }
  }

  // ----- fallbacks of the card -------------------------------------------------

  const NotAvailable := "Information not available"

  /** `value || 'Information not available'` for origin and destination. */
  function ShownLocation(value: string): (r: string)
    ensures r != ""
    ensures value != "" ==> r == value
  {
    if value != "" then value else NotAvailable
  }

  /** `data.events?.length || 0`. */
  function EventCount(events: Option<seq<TrackingEvent>>): (n: nat)
    ensures events.None? ==> n == 0
    ensures events.Some? ==> n == |events.value|
  {
    match events
    case Some(es) => |es|
    case None => 0
  }

  /** The summary card shows only a non-empty summary; the badge any delay object; the timeline a non-empty event list. */
  predicate ShowsSummary(summary: Option<string>) {
    summary.Some? && summary.value != ""
  }

  predicate ShowsDelayBadge(delayInfo: Option<DelayInfo>) {
    delayInfo.Some?
  }

  predicate ShowsTimeline(events: Option<seq<TrackingEvent>>) {
    events.Some? && events.value != []
  }

  /** For a response of the tracking endpoint the card counts exactly its events, and shows the badge. */
  lemma CardOfEnrichedResponse(r: TrackingResponse)
    requires r.delayInfo.Some?
    ensures EventCount(Some(r.events)) == |r.events|
    ensures ShowsDelayBadge(r.delayInfo)
    ensures ShowsTimeline(Some(r.events)) <==> r.events != []
  {
  }
}
