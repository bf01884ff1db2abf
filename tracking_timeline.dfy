/**
 * frontend/src/components/TrackingTimeline.jsx: one row per event, newest
 * first, with the first row set apart and a connector line under every row
 * but the last.
 */
module TrackingTimeline {
  import opened Wrappers
  import opened Text
  import TrackingResult
  import Ui
  import opened Models

  /** The four icons a row can carry: large ones for the newest event, small ones for the rest. */
  datatype EventIcon = LatestDeliveredIcon | LatestShippingIcon | EarlierDeliveredIcon | EarlierDotIcon

  /** `getEventIcon`: a check mark when the status mentions "delivered", the first row larger. */
  function EventIconOf(index: nat, status: string): (icon: EventIcon)
    ensures icon in {LatestDeliveredIcon, LatestShippingIcon} <==> index == 0
    ensures icon in {LatestDeliveredIcon, EarlierDeliveredIcon} <==> Contains(Lower(status), "delivered")
  {
    var s := Lower(status);
    if index == 0 then
      if Contains(s, "delivered") then LatestDeliveredIcon else LatestShippingIcon
    else if Contains(s, "delivered") then EarlierDeliveredIcon
    else EarlierDotIcon
  }

  /** `formatDate`: "" for an empty timestamp, otherwise the locale date and time `localeDate` stands for. */
  function FormatDate(timestamp: string, localeDate: string -> string): (r: string)
    ensures timestamp == "" ==> r == ""
    ensures timestamp != "" ==> r == localeDate(timestamp)
  {
    if timestamp == "" then "" else localeDate(timestamp)
  }

  datatype Connector = PrimaryConnector | DividerConnector

  /** What one row of the timeline shows. */
  datatype Row = Row(
    status: string,
    icon: EventIcon,
    date: string,
    location: string,           // "" when the location line is not shown
    connector: Option<Connector>,
    bottomPadding: nat,
    raised: bool)               // the first row's elevated paper and bold status

  function RowAt(events: seq<TrackingEvent>, i: nat, localeDate: string -> string): Row
    requires i < |events|
  {
    var last := i == |events| - 1;
    Row(events[i].status,
        EventIconOf(i, events[i].status),
        FormatDate(events[i].timestamp, localeDate),
        events[i].location,
        if last then None else Some(if i == 0 then PrimaryConnector else DividerConnector),
        if last then 0 else 4,
        i == 0)
  }

  /** `events.map(...)`: the rows in the order of the events. */
  function Rows(events: seq<TrackingEvent>, localeDate: string -> string): (rows: seq<Row>)
    ensures |rows| == |events|
    ensures forall i :: 0 <= i < |rows| ==> rows[i].status == events[i].status && rows[i].location == events[i].location
    ensures forall i :: 0 <= i < |rows| ==>
      rows[i].icon == EventIconOf(i, events[i].status) && rows[i].date == FormatDate(events[i].timestamp, localeDate)
  {
    seq(|events|, i requires 0 <= i < |events| => RowAt(events, i, localeDate))
  }

  /** The empty-state text, shown exactly when there are no events. */
  const NoEventsNotice := "No tracking events available"

  function EmptyNotice(events: seq<TrackingEvent>): (r: Option<string>)
    ensures r.Some? <==> events == []
  {
    if events == [] then Some(NoEventsNotice) else None
  }

  /**
   * The shape of the timeline: only the first row is raised and has a large
   * icon; every row but the last has a connector and bottom padding, the
   * first one's in the primary colour; the last row has neither.
   */
  lemma TimelineShape(events: seq<TrackingEvent>, localeDate: string -> string)
    ensures var rows := Rows(events, localeDate);
      (forall i :: 0 <= i < |rows| ==> (rows[i].raised <==> i == 0))
      && (forall i :: 0 <= i < |rows| ==> (rows[i].connector.None? <==> i == |rows| - 1))
      && (forall i :: 0 <= i < |rows| ==> (rows[i].bottomPadding == 0 <==> i == |rows| - 1))
      && (forall i :: 0 <= i < |rows| ==> (rows[i].connector == Some(PrimaryConnector) <==> i == 0 && |rows| > 1))
  {
  }

  /** A single event is drawn raised, with no connector and no padding below. */
  lemma SingleEventRow(e: TrackingEvent, localeDate: string -> string)
    ensures var rows := Rows([e], localeDate);
      |rows| == 1 && rows[0].raised && rows[0].connector.None? && rows[0].bottomPadding == 0
      && rows[0].icon in {LatestDeliveredIcon, LatestShippingIcon}
  {
    var rows := Rows([e], localeDate);
    assert rows[0] == RowAt([e], 0, localeDate);
  }

  /**
   * The newest event's icon agrees with the status chip of the result card:
   * a check mark exactly when the chip shows its check mark.
   */
  lemma FirstIconAgreesWithChip(status: string)
    ensures EventIconOf(0, status) == LatestDeliveredIcon <==> TrackingResult.StatusIconOf(status) == TrackingResult.CheckCircleIcon
  {
  }
}
