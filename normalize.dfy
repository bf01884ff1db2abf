/**
 * `normalize_tracking_data` of backend/main.py: turns one TrackingMore record
 * into the API's TrackingResponse.  It builds one event per `trackinfo` entry,
 * sorts the events newest first, maps the status through the friendly-name
 * table and composes origin and destination from the address fields, falling
 * back on event locations.
 *
 * Timestamps are compared through `parse`, an abstract stand-in for
 * `datetime.fromisoformat`: it yields an instant, or `None` when the text does
 * not parse.  The empty timestamp sorts as `datetime.min`, the instant 0.
 */
module Normalize {
  import opened Wrappers
  import opened Text
  import opened Models
  import opened Upstream

  /** `tracking_detail`, else `Details`. */
  function Detail(e: RawEvent): string {
    Or(e.trackingDetail.GetOr(""), e.details.GetOr(""))
  }

  /** `checkpoint_status`, else `StatusDescription`. */
  function Checkpoint(e: RawEvent): string {
    Or(e.checkpointStatus.GetOr(""), e.statusDescription.GetOr(""))
  }

  /** `checkpoint_date`, else `Date`. */
  function EventDate(e: RawEvent): string {
    Or(e.checkpointDate.GetOr(""), e.date.GetOr(""))
  }

  /**
   * The location shown for an event: the office name and the detail joined by
   * " - ", whichever of the two is present, or "Unknown location".
   */
  function ComposeLocation(office: string, detail: string): (r: string)
    ensures r != ""
    ensures office != "" ==> office <= r
    ensures detail != "" ==> |detail| <= |r| && r[|r| - |detail|..] == detail
    ensures office == "" && detail == "" ==> r == "Unknown location"
    ensures office != "" && detail != "" ==> |r| == |office| + 3 + |detail| && r[|office|..|office| + 3] == " - "
    ensures office != "" && detail == "" ==> r == office
    ensures office == "" && detail != "" ==> r == detail
  {
    if office != "" && detail != "" then office + " - " + detail
    else if office != "" then office
    else if detail != "" then detail
    else "Unknown location"
  }

  function ToEvent(e: RawEvent): (ev: TrackingEvent)
    ensures ev.location != ""
  {
    TrackingEvent(ComposeLocation(e.location.GetOr(""), Detail(e)), Checkpoint(e), EventDate(e))
  }

  /** The source keeps an event only if its location or its status is non-empty. */
  predicate Kept(ev: TrackingEvent) {
    ev.location != "" || ev.status != ""
  }

  /** The events the loop over `trackinfo` appends, in `trackinfo` order. */
  function EventsFrom(t: seq<RawEvent>): seq<TrackingEvent> {
    if t == [] then []
    else
      var ev := ToEvent(t[|t| - 1]);
      EventsFrom(t[..|t| - 1]) + (if Kept(ev) then [ev] else [])
  }

  /**
   * Every `trackinfo` entry yields exactly one event, in order: the composed
   * location is never empty, so the keep-filter never drops an entry.
   */
  lemma {:induction false} EveryEntryYieldsOneEvent(t: seq<RawEvent>)
    ensures |EventsFrom(t)| == |t|
    ensures forall i :: 0 <= i < |t| ==> EventsFrom(t)[i] == ToEvent(t[i])
  {
    if t != [] {
      var p := t[..|t| - 1];
      EveryEntryYieldsOneEvent(p);
      assert EventsFrom(t) == EventsFrom(p) + [ToEvent(t[|t| - 1])];
      forall i | 0 <= i < |t| ensures EventsFrom(t)[i] == ToEvent(t[i]) {
        if i < |t| - 1 {
          assert t[i] == p[i];
        }
      }
    }
  }

  // ----- ordering -------------------------------------------------------

  /** The sort key of a timestamp: `datetime.min` for "", else the parsed instant. */
  function SortKey(ts: string, parse: string -> Option<nat>): Option<nat> {
    if ts == "" then Some(0) else parse(ts)
  }

  /** Every timestamp has a key, so the sort does not raise. */
  predicate Sortable(events: seq<TrackingEvent>, parse: string -> Option<nat>) {
    forall i :: 0 <= i < |events| ==> SortKey(events[i].timestamp, parse).Some?
  }

  function Key(ev: TrackingEvent, parse: string -> Option<nat>): nat {
    SortKey(ev.timestamp, parse).GetOr(0)
  }

  /** Newest first: keys never increase along the sequence. */
  predicate NewestFirst(s: seq<TrackingEvent>, parse: string -> Option<nat>) {
    forall i, j :: 0 <= i < j < |s| ==> Key(s[i], parse) >= Key(s[j], parse)
  }

  /** Places `ev` after every event whose key is at least its own (a stable insertion). */
  function Insert(ev: TrackingEvent, s: seq<TrackingEvent>, parse: string -> Option<nat>): (r: seq<TrackingEvent>)
    ensures |r| == |s| + 1
  {
    if s == [] then [ev]
    else if Key(s[0], parse) < Key(ev, parse) then [ev] + s
    else [s[0]] + Insert(ev, s[1..], parse)
  }

  /** Insertion adds `ev` and loses nothing. */
  lemma {:induction false} InsertPermutes(ev: TrackingEvent, s: seq<TrackingEvent>, parse: string -> Option<nat>)
    ensures multiset(Insert(ev, s, parse)) == multiset(s) + multiset{ev}
  {
    if s != [] && Key(s[0], parse) >= Key(ev, parse) {
      InsertPermutes(ev, s[1..], parse);
      assert s == [s[0]] + s[1..];
    }
  }

  lemma {:induction false} InsertKeepsOrder(ev: TrackingEvent, s: seq<TrackingEvent>, parse: string -> Option<nat>)
    requires NewestFirst(s, parse)
    ensures NewestFirst(Insert(ev, s, parse), parse)
  {
    if s != [] && Key(s[0], parse) >= Key(ev, parse) {
      var t := Insert(ev, s[1..], parse);
      InsertKeepsOrder(ev, s[1..], parse);
      InsertBelow(ev, s[1..], parse, Key(s[0], parse));
      var r := Insert(ev, s, parse);
      assert r == [s[0]] + t;
      forall i, j | 0 <= i < j < |r| ensures Key(r[i], parse) >= Key(r[j], parse) {
        assert r[j] == t[j - 1];
        if i > 0 {
          assert r[i] == t[i - 1];
        }
      }
    }
  }

  /** Inserting under a bound keeps every key under it. */
  lemma {:induction false} InsertBelow(ev: TrackingEvent, s: seq<TrackingEvent>, parse: string -> Option<nat>, bound: nat)
    requires Key(ev, parse) <= bound
    requires forall i :: 0 <= i < |s| ==> Key(s[i], parse) <= bound
    ensures forall i :: 0 <= i < |Insert(ev, s, parse)| ==> Key(Insert(ev, s, parse)[i], parse) <= bound
  {
    if s != [] && Key(s[0], parse) >= Key(ev, parse) {
      InsertBelow(ev, s[1..], parse, bound);
      var r := Insert(ev, s, parse);
      assert r == [s[0]] + Insert(ev, s[1..], parse);
      forall i | 0 < i < |r| ensures Key(r[i], parse) <= bound {
        assert r[i] == Insert(ev, s[1..], parse)[i - 1];
      }
    }
  }

  /** A stable sort, newest first, as Python's `list.sort(key=..., reverse=True)` performs it. */
  function SortNewestFirst(s: seq<TrackingEvent>, parse: string -> Option<nat>): (r: seq<TrackingEvent>)
    ensures |r| == |s|
    ensures multiset(r) == multiset(s)
  {
    if s == [] then []
    else
      assert s == s[..|s| - 1] + [s[|s| - 1]];
      InsertPermutes(s[|s| - 1], SortNewestFirst(s[..|s| - 1], parse), parse);
      Insert(s[|s| - 1], SortNewestFirst(s[..|s| - 1], parse), parse)
  }

  lemma {:induction false} SortNewestFirstSorts(s: seq<TrackingEvent>, parse: string -> Option<nat>)
    ensures NewestFirst(SortNewestFirst(s, parse), parse)
  {
    if s != [] {
      SortNewestFirstSorts(s[..|s| - 1], parse);
      InsertKeepsOrder(s[|s| - 1], SortNewestFirst(s[..|s| - 1], parse), parse);
    }
  }

  /**
   * The events after `events.sort(...)`: sorted newest first when every
   * timestamp parses; otherwise the sort raises, the error is ignored and the
   * original order is kept.
   */
  function ArrangeEvents(events: seq<TrackingEvent>, parse: string -> Option<nat>): (r: seq<TrackingEvent>)
    ensures multiset(r) == multiset(events)
    ensures Sortable(events, parse) ==> NewestFirst(r, parse)
    ensures !Sortable(events, parse) ==> r == events
  {
    SortNewestFirstSorts(events, parse);
    if Sortable(events, parse) then SortNewestFirst(events, parse) else events
  }

  lemma NewestFirstEnds(s: seq<TrackingEvent>, parse: string -> Option<nat>)
    requires NewestFirst(s, parse) && s != []
    ensures forall e :: e in s ==> Key(s[0], parse) >= Key(e, parse) >= Key(s[|s| - 1], parse)
  {
    forall e | e in s ensures Key(s[0], parse) >= Key(e, parse) >= Key(s[|s| - 1], parse) {
      var k :| 0 <= k < |s| && s[k] == e;
    }
  }

  // ----- origin and destination -------------------------------------------

  /** "postal, country", postal alone or country alone, from `origin_info`. */
  function OriginFromInfo(info: Option<OriginInfo>): (r: string)
    ensures info.None? ==> r == ""
    ensures info.Some? ==> (r == "" <==> info.value.postalCode.GetOr("") == "" && info.value.countryName.GetOr("") == "")
  {
    match info
    case None => ""
    case Some(i) =>
      var country := i.countryName.GetOr("");
      var postal := i.postalCode.GetOr("");
      if postal != "" then (if country != "" then postal + ", " + country else postal)
      else country
  }

  /** The origin: from `origin_info`, else the location of the last (oldest) event. */
  function OriginOf(info: Option<OriginInfo>, events: seq<TrackingEvent>): string {
    var fromInfo := OriginFromInfo(info);
    if fromInfo == "" && events != [] then events[|events| - 1].location else fromInfo
  }

  /** The address parts of the destination: city, state unless it equals the city, postal code. */
  function DestinationParts(city: string, state: string, postal: string): (parts: seq<string>)
    ensures |parts| <= 3
    ensures forall i :: 0 <= i < |parts| ==> parts[i] != ""
    ensures parts == [] <==> city == "" && state == "" && postal == ""
    ensures city != "" ==> parts[0] == city
    ensures postal != "" ==> parts[|parts| - 1] == postal
    ensures state == city ==> |parts| <= 2
    ensures state != "" && state != city ==>
      |parts| > (if city != "" then 1 else 0) && parts[if city != "" then 1 else 0] == state
    ensures forall x :: x in parts <==> x != "" && (x == city || x == state || x == postal)
  {
    (if city != "" then [city] else [])
    + (if state != "" && state != city then [state] else [])
    + (if postal != "" then [postal] else [])
  }

  function DestinationFromInfo(info: Option<DestinationInfo>): string {
    match info
    case None => ""
    case Some(d) =>
      var parts := DestinationParts(d.recipientCity.GetOr(""), d.recipientState.GetOr(""), d.recipientPostal.GetOr(""));
      if parts != [] then Join(parts, ", ") else d.recipientAddress.GetOr("")
  }

  /**
   * The destination: the joined address parts, else `recipient_address`, else
   * — only for a delivered shipment — the location of the first (newest) event.
   */
  function DestinationOf(info: Option<DestinationInfo>, friendlyStatus: string, events: seq<TrackingEvent>): string {
    var fromInfo := DestinationFromInfo(info);
    if fromInfo == "" && events != [] && Lower(friendlyStatus) == "delivered" then events[0].location
    else fromInfo
  }

  /** The two fields `last_updated` is read from in main.py. */
  function LastUpdated(data: RawTracking): string {
    Or(data.updateDate.GetOr(""), data.updatedAt.GetOr(""))
  }

  // ----- the operation ----------------------------------------------------

  /** The loop over `trackinfo`: one event per entry that has a location or a status. */
  method CollectEvents(trackinfo: seq<RawEvent>) returns (events: seq<TrackingEvent>)
    ensures events == EventsFrom(trackinfo)
  {
    events := [];
    var i := 0;
    while i < |trackinfo|
      invariant 0 <= i <= |trackinfo|
      invariant events == EventsFrom(trackinfo[..i])
    {
      var entry := trackinfo[i];
      var detail := Detail(entry);
      var checkpoint := Checkpoint(entry);
      var date := EventDate(entry);
      var office := entry.location.GetOr("");
      var location;
      if office != "" && detail != "" {
        location := office + " - " + detail;
      } else if office != "" {
        location := office;
      } else if detail != "" {
        location := detail;
      } else {
        location := "Unknown location";
      }
      var ev := TrackingEvent(location, checkpoint, date);
      assert ev == ToEvent(entry);
      if location != "" || checkpoint != "" {
        events := events + [ev];
      }
      assert trackinfo[..i + 1][..i] == trackinfo[..i];
      assert trackinfo[..i + 1][i] == entry;
      i := i + 1;
    }
    assert trackinfo[..i] == trackinfo;
  }

  /** The origin block: from `origin_info`, else the location of the last event. */
  method ComposeOrigin(info: Option<OriginInfo>, events: seq<TrackingEvent>) returns (origin: string)
    ensures origin == OriginOf(info, events)
  {
    origin := OriginFromInfo(info);
    if origin == "" && events != [] {
      origin := events[|events| - 1].location;
    }
  }

  /** The destination block: address parts appended one by one, then the fallbacks. */
  method ComposeDestination(info: Option<DestinationInfo>, friendlyStatus: string, events: seq<TrackingEvent>)
    returns (destination: string)
    ensures destination == DestinationOf(info, friendlyStatus, events)
  {
    destination := "";
    if info.Some? {
      var d := info.value;
      var city, state, postal := d.recipientCity.GetOr(""), d.recipientState.GetOr(""), d.recipientPostal.GetOr("");
      var destParts: seq<string> := [];
      if city != "" {
        destParts := destParts + [city];
      }
      if state != "" && state != city {
        destParts := destParts + [state];
      }
      if postal != "" {
        destParts := destParts + [postal];
      }
      assert destParts == DestinationParts(city, state, postal);
      if destParts != [] {
        destination := Join(destParts, ", ");
      } else if d.recipientAddress.GetOr("") != "" {
        destination := d.recipientAddress.GetOr("");
      }
    }
    if destination == "" && events != [] && Lower(friendlyStatus) == "delivered" {
      destination := events[0].location;
    }
  }

  method NormalizeTrackingData(trackingNumber: string, data: RawTracking, parse: string -> Option<nat>)
    returns (r: TrackingResponse)
    ensures r.trackingNumber == trackingNumber && r.carrier == "India Post"
    ensures r.events == ArrangeEvents(EventsFrom(TrackInfo(data)), parse)
    ensures r.status == FriendlyStatus(RawStatus(data))
    ensures r.origin == OriginOf(data.originInfo, r.events)
    ensures r.destination == DestinationOf(data.destinationInfo, r.status, r.events)
    ensures r.lastUpdated == LastUpdated(data)
    ensures r.delayInfo.None? && r.smartSummary.None?
  {
    var events := CollectEvents(TrackInfo(data));
    events := ArrangeEvents(events, parse);

    var status := RawStatus(data);
    var friendlyStatus := FriendlyStatus(status);

    var origin := ComposeOrigin(data.originInfo, events);

    var destination := ComposeDestination(data.destinationInfo, friendlyStatus, events);

    r := TrackingResponse(trackingNumber, friendlyStatus, LastUpdated(data),
      carrier := "India Post", origin := origin, destination := destination, events := events);
  }

  // ----- properties -------------------------------------------------------

  /** The normalised events are exactly the `trackinfo` entries, one each, possibly reordered by the sort. */
  lemma EventsArePermutationOfEntries(data: RawTracking, parse: string -> Option<nat>)
    ensures |ArrangeEvents(EventsFrom(TrackInfo(data)), parse)| == |TrackInfo(data)|
    ensures forall e :: e in ArrangeEvents(EventsFrom(TrackInfo(data)), parse) <==>
      exists i :: 0 <= i < |TrackInfo(data)| && e == ToEvent(TrackInfo(data)[i])
  {
    var t := TrackInfo(data);
    EveryEntryYieldsOneEvent(t);
    EventsAreEntries(t);
    SameMembers(ArrangeEvents(EventsFrom(t), parse), EventsFrom(t));
  }

  /** Before the sort, the events are the converted entries. */
  lemma EventsAreEntries(t: seq<RawEvent>)
    ensures forall e :: e in EventsFrom(t) <==> exists i :: 0 <= i < |t| && e == ToEvent(t[i])
  {
    EveryEntryYieldsOneEvent(t);
    var evs := EventsFrom(t);
    forall e ensures e in evs <==> exists i :: 0 <= i < |t| && e == ToEvent(t[i]) {
      if e in evs {
        var i :| 0 <= i < |evs| && evs[i] == e;
        assert e == ToEvent(t[i]);
      }
      if exists i :: 0 <= i < |t| && e == ToEvent(t[i]) {
        var i :| 0 <= i < |t| && e == ToEvent(t[i]);
        assert evs[i] == e;
      }
    }
  }

  /** Two sequences with the same multiset have the same length and the same members. */
  lemma SameMembers(r: seq<TrackingEvent>, s: seq<TrackingEvent>)
    requires multiset(r) == multiset(s)
    ensures |r| == |s|
    ensures forall e :: e in r <==> e in s
  {
    assert |r| == |multiset(r)| == |multiset(s)| == |s|;
    forall e ensures e in r <==> e in s {
      assert e in r <==> e in multiset(r);
      assert e in s <==> e in multiset(s);
    }
  }

  /**
   * Without origin fields, the origin is the location of the oldest event:
   * once the sort has succeeded no event has an earlier timestamp.  The origin
   * is empty only when there are neither origin fields nor events.
   */
  lemma OriginIsOldestEvent(info: Option<OriginInfo>, events: seq<TrackingEvent>, parse: string -> Option<nat>)
    requires OriginFromInfo(info) == ""
    requires forall e :: e in events ==> e.location != ""
    ensures OriginOf(info, events) == "" <==> events == []
    ensures events != [] && NewestFirst(events, parse) ==>
      exists e :: e in events && OriginOf(info, events) == e.location
        && forall f :: f in events ==> Key(e, parse) <= Key(f, parse)
  {
    if events != [] {
      assert events[|events| - 1] in events;
      if NewestFirst(events, parse) {
        NewestFirstEnds(events, parse);
      }
    }
  }

  /**
   * Without destination fields, a delivered shipment's destination is the
   * location of its newest event; any other status leaves it empty.
   */
  lemma DestinationOfDelivered(info: Option<DestinationInfo>, raw: string, events: seq<TrackingEvent>, parse: string -> Option<nat>)
    requires DestinationFromInfo(info) == ""
    requires events != [] && NewestFirst(events, parse)
    ensures var d := DestinationOf(info, FriendlyStatus(raw), events);
      (Lower(raw) == "delivered" ==> d == events[0].location && forall f :: f in events ==> Key(events[0], parse) >= Key(f, parse))
      && (Lower(raw) != "delivered" ==> d == "")
  {
    DeliveredCheck(raw);
    NewestFirstEnds(events, parse);
  }

  /** The lower-cased friendly status is "delivered" exactly for a delivered upstream status. */
  lemma DeliveredCheck(raw: string)
    ensures Lower(FriendlyStatus(raw)) == "delivered" <==> Lower(raw) == "delivered"
  {
    var f := FriendlyStatus(raw);
    FriendlyStatusDelivered(raw);
    if Lower(raw) == "delivered" {
      LowerOfDelivered();
    } else if Lower(raw) in StatusTable {
      var v := StatusTable[Lower(raw)];
      assert v != "Delivered";
      assert Lower(v) != "delivered" by {
        assert Lower(v)[0] == LowerChar(v[0]);
        if |v| == 9 { assert v == "Exception" || v == "Not Found"; }
      }
    }
  }
}
