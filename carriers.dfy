/**
 * backend/carriers.py: the six carrier services, the factory that looks one
 * up by code, and the `normalize_data` every service shares.  The six
 * `normalize_data` bodies differ only in the carrier name they write, so the
 * model has one operation parameterised by the carrier.  The TrackingMore
 * requests of each service (`create_tracking`, `get_tracking`) are not part of
 * this model.
 */
module Carriers {
  import opened Wrappers
  import opened Text
  import opened Models
  import opened Upstream
  import Normalize
  import TrackingApi

  datatype Carrier = IndiaPost | Delhivery | BlueDart | Dtdc | EcomExpress | Ekart

  /** `_carrier_code` of each service. */
  function Code(c: Carrier): string {
    match c
    case IndiaPost => "india-post"
    case Delhivery => "delhivery"
    case BlueDart => "bluedart"
    case Dtdc => "dtdc"
    case EcomExpress => "ecom-express"
    case Ekart => "ekart"
  }

  /** `_carrier_name` of each service. */
  function Name(c: Carrier): string {
    match c
    case IndiaPost => "India Post"
    case Delhivery => "Delhivery"
    case BlueDart => "Blue Dart"
    case Dtdc => "DTDC"
    case EcomExpress => "Ecom Express"
    case Ekart => "Ekart Logistics"
  }

  /** The keys of `CarrierServiceFactory._services`, in declaration order. */
  const Services: seq<Carrier> := [IndiaPost, Delhivery, BlueDart, Dtdc, EcomExpress, Ekart]

  /** Every service is registered. */
  lemma AllRegistered()
    ensures forall c: Carrier :: c in Services
  {
    forall c: Carrier ensures c in Services {
      match c
      case IndiaPost => assert Services[0] == c;
      case Delhivery => assert Services[1] == c;
      case BlueDart => assert Services[2] == c;
      case Dtdc => assert Services[3] == c;
      case EcomExpress => assert Services[4] == c;
      case Ekart => assert Services[5] == c;
    }
  }

  /** The first service in `services` registered under `key`. */
  function Find(services: seq<Carrier>, key: string): (r: Option<Carrier>)
    ensures r.Some? ==> r.value in services && Code(r.value) == key
    ensures r.None? ==> forall c :: c in services ==> Code(c) != key
  {
    if services == [] then None
    else if Code(services[0]) == key then Some(services[0])
    else Find(services[1..], key)
  }

  /** `get_service`: the service registered under the lower-cased code, or the "not supported" error naming the code as given. */
  function GetService(code: string): (r: Result<Carrier, string>)
    ensures r.Success? ==> Code(r.value) == Lower(code)
    ensures r.Failure? ==> r.error == "Carrier '" + code + "' is not supported"
    ensures r.Failure? <==> forall c: Carrier :: Code(c) != Lower(code)
  {
    match Find(Services, Lower(code))
    case Some(c) => Success(c)
    case None =>
      AllRegistered();
      Failure("Carrier '" + code + "' is not supported")
  }

  /** `supported_carriers`: the registry keys in declaration order, each of which resolves to its own service. */
  function SupportedCarriers(): (codes: seq<string>)
    ensures |codes| == |Services|
    ensures forall i :: 0 <= i < |Services| ==> codes[i] == Code(Services[i])
  {
    CodesOf(Services)
  }

  function CodesOf(services: seq<Carrier>): (codes: seq<string>)
    ensures |codes| == |services|
    ensures forall i :: 0 <= i < |services| ==> codes[i] == Code(services[i])
  {
    if services == [] then [] else [Code(services[0])] + CodesOf(services[1..])
  }

  lemma CodeIsLower(c: Carrier)
    ensures Lower(Code(c)) == Code(c)
  {
    var s := Code(c);
    assert forall i :: 0 <= i < |s| ==> !IsUpper(s[i]);
    LowerOfLowercase(s);
  }

  /** Each service's own code looks that service up. */
  lemma GetServiceOfCode(c: Carrier)
    ensures GetService(Code(c)) == Success(c)
  {
    CodeIsLower(c);
    var r := GetService(Code(c));
    assert r.Success?;
    CodeInjective(r.value, c);
  }

  /** No two services share a code: the six codes even differ in length. */
  lemma CodeInjective(c1: Carrier, c2: Carrier)
    requires Code(c1) == Code(c2)
    ensures c1 == c2
  {
    assert |Code(c1)| == |Code(c2)|;
  }

  /** The lookup ignores letter case: "INDIA-POST" finds the same service as "india-post". */
  lemma GetServiceIgnoresCase(code: string, c: Carrier)
    requires Lower(code) == Code(c)
    ensures GetService(code) == Success(c)
  {
  }

  /** A code resolves exactly when its lower-cased form is one of the supported codes. */
  lemma SupportedExactly(code: string)
    ensures GetService(code).Success? <==> Lower(code) in SupportedCarriers()
  {
    var codes := SupportedCarriers();
    if Lower(code) in codes {
      var i :| 0 <= i < |codes| && codes[i] == Lower(code);
      assert Code(Services[i]) == Lower(code);
    }
    if GetService(code).Success? {
      var c := GetService(code).value;
      assert c in Services;
      var i :| 0 <= i < |Services| && Services[i] == c;
      assert codes[i] == Lower(code);
    }
  }

  /** The factory's codes are the codes the `/api/carriers` endpoint lists, in the same order. */
  lemma SupportedMatchesEndpointList()
    ensures SupportedCarriers() == TrackingApi.CarrierCodes(TrackingApi.CarrierList)
  {
  }

  // ----- normalize_data ----------------------------------------------------

  /** The dictionary `normalize_data` returns. */
  datatype CarrierRecord = CarrierRecord(
    carrier: string, status: string, origin: string, destination: string,
    lastUpdated: string, events: seq<TrackingEvent>)

  /** `tracking_detail`, else `Details`, where "Unknown location" stands in only for an absent `Details`. */
  function CarrierDetail(e: RawEvent): string {
    Or(e.trackingDetail.GetOr(""), e.details.GetOr("Unknown location"))
  }

  function CarrierEvent(e: RawEvent): TrackingEvent {
    TrackingEvent(CarrierDetail(e), Normalize.Checkpoint(e), Normalize.EventDate(e))
  }

  /** The events the loop appends: one per entry with a detail or a checkpoint, in `trackinfo` order. */
  function CarrierEventsFrom(t: seq<RawEvent>): (events: seq<TrackingEvent>)
    ensures |events| <= |t|
    ensures forall i :: 0 <= i < |events| ==> Normalize.Kept(events[i])
  {
    if t == [] then []
    else
      var ev := CarrierEvent(t[|t| - 1]);
      CarrierEventsFrom(t[..|t| - 1]) + (if Normalize.Kept(ev) then [ev] else [])
  }

  /** An event is listed exactly when some `trackinfo` entry yields it and it has a location or a status. */
  lemma {:induction false} CarrierEventsAreKeptEntries(t: seq<RawEvent>)
    ensures forall ev :: ev in CarrierEventsFrom(t) <==>
      exists i :: 0 <= i < |t| && ev == CarrierEvent(t[i]) && Normalize.Kept(ev)
  {
    if t != [] {
      var p := t[..|t| - 1];
      CarrierEventsAreKeptEntries(p);
      var last := CarrierEvent(t[|t| - 1]);
      assert CarrierEventsFrom(t) == CarrierEventsFrom(p) + (if Normalize.Kept(last) then [last] else []);
      forall ev
        ensures ev in CarrierEventsFrom(t) <==> exists i :: 0 <= i < |t| && ev == CarrierEvent(t[i]) && Normalize.Kept(ev)
      {
        if ev in CarrierEventsFrom(p) {
          var i :| 0 <= i < |p| && ev == CarrierEvent(p[i]) && Normalize.Kept(ev);
          assert t[i] == p[i];
        }
        if exists i :: 0 <= i < |t| && ev == CarrierEvent(t[i]) && Normalize.Kept(ev) {
          var i :| 0 <= i < |t| && ev == CarrierEvent(t[i]) && Normalize.Kept(ev);
          if i < |t| - 1 {
            assert p[i] == t[i];
          }
        }
      }
    }
  }

  /** The loop works entry by entry: the events of a split list are the events of each part, in order. */
  lemma {:induction false} CarrierEventsFromAppend(a: seq<RawEvent>, b: seq<RawEvent>)
    ensures CarrierEventsFrom(a + b) == CarrierEventsFrom(a) + CarrierEventsFrom(b)
  {
    if b == [] {
      assert a + b == a;
    } else {
      var b' := b[..|b| - 1];
      assert (a + b)[..|a + b| - 1] == a + b' && (a + b)[|a + b| - 1] == b[|b| - 1];
      CarrierEventsFromAppend(a, b');
    }
  }

  /** The last event's location, or "" without events. */
  function CarrierOrigin(events: seq<TrackingEvent>): string {
    if events != [] then events[|events| - 1].location else ""
  }

  /** `recipient_address` of `destination_info`, or "". */
  function CarrierDestination(info: Option<DestinationInfo>): string {
    match info
    case Some(d) => d.recipientAddress.GetOr("")
    case None => ""
  }

  /** `update_at`, else `updated_at`. */
  function CarrierLastUpdated(data: RawTracking): string {
    Or(data.updateAt.GetOr(""), data.updatedAt.GetOr(""))
  }

  /** `normalize_data` of the service for `c`. */
  method NormalizeData(c: Carrier, raw: RawTracking) returns (r: CarrierRecord)
    ensures r.carrier == Name(c)
    ensures r.events == CarrierEventsFrom(TrackInfo(raw))
    ensures r.status == FriendlyStatus(RawStatus(raw))
    ensures r.origin == CarrierOrigin(r.events)
    ensures r.destination == CarrierDestination(raw.destinationInfo)
    ensures r.lastUpdated == CarrierLastUpdated(raw)
  {
    var events := CollectEvents(TrackInfo(raw));
    var friendlyStatus := FriendlyStatus(RawStatus(raw));
    var origin := if events != [] then events[|events| - 1].location else "";
    var destination := CarrierDestination(raw.destinationInfo);
    var lastUpdated := CarrierLastUpdated(raw);
    r := CarrierRecord(Name(c), friendlyStatus, origin, destination, lastUpdated, events);
  }

  /** The loop of `normalize_data` over `trackinfo`: one event per entry that has a detail or a checkpoint, in order. */
  method CollectEvents(trackinfo: seq<RawEvent>) returns (events: seq<TrackingEvent>)
    ensures events == CarrierEventsFrom(trackinfo)
  {
    events := [];
    var i := 0;
    while i < |trackinfo|
      invariant 0 <= i <= |trackinfo|
      invariant events == CarrierEventsFrom(trackinfo[..i])
    {
      var entry := trackinfo[i];
      var detail := CarrierDetail(entry);
      var checkpoint := Normalize.Checkpoint(entry);
      var date := Normalize.EventDate(entry);
      if detail != "" || checkpoint != "" {
        events := events + [TrackingEvent(detail, checkpoint, date)];
      }
      assert trackinfo[..i + 1][..i] == trackinfo[..i];
      assert trackinfo[..i + 1][i] == entry;
      i := i + 1;
    }
    assert trackinfo[..i] == trackinfo;
  }

  /**
   * An entry is dropped exactly when it has no `tracking_detail`, a `Details`
   * key that is present but empty, and no checkpoint; an entry without a
   * `Details` key is always kept.
   */
  lemma DroppedExactly(e: RawEvent)
    ensures !Normalize.Kept(CarrierEvent(e)) <==>
      e.trackingDetail.GetOr("") == "" && e.details == Some("") && Normalize.Checkpoint(e) == ""
  {
  }

  /** Every entry yields one event when no entry is blank, and then in order. */
  lemma {:induction false} NoBlankEntriesAllKept(t: seq<RawEvent>)
    requires forall i :: 0 <= i < |t| ==> Normalize.Kept(CarrierEvent(t[i]))
    ensures CarrierEventsFrom(t) == CarrierEventsOf(t)
  {
    if t != [] {
      var p := t[..|t| - 1];
      assert forall i :: 0 <= i < |p| ==> p[i] == t[i];
      NoBlankEntriesAllKept(p);
      assert CarrierEventsOf(t) == CarrierEventsOf(p) + [CarrierEvent(t[|t| - 1])];
    }
  }

  /** One event per entry, unfiltered. */
  function CarrierEventsOf(t: seq<RawEvent>): (events: seq<TrackingEvent>)
    ensures |events| == |t|
    ensures forall i :: 0 <= i < |t| ==> events[i] == CarrierEvent(t[i])
  {
    if t == [] then [] else CarrierEventsOf(t[..|t| - 1]) + [CarrierEvent(t[|t| - 1])]
  }

  /**
   * The two normalisers disagree on the last-update field: the endpoint reads
   * `update_date`, the carrier services `update_at`, so a record with only
   * `update_date` has a last update in one and none in the other.
   */
  lemma LastUpdatedSourcesDiffer()
    ensures var raw := RawTracking(None, None, None, None, Some("2026-01-28"), None, None, None);
      Normalize.LastUpdated(raw) == "2026-01-28" && CarrierLastUpdated(raw) == ""
  {
  }
}
