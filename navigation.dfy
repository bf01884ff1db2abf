/**
 * The router history the two pages drive with `navigate`: `/` and
 * `/track?number=…&carrier=…`.  Query values are kept decoded, so
 * `encodeURIComponent` followed by the router's decoding is the identity
 * here.
 */
module Navigation {
  import opened Wrappers

  datatype Route =
    | Home
    | TrackRoute(number: Option<string>, carrier: Option<string>)  // `/track` with its query parameters

  /** The browser history: the last entry is the page on screen. */
  class History {
    var entries: seq<Route>

    constructor(start: Route)
      ensures entries == [start]
    {
      entries := [start];
    }

    /** `navigate(route)`: a new entry on top. */
    method Push(r: Route)
      modifies this
      ensures entries == old(entries) + [r]
    {
      entries := entries + [r];
    }

    /** `navigate(route, { replace: true })`: the top entry is swapped, the ones below stay. */
    method Replace(r: Route)
      modifies this
      ensures |old(entries)| > 0 ==> entries == old(entries)[..|old(entries)| - 1] + [r]
      ensures |old(entries)| == 0 ==> entries == [r]
    {
      if entries == [] {
        entries := [r];
      } else {
        entries := entries[..|entries| - 1] + [r];
      }
    }
  }
}
