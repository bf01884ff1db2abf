/**
 * frontend/src/pages/TrackingPage.jsx: the tracking page's state and its
 * handlers.  `handleTrack` awaits one request; the model splits it at the
 * `await` into `HandleTrack` (validation and the state set before the call)
 * and `CompleteTrack` (the state set when the call settles).  No check ties a
 * completion to the latest request: like the source, a completion applies
 * whatever query it belongs to.
 */
module TrackingPage {
  import opened Wrappers
  import opened Text
  import opened Models
  import opened BrowserStorage
  import opened Navigation
  import RecentSearches
  import Validation
  import ApiClient

  const DefaultCarrier := "india-post"
  const FetchFailed := "Failed to fetch tracking information"

  /** The request `handleTrack` makes: the number as typed and the carrier code. */
  datatype Query = Query(number: string, carrier: string)

  class Page {
    /** The URL's `number` and `carrier` at mount, with their defaults. */
    const initialNumber: string
    const initialCarrier: string

    var trackingNumber: string         // the input box
    const carrier: string              // `setCarrier` is never called on this page
    var loading: bool
    var error: Option<string>
    var trackingData: Option<TrackingResponse>
    var lastRefreshed: Option<int>     // the time of the last success, in ms

    const store: LocalStorage
    const history: History

    /** While a request runs, the page shows no error and no data. */
    predicate Valid()
      reads this
    {
      loading ==> error.None? && trackingData.None?
    }

    /** The first render: state from the URL's query parameters. */
    constructor(numberParam: Option<string>, carrierParam: Option<string>, store: LocalStorage, history: History)
      ensures initialNumber == numberParam.GetOr("") && trackingNumber == initialNumber
      ensures initialCarrier == (if carrierParam.GetOr("") != "" then carrierParam.GetOr("") else DefaultCarrier)
      ensures carrier == initialCarrier
      ensures !loading && error.None? && trackingData.None? && lastRefreshed.None?
      ensures this.store == store && this.history == history
      ensures Valid()
    {
      initialNumber := numberParam.GetOr("");
      initialCarrier := if carrierParam.GetOr("") != "" then carrierParam.GetOr("") else DefaultCarrier;
      trackingNumber := numberParam.GetOr("");
      carrier := if carrierParam.GetOr("") != "" then carrierParam.GetOr("") else DefaultCarrier;
      loading := false;
      error := None;
      trackingData := None;
      lastRefreshed := None;
      this.store := store;
      this.history := history;
    }

    /** `handleTrack` up to the request: validate, then start loading and clear the old result. */
    method HandleTrack(number: string, selectedCarrier: string) returns (q: Option<Query>)
      requires !loading
      modifies this
      ensures Validation.CheckInput(number).Some? ==>
        q.None? && error == Validation.CheckInput(number)
        && loading == old(loading) && trackingData == old(trackingData)
      ensures Validation.CheckInput(number).None? ==>
        q == Some(Query(number, selectedCarrier)) && loading && error.None? && trackingData.None?
      ensures trackingNumber == old(trackingNumber) && lastRefreshed == old(lastRefreshed)
      ensures Valid()
    {
      var problem := Validation.CheckInput(number);
      if problem.Some? {
        error := problem;
        return None;
      }
      loading := true;
      error := None;
      trackingData := None;
      q := Some(Query(number, selectedCarrier));
    }

    /**
     * `handleTrack` after the request settles: keep the data, the time, the
     * recent search and the URL, or show the message; loading ends either way.
     */
    method CompleteTrack(q: Query, fetch: ApiClient.Fetch<TrackingResponse>, now: int)
      modifies this, store, history
      ensures !loading && trackingNumber == old(trackingNumber)
      ensures fetch.Fetched? ==>
        trackingData == Some(fetch.value) && lastRefreshed == Some(now) && error == old(error)
        && (old(RecentSearches.CanRecord(store)) ==>
              store.entries == old(store.entries)[RecentSearches.StorageKey :=
                StringList(RecentSearches.WithRecent(old(RecentSearches.GetRecentSearches(store)), q.number))]
              && RecentSearches.GetRecentSearches(store) == RecentSearches.WithRecent(old(RecentSearches.GetRecentSearches(store)), q.number))
        && (!old(RecentSearches.CanRecord(store)) ==> store.entries == old(store.entries))
        && history.entries == Below(old(history.entries)) + [TrackRoute(Some(q.number), Some(q.carrier))]
      ensures fetch.Failed? ==>
        error == Some(ApiClient.ErrorMessage(fetch.failure)) && trackingData == old(trackingData)
        && lastRefreshed == old(lastRefreshed)
        && store.entries == old(store.entries) && history.entries == old(history.entries)
      ensures store.accessible == old(store.accessible) && store.writable == old(store.writable)
      ensures Valid()
    {
      var result := ApiClient.TrackResult(fetch);
      if result.Success? {
        trackingData := Some(result.value);
        lastRefreshed := Some(now);
        var _ := RecentSearches.AddRecentSearch(store, q.number);
        history.Replace(TrackRoute(Some(q.number), Some(q.carrier)));
      } else {
        var message := result.error;
        error := Some(if message != "" then message else FetchFailed);
      }
      loading := false;
    }

    /** The mount effect: track the URL's number once, if there is one. */
    method Mount() returns (q: Option<Query>)
      requires !loading
      modifies this
      ensures initialNumber == "" ==> q.None? && error == old(error) && !loading
      ensures initialNumber != "" ==>
        (q.Some? <==> Validation.CheckInput(initialNumber).None?)
        && (q.None? ==> error == Validation.CheckInput(initialNumber))
      ensures q.Some? ==> q.value == Query(initialNumber, initialCarrier)
      ensures Valid()
    {
      q := None;
      if initialNumber != "" {
        q := HandleTrack(initialNumber, initialCarrier);
      }
    }

    /** `handleNewSearch`: clear the input and the result and go to the bare tracking route. */
    method NewSearch()
      requires !loading
      modifies this, history
      ensures trackingNumber == "" && trackingData.None? && error.None? && lastRefreshed.None?
      ensures loading == old(loading)
      ensures history.entries == old(history.entries) + [TrackRoute(None, None)]
      ensures Valid()
    {
      trackingNumber := "";
      trackingData := None;
      error := None;
      lastRefreshed := None;
      history.Push(TrackRoute(None, None));
    }

    /** `handleRefresh`: track the text now in the input with the page's carrier, unless the input is empty. */
    method Refresh() returns (q: Option<Query>)
      requires !loading
      modifies this
      ensures old(trackingNumber) == "" ==>
        q.None? && error == old(error) && trackingData == old(trackingData) && !loading
      ensures old(trackingNumber) != "" ==>
        (q.Some? <==> Validation.CheckInput(old(trackingNumber)).None?)
        && (q.None? ==> error == Validation.CheckInput(old(trackingNumber)))
      ensures q.Some? ==> q.value == Query(old(trackingNumber), carrier)
      ensures Valid()
    {
      q := None;
      if trackingNumber != "" {
        q := HandleTrack(trackingNumber, carrier);
      }
    }

    /** Typing in the input box replaces its text and hides the error. */
    method EditInput(text: string)
      requires !loading
      modifies this
      ensures trackingNumber == text && error.None?
      ensures loading == old(loading) && trackingData == old(trackingData) && lastRefreshed == old(lastRefreshed)
      ensures Valid()
    {
      trackingNumber := text;
      error := None;
    }

    /** Closing the alert. */
    method DismissError()
      modifies this
      ensures error.None?
      ensures loading == old(loading) && trackingData == old(trackingData) && trackingNumber == old(trackingNumber)
      ensures lastRefreshed == old(lastRefreshed)
      ensures old(Valid()) ==> Valid()
    {
      error := None;
    }
  }

  /** The history entries below the top one. */
  function Below(entries: seq<Route>): (r: seq<Route>)
    ensures entries != [] ==> entries == r + [entries[|entries| - 1]]
    ensures entries == [] ==> r == []
  {
    if entries == [] then [] else entries[..|entries| - 1]
  }

  /** The fallback "Failed to fetch…" is never shown: every failure carries a non-empty message. */
  lemma FailureMessageNeverFallback(f: ApiClient.RequestFailure)
    ensures ApiClient.TrackResult(ApiClient.Failed(f)).error != ""
  {
  }
}
