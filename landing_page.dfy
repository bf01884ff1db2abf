/**
 * frontend/src/pages/LandingPage.jsx: the search box, the carrier picker and
 * the recent-search list of the landing page.
 */
module LandingPage {
  import opened Wrappers
  import opened BrowserStorage
  import opened Navigation
  import RecentSearches
  import Validation
  import ApiClient
  import TrackingApi

  const DefaultCarrier := "india-post"
  /** How many recent searches the list shows. */
  const ShownRecentCount := 5

  class Page {
    var trackingNumber: string
    var carrier: string
    var carriers: seq<TrackingApi.CarrierInfo>
    var error: string                  // "" when there is none
    var recentSearches: seq<string>

    const store: LocalStorage
    const history: History

    constructor(store: LocalStorage, history: History)
      ensures trackingNumber == "" && carrier == DefaultCarrier && carriers == [] && error == ""
      ensures recentSearches == []
      ensures this.store == store && this.history == history
    {
      trackingNumber := "";
      carrier := DefaultCarrier;
      carriers := [];
      error := "";
      recentSearches := [];
      this.store := store;
      this.history := history;
    }

    /** The mount effect: read the recent searches and load the carriers. */
    method Mount(carrierFetch: ApiClient.Fetch<seq<TrackingApi.CarrierInfo>>)
      modifies this
      ensures recentSearches == RecentSearches.GetRecentSearches(store)
      ensures carriers == ApiClient.SupportedCarriers(carrierFetch)
      ensures trackingNumber == old(trackingNumber) && carrier == old(carrier) && error == old(error)
    {
      recentSearches := RecentSearches.GetRecentSearches(store);
      carriers := ApiClient.SupportedCarriers(carrierFetch);
    }

    /**
     * `handleTrack`: refuse bad input with a message and no other effect;
     * otherwise record the search and open the tracking page for it.  The
     * list on screen is not refreshed.
     */
    method HandleTrack(number: string, selectedCarrier: string)
      modifies this, store, history
      ensures Validation.CheckInput(number).Some? ==>
        error == Validation.CheckInput(number).value
        && store.entries == old(store.entries) && history.entries == old(history.entries)
      ensures Validation.CheckInput(number).None? ==>
        error == old(error)
        && (old(RecentSearches.CanRecord(store)) ==>
              store.entries == old(store.entries)[RecentSearches.StorageKey :=
                StringList(RecentSearches.WithRecent(old(RecentSearches.GetRecentSearches(store)), number))]
              && RecentSearches.GetRecentSearches(store) == RecentSearches.WithRecent(old(RecentSearches.GetRecentSearches(store)), number))
        && (!old(RecentSearches.CanRecord(store)) ==> store.entries == old(store.entries))
        && history.entries == old(history.entries) + [TrackRoute(Some(number), Some(selectedCarrier))]
      ensures store.accessible == old(store.accessible) && store.writable == old(store.writable)
      ensures recentSearches == old(recentSearches) && trackingNumber == old(trackingNumber)
      ensures carrier == old(carrier) && carriers == old(carriers)
    {
      var problem := Validation.CheckInput(number);
      if problem.Some? {
        error := problem.value;
        return;
      }
      var _ := RecentSearches.AddRecentSearch(store, number);
      history.Push(TrackRoute(Some(number), Some(selectedCarrier)));
    }

    /** `handleClearHistory`: empty the stored list and the list on screen. */
    method HandleClearHistory()
      modifies this, store
      ensures recentSearches == [] && RecentSearches.GetRecentSearches(store) == []
      ensures store.entries == if store.accessible then old(store.entries) - {RecentSearches.StorageKey} else old(store.entries)
      ensures store.accessible == old(store.accessible) && store.writable == old(store.writable)
      ensures trackingNumber == old(trackingNumber) && carrier == old(carrier) && error == old(error)
    {
      RecentSearches.ClearRecentSearches(store);
      recentSearches := [];
    }

    /** The entries the recent-search list shows: the first five. */
    function ShownRecent(): (shown: seq<string>)
      reads this
      ensures |shown| == if |recentSearches| > ShownRecentCount then ShownRecentCount else |recentSearches|
      ensures shown <= recentSearches
      ensures |recentSearches| <= ShownRecentCount ==> shown == recentSearches
    {
      if |recentSearches| > ShownRecentCount then recentSearches[..ShownRecentCount] else recentSearches
    }

    /** Clicking a shown recent search tracks it with the carrier now selected. */
    method SelectRecent(i: nat)
      requires i < |ShownRecent()|
      modifies this, store, history
      ensures Validation.CheckInput(old(ShownRecent())[i]).None? ==>
        history.entries == old(history.entries) + [TrackRoute(Some(old(ShownRecent())[i]), Some(old(carrier)))]
        && (old(RecentSearches.CanRecord(store)) ==>
              store.entries == old(store.entries)[RecentSearches.StorageKey :=
                StringList(RecentSearches.WithRecent(old(RecentSearches.GetRecentSearches(store)), old(ShownRecent())[i]))])
        && (!old(RecentSearches.CanRecord(store)) ==> store.entries == old(store.entries))
      ensures Validation.CheckInput(old(ShownRecent())[i]).Some? ==>
        history.entries == old(history.entries) && store.entries == old(store.entries)
        && error == Validation.CheckInput(old(ShownRecent())[i]).value
    {
      HandleTrack(ShownRecent()[i], carrier);
    }

    method EditInput(text: string)
      modifies this
      ensures trackingNumber == text && error == ""
      ensures carrier == old(carrier) && recentSearches == old(recentSearches)
    {
      trackingNumber := text;
      error := "";
    }

    method SelectCarrier(code: string)
      modifies this
      ensures carrier == code
      ensures trackingNumber == old(trackingNumber) && error == old(error) && recentSearches == old(recentSearches)
    {
      carrier := code;
    }
  }
}
