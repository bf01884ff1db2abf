/**
 * The browser's localStorage as the front end sees it: a map from keys to
 * stored values, whose calls can throw.  A value is text, which `JSON.parse`
 * either rejects or reads as something other than an array, or the JSON text
 * of an array of strings, which is how the recent-search list is kept.
 */
module BrowserStorage {
  import opened Wrappers
  import opened Text

  datatype Stored =
    | Text(text: string)                // "" or text that `JSON.parse` rejects
    | Json(text: string)                // the JSON of a value that is not an array: null, a number, a string, an object
    | StringList(items: seq<string>)    // `JSON.stringify` of an array of strings

  const AccessDenied := "SecurityError: access to localStorage is denied"

  /** `"` + s + `"`; escaping of quotes and control characters is not modelled. */
  function Quoted(s: string): string {
    "\"" + s + "\""
  }

  /** Each item in quotes, in order. */
  function QuotedAll(items: seq<string>): (r: seq<string>)
    ensures |r| == |items|
    ensures forall i :: 0 <= i < |items| ==> r[i] == Quoted(items[i])
  {
    if items == [] then [] else [Quoted(items[0])] + QuotedAll(items[1..])
  }

  /** The text `getItem` hands back for a stored value. */
  function TextOf(v: Stored): (r: string)
    ensures v.Text? ==> r == v.text
    ensures v.Json? ==> r == v.text
    ensures v.StringList? ==> |r| >= 2 && r[0] == '[' && r[|r| - 1] == ']'
    ensures v.StringList? ==> r == "[" + Join(QuotedAll(v.items), ",") + "]"
    ensures v == StringList([]) ==> r == "[]"
  {
    match v
    case Text(t) => t
    case Json(t) => t
    case StringList(items) => "[" + Join(QuotedAll(items), ",") + "]"
  }

  /**
   * localStorage.  When `accessible` is false (storage disabled by the user
   * or the browser) every call throws; when `writable` is false `setItem`
   * throws (the quota is exhausted).
   */
  class LocalStorage {
    var entries: map<string, Stored>
    var accessible: bool
    var writable: bool

    constructor(entries: map<string, Stored>, accessible: bool, writable: bool)
      ensures this.entries == entries && this.accessible == accessible && this.writable == writable
    {
      this.entries := entries;
      this.accessible := accessible;
      this.writable := writable;
    }

    /** `getItem(key)`: the stored value, `None` for a missing key, or the thrown error. */
    function GetItem(key: string): (r: Result<Option<Stored>, string>)
      reads this
      ensures r.Success? <==> accessible
      ensures r.Success? ==> (r.value.Some? <==> key in entries)
      ensures r.Success? && key in entries ==> r.value.value == entries[key]
    {
      if !accessible then Failure(AccessDenied)
      else if key in entries then Success(Some(entries[key]))
      else Success(None)
    }

    /** `setItem(key, value)`; `ok` is false when the call throws, and then nothing is stored. */
    method SetItem(key: string, value: Stored) returns (ok: bool)
      modifies this
      ensures ok == (old(accessible) && old(writable))
      ensures accessible == old(accessible) && writable == old(writable)
      ensures entries == if ok then old(entries)[key := value] else old(entries)
    {
      ok := accessible && writable;
      if ok {
        entries := entries[key := value];
      }
    }

    /** `removeItem(key)`; `ok` is false when the call throws. */
    method RemoveItem(key: string) returns (ok: bool)
      modifies this
      ensures ok == old(accessible)
      ensures accessible == old(accessible) && writable == old(writable)
      ensures entries == if ok then old(entries) - {key} else old(entries)
    {
      ok := accessible;
      if ok {
        entries := entries - {key};
      }
    }
  }
}

/**
 * frontend/src/utils/storage.js: the recent-search list, newest first,
 * without repeats and at most ten long, kept under one localStorage key.
 */
module RecentSearches {
  import opened Wrappers
  import opened BrowserStorage

  const StorageKey := "dakdash-recent-searches"
  const MaxRecent := 10

  /**
   * `stored ? JSON.parse(stored) : []`, with a parse error caught as [].  A
   * parsed value that is not an array is read as [] here; the source hands
   * that value on as it is.
   */
  function Parse(stored: Option<Stored>): seq<string> {
    match stored
    case Some(StringList(items)) => items
    case Some(Text(_)) => []  // "" is falsy; other such text makes JSON.parse throw
    case Some(Json(_)) => []
    case None => []
  }

  /** `getRecentSearches`: the stored list, or [] when the key is missing, unreadable or not a JSON array. */
  function GetRecentSearches(store: LocalStorage): (r: seq<string>)
    reads store
    ensures r != [] ==> store.accessible && StorageKey in store.entries
                        && store.entries[StorageKey] == StringList(r)
    ensures store.accessible && StorageKey in store.entries && store.entries[StorageKey].StringList?
            ==> r == store.entries[StorageKey].items
  {
    match store.GetItem(StorageKey)
    case Success(v) => Parse(v)
    case Failure(_) => []
  }

  /** `recent.filter(num => num !== n)`. */
  function Without(recent: seq<string>, n: string): (r: seq<string>)
    ensures |r| <= |recent|
    ensures forall x :: x in r <==> x in recent && x != n
    ensures n !in recent ==> r == recent
  {
    if recent == [] then []
    else (if recent[0] == n then [] else [recent[0]]) + Without(recent[1..], n)
  }

  /** Filtering a concatenation filters each part: the kept entries keep their relative order. */
  lemma {:induction false} WithoutAppend(a: seq<string>, b: seq<string>, n: string)
    ensures Without(a + b, n) == Without(a, n) + Without(b, n)
  {
    if a == [] {
      assert a + b == b;
    } else {
      assert (a + b)[0] == a[0] && (a + b)[1..] == a[1..] + b;
      WithoutAppend(a[1..], b, n);
    }
  }

  /** In a list without repeats, filtering out the entry at `k` leaves the entries before it and after it, in order. */
  lemma WithoutAt(recent: seq<string>, n: string, k: nat)
    requires Distinct(recent) && k < |recent| && recent[k] == n
    ensures Without(recent, n) == recent[..k] + recent[k + 1..]
  {
    OnlyAt(recent, k);
    assert recent == recent[..k] + [n] + recent[k + 1..];
    WithoutOne(recent[..k], recent[k + 1..], n);
  }

  /** Filtering out a number that occurs once, between `before` and `after`, leaves `before + after`. */
  lemma WithoutOne(before: seq<string>, after: seq<string>, n: string)
    requires n !in before && n !in after
    ensures Without(before + [n] + after, n) == before + after
  {
    var single := [n];
    assert before + [n] + after == before + (single + after);
    WithoutAppend(before, single + after, n);
    WithoutAppend(single, after, n);
    assert Without(single, n) == [] by {
      assert single[0] == n && single[1..] == [];
    }
  }

  /** In a list without repeats, the entry at `k` occurs neither before nor after `k`. */
  lemma OnlyAt(recent: seq<string>, k: nat)
    requires Distinct(recent) && k < |recent|
    ensures recent[k] !in recent[..k] && recent[k] !in recent[k + 1..]
  {
    var before, after := recent[..k], recent[k + 1..];
    forall i | 0 <= i < |before| ensures before[i] != recent[k] { assert before[i] == recent[i]; }
    forall i | 0 <= i < |after| ensures after[i] != recent[k] { assert after[i] == recent[k + 1 + i]; }
  }

  /**
   * `[n, ...filtered].slice(0, MAX_RECENT)`: `n` first and only there, then
   * the earlier entries in their order, cut to ten.
   */
  function WithRecent(recent: seq<string>, n: string): (r: seq<string>)
    ensures 1 <= |r| <= MaxRecent
    ensures |r| == if 1 + |Without(recent, n)| > MaxRecent then MaxRecent else 1 + |Without(recent, n)|
    ensures r[0] == n
    ensures forall i :: 1 <= i < |r| ==> r[i] != n
    ensures forall x :: x in r ==> x == n || x in recent
    ensures r[1..] == Without(recent, n)[..|r| - 1]
  {
    var updated := [n] + Without(recent, n);
    var r := if |updated| > MaxRecent then updated[..MaxRecent] else updated;
    assert r[1..] == Without(recent, n)[..|r| - 1] by {
      assert r[1..] == updated[1..|r|];
    }
    assert forall i :: 1 <= i < |r| ==> r[i] in Without(recent, n) by {
      forall i | 1 <= i < |r| ensures r[i] in Without(recent, n) {
        assert r[i] == Without(recent, n)[i - 1];
      }
    }
    r
  }

  predicate Distinct(s: seq<string>) {
    forall i, j :: 0 <= i < j < |s| ==> s[i] != s[j]
  }

  /** Filtering keeps the remaining entries distinct. */
  lemma {:induction false} WithoutKeepsDistinct(recent: seq<string>, n: string)
    requires Distinct(recent)
    ensures Distinct(Without(recent, n))
  {
    if recent != [] {
      var rest := recent[1..];
      assert Distinct(rest) by {
        forall i, j | 0 <= i < j < |rest| ensures rest[i] != rest[j] {
          assert rest[i] == recent[i + 1] && rest[j] == recent[j + 1];
        }
      }
      WithoutKeepsDistinct(rest, n);
      assert recent[0] !in rest;
      assert recent[0] !in Without(rest, n);
    }
  }

  /** A list without repeats stays without repeats. */
  lemma WithRecentKeepsDistinct(recent: seq<string>, n: string)
    requires Distinct(recent)
    ensures Distinct(WithRecent(recent, n))
  {
    WithoutKeepsDistinct(recent, n);
    var w := Without(recent, n);
    var r := WithRecent(recent, n);
    forall i, j | 0 <= i < j < |r| ensures r[i] != r[j] {
      if i > 0 {
        assert r[i] == w[i - 1] && r[j] == w[j - 1];
      }
    }
  }

  /** Searching for the same number twice in a row stores what one search stores. */
  lemma WithRecentIdempotent(recent: seq<string>, n: string)
    ensures WithRecent(WithRecent(recent, n), n) == WithRecent(recent, n)
  {
    var r := WithRecent(recent, n);
    assert n !in r[1..];
    assert Without(r, n) == r[1..] by {
      WithoutHead(r, n);
    }
    assert [n] + r[1..] == r;
  }

  lemma WithoutHead(r: seq<string>, n: string)
    requires r != [] && r[0] == n && n !in r[1..]
    ensures Without(r, n) == r[1..]
  {
  }

  /** Below the limit nothing is lost: every earlier entry is still listed. */
  lemma WithRecentBelowLimit(recent: seq<string>, n: string)
    requires |recent| < MaxRecent
    ensures forall x :: x in recent ==> x in WithRecent(recent, n)
  {
    var w := Without(recent, n);
    var r := WithRecent(recent, n);
    assert r == [n] + w;
    forall x | x in recent ensures x in r {
      if x != n {
        assert x in w;
      }
    }
  }

  /** With ten distinct entries and a new number, the oldest entry is dropped and the rest shift down. */
  lemma WithRecentDropsOldest(recent: seq<string>, n: string)
    requires |recent| == MaxRecent && n !in recent
    ensures WithRecent(recent, n) == [n] + recent[..MaxRecent - 1]
  {
  }

  /** A number already listed moves to the front; the others keep their order (and a list of at most ten keeps its length). */
  lemma WithRecentMovesToFront(recent: seq<string>, n: string, k: nat)
    requires Distinct(recent) && |recent| <= MaxRecent && k < |recent| && recent[k] == n
    ensures WithRecent(recent, n) == [n] + recent[..k] + recent[k + 1..]
  {
    WithoutAt(recent, n, k);
    var r := WithRecent(recent, n);
    assert r == [n] + r[1..];
  }

  /** The key holds the JSON of a value that is not an array, on which `recent.filter` throws. */
  predicate HoldsNonArray(store: LocalStorage)
    reads store
  {
    store.accessible && StorageKey in store.entries && store.entries[StorageKey].Json?
  }

  /** `addRecentSearch` records the number: storage works and the stored value is not a non-array. */
  predicate CanRecord(store: LocalStorage)
    reads store
  {
    store.accessible && store.writable && !HoldsNonArray(store)
  }

  /**
   * `addRecentSearch`: store and return the updated list, or return [] and
   * store nothing when a call throws (storage fails, or the stored value is
   * not an array and has no `filter`).
   */
  method AddRecentSearch(store: LocalStorage, n: string) returns (r: seq<string>)
    modifies store
    ensures store.accessible == old(store.accessible) && store.writable == old(store.writable)
    ensures old(CanRecord(store)) ==>
      r == WithRecent(old(GetRecentSearches(store)), n)
      && store.entries == old(store.entries)[StorageKey := StringList(r)]
      && GetRecentSearches(store) == r
    ensures !old(CanRecord(store)) ==> r == [] && store.entries == old(store.entries)
  {
    if HoldsNonArray(store) {
      return [];
    }
    var recent := GetRecentSearches(store);
    var updated := WithRecent(recent, n);
    var ok := store.SetItem(StorageKey, StringList(updated));
    if !ok {
      return [];
    }
    r := updated;
  }

  /** `clearRecentSearches`: remove the key; a later read gives [].  A thrown error is swallowed. */
  method ClearRecentSearches(store: LocalStorage)
    modifies store
    ensures store.accessible == old(store.accessible) && store.writable == old(store.writable)
    ensures store.entries == if store.accessible then old(store.entries) - {StorageKey} else old(store.entries)
    ensures GetRecentSearches(store) == []
    ensures forall k :: k != StorageKey ==> (k in store.entries <==> k in old(store.entries))
  {
    var _ := store.RemoveItem(StorageKey);
  }
}
