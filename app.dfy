/**
 * The search hub's state and handlers: the query being typed, the
 * recent-search list, the browser storage that keeps that list across
 * visits, and the tabs the searches open.
 */
module App {
  import opened Wrappers
  import opened Sequences
  import opened Text
  import opened RecentSearches
  import opened PlatformLinks

  /** The storage key under which the recent list is kept. */
  const StorageKey: string := "recentSearches"

  /** The storage as a map from keys to the lists stored under them. */
  type Storage = map<string, seq<string>>

  /** The list kept in `storage`, if there is one. */
  function Stored(storage: Storage): Option<seq<string>> {
    if StorageKey in storage then Some(storage[StorageKey]) else None
  }

  /**
   * What loading reads from `storage`: the stored list, or the empty list
   * when nothing is stored.
   */
  function Loaded(storage: Storage): (r: seq<string>)
    ensures Stored(storage) == None ==> r == []
    ensures Stored(storage) == Some(r) || (r == [] && StorageKey !in storage)
  {
    Stored(storage).GetOr([])
  }

  class SearchHub {
    /** The text in the search box. */
    var query: string
    /** The recent searches shown, most recent first. */
    var recent: seq<string>
    /** The browser storage. */
    var storage: Storage
    /** The URLs opened in new tabs, in the order they were opened. */
    var tabs: seq<string>
    /** Whether the device is a phone or tablet, detected once. */
    const isMobile: bool

    /** The list shown is the list stored (none stored reads as empty). */
    ghost predicate Synced()
      reads this
    {
      recent == Loaded(storage)
    }

    /** The first render: an empty box, an empty list, no tab opened yet. */
    constructor (storage0: Storage, isMobile: bool)
      ensures query == [] && recent == [] && storage == storage0 && tabs == []
      ensures this.isMobile == isMobile
    {
      query := [];
      recent := [];
      storage := storage0;
      tabs := [];
      this.isMobile := isMobile;
    }

    /** The effect that runs once after the first render: show the stored list. */
    method LoadRecent()
      modifies this`recent
      ensures recent == Loaded(storage)
      ensures Synced()
      ensures Stored(storage) == None ==> recent == []
      ensures (forall s :: Stored(storage) == Some(s) ==> WellFormed(s)) ==> WellFormed(recent)
    {
      match Stored(storage)
      case Some(saved) => recent := saved;
      case None => recent := [];
    }

    /** Typing in the box, or picking a recent search. */
    method SetQuery(q: string)
      modifies this`query
      ensures query == q
    {
      query := q;
    }

    /**
     * Remembers `q`: nothing happens for a blank query; otherwise `q` moves
     * to the front, the list is cut to `Capacity`, and the new list is
     * stored.
     */
    method SaveRecent(q: string)
      modifies this`recent, this`storage
      ensures IsBlank(q) ==> recent == old(recent) && storage == old(storage)
      ensures !IsBlank(q) ==> recent == Saved(old(recent), q)
      ensures !IsBlank(q) ==> storage == old(storage)[StorageKey := recent]
      ensures !IsBlank(q) ==> Synced() && recent[0] == q
      ensures old(Synced()) ==> Synced()
      ensures WellFormed(old(recent)) ==> WellFormed(recent)
      ensures !IsBlank(q) && q in old(recent) && WellFormed(old(recent)) ==> |recent| == |old(recent)|
    {
      if Trim(q) == [] {
        return;
      }
      var updated := Saved(recent, q);
      if WellFormed(recent) {
        SavedWellFormed(recent, q);
        if q in recent {
          SavedExisting(recent, q);
        }
      }
      recent := updated;
      storage := storage[StorageKey := updated];
    }

    /** Deletes every entry equal to `q` and stores the list that is left. */
    method RemoveSearch(q: string)
      modifies this`recent, this`storage
      ensures recent == Without(old(recent), q)
      ensures storage == old(storage)[StorageKey := recent]
      ensures q !in recent && Synced()
      ensures WellFormed(old(recent)) ==> WellFormed(recent)
    {
      var updated := Without(recent, q);
      if WellFormed(recent) {
        WithoutWellFormed(recent, q);
      }
      recent := updated;
      storage := storage[StorageKey := updated];
    }

    /** Empties the list and deletes it from storage. */
    method ClearAllSearches()
      modifies this`recent, this`storage
      ensures recent == [] && storage == old(storage) - {StorageKey}
      ensures StorageKey !in storage && Synced()
    {
      recent := [];
      storage := storage - {StorageKey};
    }

    /**
     * Searches `p` for the query: nothing happens for a blank query;
     * otherwise the platform's link opens and then the query is remembered.
     */
    method Search(p: Platform)
      modifies this`tabs, this`recent, this`storage
      ensures IsBlank(query) ==> tabs == old(tabs) && recent == old(recent) && storage == old(storage)
      ensures !IsBlank(query) ==> tabs == old(tabs) + [Link(p, query, isMobile)]
      ensures !IsBlank(query) ==> recent == Saved(old(recent), query)
      ensures !IsBlank(query) ==> storage == old(storage)[StorageKey := recent] && Synced()
    {
      if Trim(query) == [] {
        return;
      }
      tabs := tabs + [Link(p, query, isMobile)];
      SaveRecent(query);
    }

    /**
     * Opens `link(p)` for each key `p` of `keys`, one tab each, in the order
     * of `keys`.
     */
    method OpenLinks(keys: seq<Platform>, link: Platform -> string)
      modifies this`tabs
      ensures tabs == old(tabs) + seq(|keys|, i requires 0 <= i < |keys| => link(keys[i]))
    {
      ghost var n := |tabs|;
      var i := 0;
      while i < |keys|
        invariant 0 <= i <= |keys|
        invariant |tabs| == n + i && tabs[..n] == old(tabs)
        invariant forall k :: 0 <= k < i ==> tabs[n + k] == link(keys[k])
      {
        tabs := tabs + [link(keys[i])];
        i := i + 1;
      }
    }

    /**
     * Searches every platform for the query: nothing happens for a blank
     * query; otherwise the query is remembered once and one link per
     * platform opens, in table order.
     */
    method SearchAll()
      modifies this`tabs, this`recent, this`storage
      ensures IsBlank(query) ==> tabs == old(tabs) && recent == old(recent) && storage == old(storage)
      ensures !IsBlank(query) ==> tabs == old(tabs) + AllLinks(query, isMobile)
      ensures !IsBlank(query) ==> recent == Saved(old(recent), query)
      ensures !IsBlank(query) ==> storage == old(storage)[StorageKey := recent] && Synced()
    {
      if Trim(query) == [] {
        return;
      }
      SaveRecent(query);
      var q := query;
      OpenLinks(Platforms, p => Link(p, q, isMobile));
    }
  }

  /**
   * A visit that searches every platform for `q`, followed by a fresh
   * visit: the tabs opened are the seven platforms' searches for `q`, all
   * different, and the next visit shows the list with `q` in
   * front. A blank `q` opens nothing and leaves the stored list as it was.
   */
  method SearchAllThenReload(storage0: Storage, isMobile: bool, q: string)
    returns (urls: seq<string>, reloaded: seq<string>)
    ensures IsBlank(q) ==> urls == [] && reloaded == Loaded(storage0)
    ensures !IsBlank(q) ==> urls == AllLinks(q, isMobile) && NoDup(urls)
    ensures !IsBlank(q) ==> reloaded == Saved(Loaded(storage0), q) && reloaded[0] == q
  {
    var hub := new SearchHub(storage0, isMobile);
    hub.LoadRecent();
    hub.SetQuery(q);
    hub.SearchAll();
    urls := hub.tabs;
    if !IsBlank(q) {
      AllLinksDistinct(q, isMobile);
    }
    var next := new SearchHub(hub.storage, isMobile);
    next.LoadRecent();
    reloaded := next.recent;
  }

  /**
   * A visit that removes `q` from the list, followed by a fresh visit: the
   * next visit shows the list without `q`, and removing it again changes
   * nothing.
   */
  method RemoveThenReload(storage0: Storage, isMobile: bool, q: string)
    returns (reloaded: seq<string>)
    ensures reloaded == Without(Loaded(storage0), q)
    ensures q !in reloaded
    ensures Without(reloaded, q) == reloaded
  {
    var hub := new SearchHub(storage0, isMobile);
    hub.LoadRecent();
    hub.RemoveSearch(q);
    var next := new SearchHub(hub.storage, isMobile);
    next.LoadRecent();
    reloaded := next.recent;
    WithoutIdempotent(Loaded(storage0), q);
  }

  /** A visit that clears the list, followed by a fresh visit: the next visit shows no list. */
  method ClearThenReload(storage0: Storage, isMobile: bool) returns (reloaded: seq<string>)
    ensures reloaded == []
  {
    var hub := new SearchHub(storage0, isMobile);
    hub.LoadRecent();
    hub.ClearAllSearches();
    var next := new SearchHub(hub.storage, isMobile);
    next.LoadRecent();
    reloaded := next.recent;
  }
}
