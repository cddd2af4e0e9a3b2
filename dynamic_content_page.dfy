/** The category page of films or series: a timestamped snapshot of each
    category's list in local storage, served at once when present, refreshed
    in the background when older than twelve hours, and fetched in the
    foreground when absent. */
module DynamicContentPage {
  import opened Common
  import opened Types

  /** Twelve hours in milliseconds. */
  const CacheTtl: int := 43200000
  const CacheKeyPrefix := "uni_cache_"
  const SeriesKind := "series"
  const MovieKind := "movie"

  /** A stored snapshot: `{ data, timestamp }`. */
  datatype Snapshot = Snapshot(data: seq<Title>, timestamp: int)

  /** The storage key of a category's snapshot: `uni_cache_{type}_{catId}`. */
  function CacheKey(kind: string, catId: string): (key: string)
    ensures |key| == |CacheKeyPrefix| + |kind| + 1 + |catId|
    ensures key[..|CacheKeyPrefix|] == CacheKeyPrefix
    ensures key[|CacheKeyPrefix|..|CacheKeyPrefix| + |kind|] == kind
    ensures key[|CacheKeyPrefix| + |kind| + 1..] == catId
  {
    CacheKeyPrefix + kind + "_" + catId
  }

  /** The list call of `fetchFreshData`: `getSeries` for type `series`, and
      `getVodStreams` for every other type. */
  function ActionFor(kind: string): (action: string)
    ensures action == "get_series" <==> kind == SeriesKind
    ensures action != "get_series" ==> action == "get_vod_streams"
  {
    if kind == SeriesKind then "get_series" else "get_vod_streams"
  }

  /** A snapshot is refreshed only when strictly older than the TTL. */
  predicate IsStale(s: Snapshot, now: int) {
    now - s.timestamp > CacheTtl
  }

  /** A started `fetchFreshData` call: the key it writes, the list call it
      makes for which category, and whether it runs silently. */
  datatype Request = Request(key: string, action: string, catId: string, silent: bool)

  /** The page state the two functions touch. */
  datatype View = View(items: seq<Title>, loading: bool)

  /** What `loadContent` does: the new view and the fetch it starts, if any. */
  datatype LoadStep = LoadStep(view: View, request: Option<Request>)

  /** The effect on `[catId, type]`: nothing without a category id; with a
      stored snapshot, its data at once and a silent refresh when stale;
      without one, the loading state and a foreground fetch. */
  function Load(v: View, entries: map<string, Snapshot>, kind: string, catId: string, now: int): (r: LoadStep)
    ensures catId == "" ==> r == LoadStep(v, None)
    ensures catId != "" && CacheKey(kind, catId) in entries ==>
              r.view == View(entries[CacheKey(kind, catId)].data, false)
              && (r.request.Some? <==> IsStale(entries[CacheKey(kind, catId)], now))
    ensures catId != "" && CacheKey(kind, catId) !in entries ==>
              r.view == View(v.items, true) && r.request.Some?
    ensures r.request.Some? ==>
              r.request.value == Request(CacheKey(kind, catId), ActionFor(kind), catId,
                                         CacheKey(kind, catId) in entries)
  {
    if catId == "" then LoadStep(v, None)
    else
      var key := CacheKey(kind, catId);
      if key in entries then
        var s := entries[key];
        LoadStep(View(s.data, false),
                 if IsStale(s, now) then Some(Request(key, ActionFor(kind), catId, true)) else None)
      else
        LoadStep(View(v.items, true), Some(Request(key, ActionFor(kind), catId, false)))
  }

  /** What a settled `fetchFreshData` leaves: the view and the stored snapshots. */
  datatype Settled = Settled(view: View, entries: map<string, Snapshot>)

  /** The end of `fetchFreshData`: success shows the list and stores it with
      the current time; failure changes neither; `loading` ends unless the
      call was silent. */
  function Settle(v: View, entries: map<string, Snapshot>, req: Request, result: Fetch<seq<Title>>, now: int): (r: Settled)
    ensures result.Ok? ==> r.view.items == result.data && r.entries == entries[req.key := Snapshot(result.data, now)]
    ensures result.Fail? ==> r.view.items == v.items && r.entries == entries
    ensures r.view.loading == (v.loading && req.silent)
  {
    var loading := if req.silent then v.loading else false;
    match result
    case Ok(data) => Settled(View(data, loading), entries[req.key := Snapshot(data, now)])
    case Fail => Settled(View(v.items, loading), entries)
  }

  /** Serve-then-refresh: with a snapshot present the page shows it and stops
      loading at once, and whatever its background refresh brings, loading
      stays off; a failed refresh leaves the shown entries as they are. */
  lemma SnapshotServedWithoutWaiting(v: View, entries: map<string, Snapshot>, kind: string, catId: string,
                                     now: int, result: Fetch<seq<Title>>, later: int)
    requires catId != "" && CacheKey(kind, catId) in entries
    ensures var step := Load(v, entries, kind, catId, now);
            && step.view == View(entries[CacheKey(kind, catId)].data, false)
            && (step.request.Some? ==>
                  step.request.value.silent
                  && !Settle(step.view, entries, step.request.value, result, later).view.loading
                  && (result.Fail? ==>
                        Settle(step.view, entries, step.request.value, result, later).view.items == step.view.items))
  {
  }

  /** The staleness boundary is strict: a snapshot exactly twelve hours old is
      served without a refresh; one millisecond later it is refreshed. */
  lemma RefreshBoundary(v: View, entries: map<string, Snapshot>, kind: string, catId: string)
    requires catId != "" && CacheKey(kind, catId) in entries
    ensures var t := entries[CacheKey(kind, catId)].timestamp;
            && Load(v, entries, kind, catId, t + CacheTtl).request == None
            && Load(v, entries, kind, catId, t + CacheTtl + 1).request.Some?
  {
  }

  /** A first visit fetches in the foreground, ends loading whatever the
      outcome, and after a success the stored snapshot serves every visit in
      the next twelve hours with no fetch at all. */
  lemma FirstVisitThenCached(v: View, entries: map<string, Snapshot>, kind: string, catId: string,
                             now: int, result: Fetch<seq<Title>>, done: int, revisit: int)
    requires catId != "" && CacheKey(kind, catId) !in entries
    requires done <= revisit <= done + CacheTtl
    ensures var step := Load(v, entries, kind, catId, now);
            && step.view.loading && step.request.Some? && !step.request.value.silent
            && var s := Settle(step.view, entries, step.request.value, result, done);
               && !s.view.loading
               && (result.Ok? ==> Load(s.view, s.entries, kind, catId, revisit) == LoadStep(View(result.data, false), None))
               && (result.Fail? ==> s.entries == entries && Load(s.view, s.entries, kind, catId, revisit).request.Some?)
  {
  }

  /** For the two page types the application links to, the key determines the
      page: films and series of one category never share a snapshot. */
  lemma CacheKeyInjective(k1: string, c1: string, k2: string, c2: string)
    requires k1 in {MovieKind, SeriesKind} && k2 in {MovieKind, SeriesKind}
    requires CacheKey(k1, c1) == CacheKey(k2, c2)
    ensures k1 == k2 && c1 == c2
  {
    assert CacheKey(k1, c1)[|CacheKeyPrefix|] == k1[0];
  }

  /** For arbitrary route types the key is ambiguous: the `_` separator may
      also occur inside the type or the category id. */
  lemma CacheKeyAmbiguous()
    ensures CacheKey("a_b", "c") == CacheKey("a", "b_c")
  {
  }

  /** The `uni_cache_` snapshots in local storage. */
  class SnapshotStore {
    var entries: map<string, Snapshot>

    constructor (entries0: map<string, Snapshot>)
      ensures entries == entries0
    {
      entries := entries0;
    }
  }

  /** The page: its route parameters, its list and its loading flag. */
  class ContentPage {
    var kind: string
    var catId: string
    var items: seq<Title>
    var loading: bool
    const store: SnapshotStore

    constructor (store0: SnapshotStore)
      ensures kind == "" && catId == "" && items == [] && loading && store == store0
    {
      kind := "";
      catId := "";
      items := [];
      loading := true;
      store := store0;
    }

    /** New route parameters run the effect (`if (catId) loadContent()`); the
        result is the `fetchFreshData` call started, if any. The list of the
        previous category stays until something replaces it. */
    method Open(kind0: string, catId0: string, now: int) returns (request: Option<Request>)
      modifies this`kind, this`catId, this`items, this`loading
      ensures kind == kind0 && catId == catId0
      ensures LoadStep(View(items, loading), request)
              == Load(View(old(items), old(loading)), store.entries, kind0, catId0, now)
    {
      kind := kind0;
      catId := catId0;
      if catId == "" {
        return None;
      }
      var key := CacheKey(kind, catId);
      if key in store.entries {
        var s := store.entries[key];
        items := s.data;
        loading := false;
        if now - s.timestamp > CacheTtl {
          request := Some(Request(key, ActionFor(kind), catId, true));
        } else {
          request := None;
        }
        return;
      }
      loading := true;
      request := Some(Request(key, ActionFor(kind), catId, false));
    }

    /** A `fetchFreshData` call settles at time `now`. */
    method FetchSettled(req: Request, result: Fetch<seq<Title>>, now: int)
      modifies this`items, this`loading, store
      ensures Settled(View(items, loading), store.entries)
              == Settle(View(old(items), old(loading)), old(store.entries), req, result, now)
    {
      if result.Ok? {
        items := result.data;
        store.entries := store.entries[req.key := Snapshot(result.data, now)];
      }
      if !req.silent {
        loading := false;
      }
    }
  }
}
