/** The series detail screen: season keys in numeric order, the selected season,
    the current episode, bounded (non-wrapping) episode stepping and the props
    the player receives for an episode. */
module SeriesDetails {
  import opened Common
  import opened Types
  import XtreamService

  const EpisodeContentPrefix := "series_ep_"

  datatype Direction = Next | Prev

  // ---------------------------------------------------------------------------
  // Season order: Object.keys(episodes).sort((a, b) => parseInt(a) - parseInt(b))
  // ---------------------------------------------------------------------------

  predicate AllParse(keys: seq<string>) {
    forall k :: k in keys ==> ParseInt(k).Some?
  }

  /** `parseInt(key)` for a key that parses. */
  function SeasonNumber(key: string): int
    requires ParseInt(key).Some?
  {
    ParseInt(key).value
  }

  predicate SortedBySeason(keys: seq<string>)
    requires AllParse(keys)
  {
    forall i, j :: 0 <= i < j < |keys| ==> SeasonNumber(keys[i]) <= SeasonNumber(keys[j])
  }

  /** The comparator's values, computed once per key. */
  function SeasonNumbers(keys: seq<string>): (m: map<string, int>)
    requires AllParse(keys)
    ensures forall k :: k in keys ==> k in m && m[k] == SeasonNumber(k)
  {
    map k | k in keys :: SeasonNumber(k)
  }

  predicate Numbered<K>(keys: seq<K>, m: map<K, int>) {
    forall k :: k in keys ==> k in m
  }

  predicate SortedBy<K>(keys: seq<K>, m: map<K, int>)
    requires Numbered(keys, m)
  {
    forall i, j :: 0 <= i < j < |keys| ==> m[keys[i]] <= m[keys[j]]
  }

  /** Inserts `k` into a sorted list after every key of the same or a smaller number. */
  function Insert<K(==)>(k: K, sorted: seq<K>, m: map<K, int>): (r: seq<K>)
    requires k in m && Numbered(sorted, m)
    ensures multiset(r) == multiset(sorted) + multiset{k}
    ensures forall x :: x in r ==> x == k || x in sorted
    ensures Numbered(r, m)
  {
    if sorted == [] then [k]
    else if m[k] < m[sorted[0]] then [k] + sorted
    else
      assert sorted == [sorted[0]] + sorted[1..];
      [sorted[0]] + Insert(k, sorted[1..], m)
  }

  /** The head of a sorted list has the smallest number. */
  lemma SortedHead<K>(sorted: seq<K>, m: map<K, int>)
    requires sorted != [] && Numbered(sorted, m) && SortedBy(sorted, m)
    ensures forall x :: x in sorted ==> m[sorted[0]] <= m[x]
  {
    forall x | x in sorted ensures m[sorted[0]] <= m[x] {
      var q :| 0 <= q < |sorted| && sorted[q] == x;
      if q > 0 {
        assert m[sorted[0]] <= m[sorted[q]];
      }
    }
  }

  /** A key no greater than any key of a sorted list can head it. */
  lemma ConsSorted<K>(x: K, rest: seq<K>, m: map<K, int>)
    requires x in m && Numbered(rest, m) && SortedBy(rest, m)
    requires forall y :: y in rest ==> m[x] <= m[y]
    ensures Numbered([x] + rest, m) && SortedBy([x] + rest, m)
  {
    var r := [x] + rest;
    forall i, j | 0 <= i < j < |r| ensures m[r[i]] <= m[r[j]] {
      assert r[j] == rest[j - 1];
      if i == 0 {
        assert rest[j - 1] in rest;
      } else {
        assert r[i] == rest[i - 1];
      }
    }
  }

  /** Insertion keeps the list sorted. */
  lemma {:induction false} InsertSorted<K>(k: K, sorted: seq<K>, m: map<K, int>)
    requires k in m && Numbered(sorted, m) && SortedBy(sorted, m)
    ensures Numbered(Insert(k, sorted, m), m) && SortedBy(Insert(k, sorted, m), m)
  {
    if sorted == [] {
    } else if m[k] < m[sorted[0]] {
      SortedHead(sorted, m);
      ConsSorted(k, sorted, m);
    } else {
      assert SortedBy(sorted[1..], m);
      InsertSorted(k, sorted[1..], m);
      SortedHead(sorted, m);
      ConsSorted(sorted[0], Insert(k, sorted[1..], m), m);
    }
  }

  /** Insertion sort by the numbers of `m`. */
  function SortBy<K(==)>(keys: seq<K>, m: map<K, int>): (r: seq<K>)
    requires Numbered(keys, m)
    ensures Numbered(r, m) && SortedBy(r, m)
    ensures multiset(r) == multiset(keys)
  {
    if keys == [] then []
    else
      var init := keys[..|keys| - 1];
      assert keys == init + [keys[|keys| - 1]];
      InsertSorted(keys[|keys| - 1], SortBy(init, m), m);
      Insert(keys[|keys| - 1], SortBy(init, m), m)
  }

  /** The keys numbered `v`, in their order. */
  function SameNumber<K>(keys: seq<K>, m: map<K, int>, v: int): seq<K>
    requires Numbered(keys, m)
  {
    if keys == [] then []
    else (if m[keys[0]] == v then [keys[0]] else []) + SameNumber(keys[1..], m, v)
  }

  lemma SameNumberCons<K>(x: K, s: seq<K>, m: map<K, int>, v: int)
    requires x in m && Numbered(s, m)
    ensures Numbered([x] + s, m)
    ensures SameNumber([x] + s, m, v) == (if m[x] == v then [x] else []) + SameNumber(s, m, v)
  {
    assert ([x] + s)[1..] == s;
  }

  /** No key numbered `v`, nothing selected. */
  lemma {:induction false} SameNumberNone<K>(s: seq<K>, m: map<K, int>, v: int)
    requires Numbered(s, m) && forall x :: x in s ==> m[x] != v
    ensures SameNumber(s, m, v) == []
  {
    if s != [] {
      assert s[0] in s;
      SameNumberNone(s[1..], m, v);
    }
  }

  lemma {:induction false} SameNumberAppend<K>(a: seq<K>, b: seq<K>, m: map<K, int>, v: int)
    requires Numbered(a, m) && Numbered(b, m)
    ensures SameNumber(a + b, m, v) == SameNumber(a, m, v) + SameNumber(b, m, v)
  {
    if a != [] {
      assert a + b == [a[0]] + (a[1..] + b);
      assert a == [a[0]] + a[1..];
      SameNumberCons(a[0], a[1..] + b, m, v);
      SameNumberCons(a[0], a[1..], m, v);
      SameNumberAppend(a[1..], b, m, v);
    } else {
      assert a + b == b;
    }
  }

  /** A key smaller than the head goes in front, before any key of its number. */
  lemma InsertFrontStable<K>(k: K, sorted: seq<K>, m: map<K, int>, v: int)
    requires k in m && Numbered(sorted, m) && SortedBy(sorted, m)
    requires sorted != [] && m[k] < m[sorted[0]]
    ensures Numbered([k] + sorted, m)
    ensures SameNumber([k] + sorted, m, v) == SameNumber(sorted, m, v) + (if m[k] == v then [k] else [])
  {
    SameNumberCons(k, sorted, m, v);
    if m[k] == v {
      SortedHead(sorted, m);
      SameNumberNone(sorted, m, v);
    }
  }

  /** Putting the same key in front of two lists keeps their selections related. */
  lemma ConsSameNumber<K>(x: K, rest: seq<K>, s: seq<K>, t: seq<K>, m: map<K, int>, v: int)
    requires x in m && Numbered(rest, m) && Numbered(s, m)
    requires SameNumber(rest, m, v) == SameNumber(s, m, v) + t
    ensures Numbered([x] + rest, m) && Numbered([x] + s, m)
    ensures SameNumber([x] + rest, m, v) == SameNumber([x] + s, m, v) + t
  {
    var head := if m[x] == v then [x] else [];
    SameNumberCons(x, rest, m, v);
    SameNumberCons(x, s, m, v);
    assert head + (SameNumber(s, m, v) + t) == (head + SameNumber(s, m, v)) + t;
  }

  /** Insertion is stable: `k` goes after every key of its own number. */
  lemma {:induction false} InsertStable<K>(k: K, sorted: seq<K>, m: map<K, int>, v: int)
    requires k in m && Numbered(sorted, m) && SortedBy(sorted, m)
    ensures SameNumber(Insert(k, sorted, m), m, v)
            == SameNumber(sorted, m, v) + (if m[k] == v then [k] else [])
  {
    if sorted == [] {
      SameNumberCons(k, [], m, v);
      assert [k] + [] == [k];
    } else if m[k] < m[sorted[0]] {
      InsertFrontStable(k, sorted, m, v);
    } else {
      assert SortedBy(sorted[1..], m);
      InsertStable(k, sorted[1..], m, v);
      var tail := if m[k] == v then [k] else [];
      ConsSameNumber(sorted[0], Insert(k, sorted[1..], m), sorted[1..], tail, m, v);
      assert Insert(k, sorted, m) == [sorted[0]] + Insert(k, sorted[1..], m);
      assert [sorted[0]] + sorted[1..] == sorted;
    }
  }

  /** The sort is stable, like `Array.prototype.sort`: the keys sharing a
      number keep their relative order. */
  lemma {:induction false} SortByStable<K>(keys: seq<K>, m: map<K, int>, v: int)
    requires Numbered(keys, m)
    ensures SameNumber(SortBy(keys, m), m, v) == SameNumber(keys, m, v)
  {
    if keys != [] {
      var init, last := keys[..|keys| - 1], keys[|keys| - 1];
      assert keys == init + [last];
      SortByStable(init, m, v);
      InsertStable(last, SortBy(init, m), m, v);
      SameNumberAppend(init, [last], m, v);
    }
  }

  /** The season keys ordered ascending by their `parseInt` value: a
      permutation of the keys, sorted by season number. */
  function SortSeasons(keys: seq<string>): (r: seq<string>)
    requires AllParse(keys)
    ensures multiset(r) == multiset(keys)
    ensures AllParse(r) && SortedBySeason(r)
  {
    var m := SeasonNumbers(keys);
    var r := SortBy(keys, m);
    assert forall x :: x in r ==> x in keys by {
      forall x | x in r ensures x in keys {
        assert x in multiset(r);
      }
    }
    r
  }

  /** Season keys with the same `parseInt` value (such as `1` and `01`) keep
      their `Object.keys` order. */
  lemma SortSeasonsStable(keys: seq<string>, v: int)
    requires AllParse(keys)
    ensures SameNumber(SortSeasons(keys), SeasonNumbers(keys), v) == SameNumber(keys, SeasonNumbers(keys), v)
  {
    SortByStable(keys, SeasonNumbers(keys), v);
  }

  /** The season selected after loading is one with the lowest number. */
  lemma FirstSeasonIsLowest(keys: seq<string>)
    requires AllParse(keys) && keys != []
    ensures var sorted := SortSeasons(keys);
            sorted != [] && sorted[0] in keys
            && forall k :: k in keys ==> SeasonNumber(sorted[0]) <= SeasonNumber(k)
  {
    var sorted := SortSeasons(keys);
    assert |sorted| == |multiset(keys)| == |keys|;
    assert sorted[0] in multiset(sorted);
    forall k | k in keys ensures SeasonNumber(sorted[0]) <= SeasonNumber(k) {
      assert k in multiset(keys);
      var j :| 0 <= j < |sorted| && sorted[j] == k;
      if j > 0 {
        assert SeasonNumber(sorted[0]) <= SeasonNumber(sorted[j]);
      }
    }
  }

  // ---------------------------------------------------------------------------
  // Episodes
  // ---------------------------------------------------------------------------

  /** `episodes.findIndex(ep => ep.id === id)`. */
  function EpisodeIndex(episodes: seq<Episode>, id: string): (i: int)
    ensures -1 <= i < |episodes|
    ensures i >= 0 ==> episodes[i].id == id && forall k :: 0 <= k < i ==> episodes[k].id != id
    ensures i == -1 <==> forall k :: 0 <= k < |episodes| ==> episodes[k].id != id
  {
    if episodes == [] then -1
    else if episodes[0].id == id then 0
    else
      var j := EpisodeIndex(episodes[1..], id);
      if j == -1 then -1 else j + 1
  }

  /** `currentEpIndex`: the current episode's position in the selected season, -1 without one. */
  function CurrentIndex(episodes: seq<Episode>, current: Option<Episode>): int {
    if current.Some? then EpisodeIndex(episodes, current.value.id) else -1
  }

  /** `hasPrevEp`. */
  predicate HasPrev(episodes: seq<Episode>, current: Option<Episode>) {
    CurrentIndex(episodes, current) > 0
  }

  /** `hasNextEp`. */
  predicate HasNext(episodes: seq<Episode>, current: Option<Episode>) {
    CurrentIndex(episodes, current) < |episodes| - 1
  }

  /** `navigateEpisode(direction)`: the new current episode. */
  function NavigateEpisode(data: Option<SeriesInfo>, season: string, current: Option<Episode>, dir: Direction): (r: Option<Episode>)
    ensures data.None? || current.None? ==> r == current
    ensures r == current || (r.Some? && data.Some? && r.value in EpisodesOf(data.value, season))
  {
    if data.None? || current.None? then current
    else
      var episodes := EpisodesOf(data.value, season);
      var i := EpisodeIndex(episodes, current.value.id);
      if dir == Next && i < |episodes| - 1 then Some(episodes[i + 1])
      else if dir == Prev && i > 0 then Some(episodes[i - 1])
      else current
  }

  /** The callbacks handed to the player agree with navigation: next moves to
      the following episode exactly when `hasNextEp` holds, prev to the
      preceding one exactly when `hasPrevEp` holds, and otherwise nothing
      changes (no wrap-around at either end). An episode not in the season
      (index -1) steps forward to the season's first episode. */
  lemma CallbacksMatchNavigation(info: SeriesInfo, season: string, ep: Episode)
    ensures var episodes := EpisodesOf(info, season);
            var i := CurrentIndex(episodes, Some(ep));
            && (HasNext(episodes, Some(ep)) ==> NavigateEpisode(Some(info), season, Some(ep), Next) == Some(episodes[i + 1]))
            && (!HasNext(episodes, Some(ep)) ==> NavigateEpisode(Some(info), season, Some(ep), Next) == Some(ep))
            && (HasPrev(episodes, Some(ep)) ==> NavigateEpisode(Some(info), season, Some(ep), Prev) == Some(episodes[i - 1]))
            && (!HasPrev(episodes, Some(ep)) ==> NavigateEpisode(Some(info), season, Some(ep), Prev) == Some(ep))
            && (i == -1 && episodes != [] ==> NavigateEpisode(Some(info), season, Some(ep), Next) == Some(episodes[0]))
  {
  }

  /** Within a season whose episode ids are distinct, next then prev comes back
      to the episode at the current position. */
  lemma NextThenPrev(info: SeriesInfo, season: string, ep: Episode)
    requires var episodes := EpisodesOf(info, season);
             forall a, b :: 0 <= a < b < |episodes| ==> episodes[a].id != episodes[b].id
    requires HasNext(EpisodesOf(info, season), Some(ep)) && CurrentIndex(EpisodesOf(info, season), Some(ep)) >= 0
    ensures var episodes := EpisodesOf(info, season);
            var there := NavigateEpisode(Some(info), season, Some(ep), Next);
            NavigateEpisode(Some(info), season, there, Prev) == Some(episodes[CurrentIndex(episodes, Some(ep))])
  {
    var episodes := EpisodesOf(info, season);
    var i := CurrentIndex(episodes, Some(ep));
    assert EpisodeIndex(episodes, episodes[i + 1].id) == i + 1;
  }

  /** `contentId` of an episode's player. */
  function EpisodeContentId(ep: Episode): (id: string)
    ensures |id| == |EpisodeContentPrefix| + |ep.id|
    ensures id[..|EpisodeContentPrefix|] == EpisodeContentPrefix
    ensures id[|EpisodeContentPrefix|..] == ep.id
  {
    EpisodeContentPrefix + ep.id
  }

  /** Distinct episodes are never confused in the favourites list. */
  lemma EpisodeContentIdInjective(a: Episode, b: Episode)
    requires EpisodeContentId(a) == EpisodeContentId(b)
    ensures a.id == b.id
  {
    assert a.id == EpisodeContentId(a)[|EpisodeContentPrefix|..];
  }

  /** The player props of SeriesDetails for the current episode. */
  datatype PlayerProps = PlayerProps(contentId: string, url: string, hasNext: bool, hasPrev: bool)

  function EpisodePlayerProps(ep: Episode, episodes: seq<Episode>, username: string, password: string): (p: PlayerProps)
    ensures p.url == XtreamService.StreamUrl(username, password, ep.id, XtreamService.Series)
    ensures p.contentId == EpisodeContentId(ep)
    ensures p.hasNext <==> HasNext(episodes, Some(ep))
    ensures p.hasPrev <==> HasPrev(episodes, Some(ep))
  {
    PlayerProps(EpisodeContentId(ep),
                XtreamService.StreamUrl(username, password, ep.id, XtreamService.Series),
                HasNext(episodes, Some(ep)), HasPrev(episodes, Some(ep)))
  }

  /** The screen's state. */
  class SeriesDetailsView {
    var data: Option<SeriesInfo>
    var loading: bool
    var selectedSeason: string
    var currentEpisode: Option<Episode>
    var isPlaying: bool

    constructor ()
      ensures data == None && loading && selectedSeason == "" && currentEpisode == None && !isPlaying
    {
      data := None;
      loading := true;
      selectedSeason := "";
      currentEpisode := None;
      isPlaying := false;
    }

    /** The end of `loadSeriesInfo`: on success the data is stored and the
        lowest-numbered season is selected (if any); on failure only `loading`
        changes. */
    method CompleteLoad(result: Fetch<SeriesInfo>)
      requires result.Ok? ==> AllParse(SeasonKeys(result.data.seasons))
      modifies this`data, this`selectedSeason, this`loading
      ensures !loading
      ensures result.Fail? ==> data == old(data) && selectedSeason == old(selectedSeason)
      ensures result.Ok? ==> data == Some(result.data)
      ensures result.Ok? && result.data.seasons != [] ==>
                selectedSeason == SortSeasons(SeasonKeys(result.data.seasons))[0]
      ensures result.Ok? && result.data.seasons == [] ==> selectedSeason == old(selectedSeason)
    {
      if result.Ok? {
        data := Some(result.data);
        var seasons := SortSeasons(SeasonKeys(result.data.seasons));
        if |seasons| > 0 {
          selectedSeason := seasons[0];
        }
      }
      loading := false;
    }

    method HandleSeasonChange(season: string)
      modifies this`selectedSeason
      ensures selectedSeason == season
    {
      selectedSeason := season;
    }

    /** `navigateEpisode(direction)`. */
    method Navigate(dir: Direction)
      modifies this`currentEpisode
      ensures currentEpisode == NavigateEpisode(data, selectedSeason, old(currentEpisode), dir)
    {
      currentEpisode := NavigateEpisode(data, selectedSeason, currentEpisode, dir);
    }

    /** Clicking an episode makes it current and opens the player. */
    method SelectEpisode(ep: Episode)
      modifies this`currentEpisode, this`isPlaying
      ensures currentEpisode == Some(ep) && isPlaying
    {
      currentEpisode := Some(ep);
      isPlaying := true;
    }

    /** The player's close button. */
    method ClosePlayer()
      modifies this`isPlaying
      ensures !isPlaying
    {
      isPlaying := false;
    }

    /** The props of the player, rendered only while playing an episode with data loaded. */
    method Props(username: string, password: string) returns (p: Option<PlayerProps>)
      ensures (isPlaying && currentEpisode.Some? && data.Some? && !loading) <==> p.Some?
      ensures p.Some? ==> p.value == EpisodePlayerProps(currentEpisode.value,
                                       EpisodesOf(data.value, selectedSeason), username, password)
    {
      if isPlaying && currentEpisode.Some? && data.Some? && !loading {
        p := Some(EpisodePlayerProps(currentEpisode.value, EpisodesOf(data.value, selectedSeason), username, password));
      } else {
        p := None;
      }
    }
  }
}
