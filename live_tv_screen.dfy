/** The live-TV screen: which service a category's channels come from, the
    active channel, its stream URL, and next/previous navigation through the
    list with wrap-around at both ends. */
module LiveTvScreen {
  import opened Common
  import opened Types
  import XtreamService
  import VideoPlayer

  const ReiCatId := "rei_dos_canais"
  const PortugalCatId := "portugal_free"

  /** Where `loadChannels` takes a category's list from. */
  datatype Source = Rei | Portugal | XtreamLive(catId: string)

  datatype Direction = Next | Prev

  function SourceFor(catId: string): (src: Source)
    ensures src == Rei <==> catId == ReiCatId
    ensures src == Portugal <==> catId == PortugalCatId
    ensures src.XtreamLive? ==> src.catId == catId
  {
    if catId == ReiCatId then Rei
    else if catId == PortugalCatId then Portugal
    else XtreamLive(catId)
  }

  /** The `findIndex` test: the list entry has a truthy `stream_id` whose text
      equals that of the active channel's, or it has the active channel's name. */
  predicate Matches(ch: Channel, active: Channel) {
    (Truthy(ch.streamId) && IdText(ch.streamId) == IdText(active.streamId)) || ch.name == active.name
  }

  /** A channel always matches itself (through its name). */
  lemma MatchesItself(ch: Channel)
    ensures Matches(ch, ch)
  {
  }

  /** `channels.findIndex(...)`: the first matching position, or -1. */
  function FindChannel(channels: seq<Channel>, active: Channel): (i: int)
    ensures -1 <= i < |channels|
    ensures i == -1 <==> forall k :: 0 <= k < |channels| ==> !Matches(channels[k], active)
    ensures i >= 0 ==> Matches(channels[i], active)
    ensures i >= 0 ==> forall k :: 0 <= k < i ==> !Matches(channels[k], active)
  {
    if channels == [] then -1
    else if Matches(channels[0], active) then 0
    else
      var j := FindChannel(channels[1..], active);
      if j == -1 then -1 else j + 1
  }

  /** The index arithmetic of `navigateChannel`: `(i + 1) % n` and `(i - 1 + n) % n`. */
  function StepIndex(i: int, n: int, dir: Direction): (j: int)
    requires 0 <= i < n
    ensures 0 <= j < n
    ensures dir == Next ==> j == (if i == n - 1 then 0 else i + 1)
    ensures dir == Prev ==> j == (if i == 0 then n - 1 else i - 1)
  {
    match dir
    case Next => ModOfAtMostModulus(i + 1, n); (i + 1) % n
    case Prev => ModOfAtMostModulus(i - 1 + n, n); (i - 1 + n) % n
  }

  /** Reduction modulo `n` of a value below `2 * n`. */
  lemma ModOfAtMostModulus(a: int, n: int)
    requires 0 <= a < 2 * n
    ensures a % n == (if a >= n then a - n else a)
  {
    if a >= n {
      assert a == 1 * n + (a - n);
    } else {
      assert a == 0 * n + a;
    }
  }

  /** Stepping forward then back, or back then forward, returns to the start. */
  lemma StepRoundTrip(i: int, n: int)
    requires 0 <= i < n
    ensures StepIndex(StepIndex(i, n, Next), n, Prev) == i
    ensures StepIndex(StepIndex(i, n, Prev), n, Next) == i
  {
  }

  /** `navigateChannel(direction)`: the new active channel. Nothing changes for
      an empty list, no active channel, or an active channel not found. */
  function Navigate(channels: seq<Channel>, active: Option<Channel>, dir: Direction): (r: Option<Channel>)
    ensures channels == [] || active.None? ==> r == active
    ensures active.Some? && FindChannel(channels, active.value) == -1 ==> r == active
    ensures active.Some? && FindChannel(channels, active.value) >= 0 ==>
              r == Some(channels[StepIndex(FindChannel(channels, active.value), |channels|, dir)])
  {
    if channels == [] || active.None? then active
    else
      var i := FindChannel(channels, active.value);
      if i == -1 then active else Some(channels[StepIndex(i, |channels|, dir)])
  }

  /** No entry matches another one: no shared names and no shared truthy ids. */
  predicate Distinguishable(channels: seq<Channel>) {
    forall a, b :: 0 <= a < |channels| && 0 <= b < |channels| && a != b ==> !Matches(channels[a], channels[b])
  }

  /** In a list of distinguishable entries each entry is found at its own position. */
  lemma FindsOwnPosition(channels: seq<Channel>, j: int)
    requires Distinguishable(channels) && 0 <= j < |channels|
    ensures FindChannel(channels, channels[j]) == j
  {
    MatchesItself(channels[j]);
  }

  /** With distinguishable entries, next followed by prev (and prev followed by
      next) comes back to the channel the active one was found at. */
  lemma NavigateRoundTrip(channels: seq<Channel>, active: Channel)
    requires Distinguishable(channels)
    requires FindChannel(channels, active) >= 0
    ensures var home := Some(channels[FindChannel(channels, active)]);
            Navigate(channels, Navigate(channels, Some(active), Next), Prev) == home
            && Navigate(channels, Navigate(channels, Some(active), Prev), Next) == home
  {
    var n := |channels|;
    var i := FindChannel(channels, active);
    var j := StepIndex(i, n, Next);
    var k := StepIndex(i, n, Prev);
    FindsOwnPosition(channels, j);
    FindsOwnPosition(channels, k);
    StepRoundTrip(i, n);
  }

  /** Without distinguishable entries the lookup can trap the user: when a later
      channel shares its name with an earlier one, next from the later one
      finds the earlier one and lands on the later one again. */
  lemma SharedNameTrapsNext()
    ensures var first := Channel("RTP 1", NumId(7), None);
            var second := Channel("RTP 1", NumId(8), None);
            Navigate([first, second], Some(second), Next) == Some(second)
  {
    var first := Channel("RTP 1", NumId(7), None);
    var second := Channel("RTP 1", NumId(8), None);
    assert Matches([first, second][0], second);
  }

  /** `getStreamUrl(ch)`: `""` for no channel, the channel's own non-empty
      `stream` URL, otherwise the live Xtream URL built from its `stream_id`. */
  function StreamUrlFor(ch: Option<Channel>, username: string, password: string): (url: string)
    ensures ch.None? ==> url == ""
    ensures ch.Some? && ch.value.stream.Some? && ch.value.stream.value != "" ==> url == ch.value.stream.value
    ensures ch.Some? && (ch.value.stream.None? || ch.value.stream.value == "") ==>
              url == XtreamService.StreamUrl(username, password, IdText(ch.value.streamId), XtreamService.Live)
  {
    match ch
    case None => ""
    case Some(c) =>
      if c.stream.Some? && c.stream.value != "" then c.stream.value
      else XtreamService.StreamUrl(username, password, IdText(c.streamId), XtreamService.Live)
  }

  /** A panel channel's URL always takes the player's segmented path when the
      browser supports the streaming engine, whatever the credentials and id. */
  lemma PanelChannelIsSegmented(c: Channel, username: string, password: string)
    requires c.stream.None? || c.stream.value == ""
    ensures VideoPlayer.IsSegmentedUrl(StreamUrlFor(Some(c), username, password))
  {
    var stem := XtreamService.BaseUrl + "/live/" + username + "/" + password + "/" + IdText(c.streamId);
    assert StreamUrlFor(Some(c), username, password) == stem + ".ts";
    LowerOfLowercase(".ts");
    VideoPlayer.SegmentedBySuffix(stem, ".ts");
  }

  /** The screen's state. */
  class LiveTv {
    var channels: seq<Channel>
    var active: Option<Channel>
    var activeCat: string
    var loading: bool

    /** Mounting selects the Portugal category and starts loading it. */
    constructor ()
      ensures channels == [] && active == None && activeCat == PortugalCatId && loading
    {
      channels := [];
      active := None;
      activeCat := PortugalCatId;
      loading := true;
    }

    /** The start of `loadChannels(catId)`: loading is shown and the request goes
        to the service the category id selects. */
    method BeginLoad(catId: string) returns (src: Source)
      modifies this`loading
      ensures loading && src == SourceFor(catId)
    {
      loading := true;
      src := SourceFor(catId);
    }

    /** The end of `loadChannels`: on success the list is replaced and its first
        entry becomes active when there is one (an empty list keeps the previous
        active channel); on failure nothing but `loading` changes. */
    method CompleteLoad(result: Fetch<seq<Channel>>)
      modifies this`channels, this`active, this`loading
      ensures !loading
      ensures result.Fail? ==> channels == old(channels) && active == old(active)
      ensures result.Ok? ==> channels == result.data
      ensures result.Ok? && result.data != [] ==> active == Some(result.data[0])
      ensures result.Ok? && result.data == [] ==> active == old(active)
    {
      if result.Ok? {
        channels := result.data;
        if |result.data| > 0 {
          active := Some(result.data[0]);
        }
      }
      loading := false;
    }

    /** `handleCatChange(id)`: the active id is a no-op; any other id becomes
        active and is loaded. */
    method HandleCatChange(id: string) returns (request: Option<Source>)
      modifies this`activeCat, this`loading
      ensures id == old(activeCat) ==> request == None && unchanged(this)
      ensures id != old(activeCat) ==> request == Some(SourceFor(id)) && activeCat == id && loading
    {
      if id == activeCat {
        return None;
      }
      activeCat := id;
      var src := BeginLoad(id);
      request := Some(src);
    }

    /** `navigateChannel(direction)`. */
    method NavigateChannel(dir: Direction)
      modifies this`active
      ensures active == Navigate(channels, old(active), dir)
      ensures active.Some? ==> active == old(active) || active.value in channels
    {
      active := Navigate(channels, active, dir);
    }

    /** Clicking a list entry makes it active. */
    method Select(ch: Channel)
      modifies this`active
      ensures active == Some(ch)
    {
      active := Some(ch);
    }

    /** The URL handed to the player for the active channel. */
    method CurrentStreamUrl(username: string, password: string) returns (url: string)
      ensures url == StreamUrlFor(active, username, password)
      ensures active.None? ==> url == ""
    {
      url := StreamUrlFor(active, username, password);
    }
  }
}
