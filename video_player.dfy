/** The playback session controller of the video player component.

    One `Player` object holds the component's React state (`isPlaying`,
    `isLoading`, `isMuted`, `errorCount`, `isFavorite`, `showControls`, the OSD),
    its refs (the engine handle `hlsRef`, the loading watchdog and the
    controls-hide timer) and the state of the `<video>` element it drives. Each
    method is one event: a URL change, an engine callback, a media-element event,
    a timer firing or a button press. Timers are explicit `Armed`/`Idle` fields
    fired by their own methods; engine instances are numbered handles, and the
    calls made on them are logged (`destroyed`, `startLoads`, `mediaRecoveries`). */
module VideoPlayer {
  import opened Common

  /** Delay of the loading watchdog armed on every URL change. */
  const WatchdogMs: nat := 12000
  /** Delay after which the controls hide again. */
  const ControlsHideMs: nat := 4000
  /** Delay after which the skip indicator hides. */
  const OsdHideMs: nat := 600

  /** A single-shot timer held in a ref: pending with its delay, or not pending. */
  datatype Timer = Idle | Armed(delayMs: nat)

  /** The OSD icon: forward for a positive offset, back otherwise. */
  datatype OsdKind = Skip | Back

  /** `data.type` of a streaming-engine error event. */
  datatype ErrorKind = NetworkError | MediaError | OtherError

  /** The listeners the current URL effect attached: those of engine handle
      `engine`, those of the `<video>` element for direct playback, or none
      (before the first effect and after a cleanup). */
  datatype Pipeline = NoPipeline | Segmented(engine: nat) | Direct

  /** Media-element events the component listens to through JSX props. */
  datatype MediaEvent = Waiting | Stalled | Playing | Ended

  /** Controls the player can render. */
  datatype Button = Close | Favorite | SkipBack | SkipForward | PlayPause | Mute | Prev | Next | Fullscreen

  /** The URL heuristic for segmented delivery: the lower-cased URL mentions
      `.m3u8` or `.ts`. */
  predicate IsSegmentedUrl(url: string) {
    Contains(Lower(url), ".m3u8") || Contains(Lower(url), ".ts")
  }

  /** The classification ignores letter case. */
  lemma SegmentedUrlIgnoresCase(url: string)
    ensures IsSegmentedUrl(Lower(url)) == IsSegmentedUrl(url)
  {
    LowerIdempotent(url);
  }

  /** Every URL ending in `.ts` or `.m3u8`, in any letter case, is segmented. */
  lemma SegmentedBySuffix(stem: string, ext: string)
    requires Lower(ext) == ".ts" || Lower(ext) == ".m3u8"
    ensures IsSegmentedUrl(stem + ext)
  {
    LowerConcat(stem, ext);
    ContainsSuffix(Lower(stem), Lower(ext));
  }

  /** The buttons the component renders. `onPrev` is accepted as a prop but no
      control ever invokes it; the skip buttons exist only for on-demand media. */
  function Buttons(hasClose: bool, isLive: bool, hasNext: bool, hasPrev: bool): (r: set<Button>)
    ensures Prev !in r
    ensures Next in r <==> hasNext
    ensures Close in r <==> hasClose
    ensures (SkipBack in r <==> !isLive) && (SkipForward in r <==> !isLive)
    ensures {Favorite, PlayPause, Mute, Fullscreen} <= r
  {
    (if hasClose then {Close} else {})
    + {Favorite, PlayPause, Mute, Fullscreen}
    + (if isLive then {} else {SkipBack, SkipForward})
    + (if hasNext then {Next} else {})
  }

  // ---------------------------------------------------------------------------
  // Favourites (the `uni_favorites` list in local storage)
  // ---------------------------------------------------------------------------

  /** `ids.filter(x => x !== id)`. */
  function RemoveAll(ids: seq<string>, id: string): (r: seq<string>)
    ensures forall x :: x in r <==> x in ids && x != id
    ensures |r| <= |ids|
  {
    if ids == [] then []
    else (if ids[0] == id then [] else [ids[0]]) + RemoveAll(ids[1..], id)
  }

  lemma {:induction false} RemoveAllAbsent(ids: seq<string>, id: string)
    requires id !in ids
    ensures RemoveAll(ids, id) == ids
  {
    if ids != [] {
      RemoveAllAbsent(ids[1..], id);
      assert ids == [ids[0]] + ids[1..];
    }
  }

  lemma {:induction false} RemoveAllAppend(ids: seq<string>, id: string)
    ensures RemoveAll(ids + [id], id) == RemoveAll(ids, id)
  {
    if ids == [] {
      assert [] + [id] == [id];
      assert [id][1..] == [];
    } else {
      assert (ids + [id])[1..] == ids[1..] + [id];
      RemoveAllAppend(ids[1..], id);
    }
  }

  /** The list `toggleFavorite` writes: every occurrence removed when the content
      is marked favourite, the id appended otherwise. */
  function ToggledFavorites(ids: seq<string>, id: string, isFavorite: bool): seq<string> {
    if isFavorite then RemoveAll(ids, id) else ids + [id]
  }

  /** Toggling twice, starting from a flag that agrees with the stored list,
      restores membership of the content and of every other id; starting from
      "not a favourite" it restores the stored list exactly. */
  lemma ToggleTwiceRestores(ids: seq<string>, id: string, isFavorite: bool)
    requires isFavorite == (id in ids)
    ensures var once := ToggledFavorites(ids, id, isFavorite);
            var twice := ToggledFavorites(once, id, !isFavorite);
            (id in once) == !isFavorite
            && (id in twice) == isFavorite
            && (forall x :: x != id ==> (x in twice <==> x in ids))
            && (!isFavorite ==> twice == ids)
  {
    if !isFavorite {
      RemoveAllAppend(ids, id);
      RemoveAllAbsent(ids, id);
    }
  }

  /** The persisted favourites list, shared by every player. */
  class FavoritesStore {
    var ids: seq<string>
    /** Number of `setItem` calls made on the list. */
    var writes: nat

    constructor (stored: seq<string>)
      ensures ids == stored && writes == 0
    {
      ids := stored;
      writes := 0;
    }
  }

  // ---------------------------------------------------------------------------
  // The player
  // ---------------------------------------------------------------------------

  class Player {
    // Props.
    var url: string
    var contentId: string
    const isLive: bool
    const hasNext: bool
    /** `Hls.isSupported()` in this browser. */
    const hlsSupported: bool
    const favorites: FavoritesStore

    // React state.
    var isPlaying: bool
    var showControls: bool
    var progress: real
    var isMuted: bool
    var isLoading: bool
    var isFavorite: bool
    var errorCount: nat
    var osdKind: OsdKind
    var osdShow: bool

    // Refs and pending timers.
    var hlsRef: Option<nat>
    var watchdog: Timer
    var controlsTimer: Timer
    /** OSD-hide timeouts scheduled and not yet fired (they are never cancelled). */
    var osdHidesPending: nat
    var pipeline: Pipeline

    // The <video> element.
    var videoSrc: string
    var videoMuted: bool
    var currentTime: real
    var videoLoads: nat
    var playCalls: nat
    var pauseCalls: nat

    // Engine instances, numbered 0, 1, ... in creation order, and the calls made on them.
    var enginesCreated: nat
    var destroyed: seq<nat>
    var startLoads: seq<nat>
    var mediaRecoveries: seq<nat>

    /** The session invariant: every engine ever created has been destroyed,
        except possibly the one `hlsRef` holds; the engine whose listeners are
        attached is the one in `hlsRef`; pending timers carry their fixed delays. */
    ghost predicate Valid()
      reads this
    {
      && (hlsRef.Some? ==> hlsRef.value < enginesCreated)
      && (forall h :: 0 <= h < enginesCreated && h !in destroyed ==> hlsRef == Some(h))
      && (forall i :: 0 <= i < |destroyed| ==> destroyed[i] < enginesCreated)
      && (pipeline.Segmented? ==> hlsRef == Some(pipeline.engine))
      && (watchdog.Armed? ==> watchdog.delayMs == WatchdogMs)
      && (controlsTimer.Armed? ==> controlsTimer.delayMs == ControlsHideMs)
    }

    /** Engine instances created and not destroyed. */
    ghost function AliveEngines(): set<nat>
      reads this
    {
      set h | 0 <= h < enginesCreated && h !in destroyed
    }

    /** At most one engine instance is alive at any time, and it is the one in `hlsRef`. */
    lemma AtMostOneEngine()
      requires Valid()
      ensures |AliveEngines()| <= 1
      ensures forall h :: h in AliveEngines() ==> hlsRef == Some(h)
    {
      if hlsRef.None? {
        assert AliveEngines() == {};
      } else if hlsRef.value in AliveEngines() {
        assert AliveEngines() == {hlsRef.value};
      } else {
        assert AliveEngines() == {};
      }
    }

    /** The engine callbacks are live: an engine pipeline whose engine was not
        destroyed (a destroyed engine drops its listeners). */
    predicate EngineListening()
      reads this
    {
      pipeline.Segmented? && pipeline.engine !in destroyed
    }

    /** Mounting: initial state, then the favourites effect, then the URL effect. */
    constructor (url0: string, contentId0: string, isLive0: bool, hasNext0: bool,
                 hlsSupported0: bool, favorites0: FavoritesStore)
      ensures Valid()
      ensures url == url0 && contentId == contentId0 && isLive == isLive0
      ensures hasNext == hasNext0 && hlsSupported == hlsSupported0 && favorites == favorites0
      ensures isPlaying && showControls && !isMuted && isLoading && errorCount == 0
      ensures isFavorite == (contentId0 != "" && contentId0 in favorites0.ids)
      ensures watchdog == Armed(WatchdogMs) && controlsTimer == Idle && !osdShow
      ensures destroyed == [] && startLoads == [] && mediaRecoveries == []
      ensures if IsSegmentedUrl(url0) && hlsSupported0
              then enginesCreated == 1 && hlsRef == Some(0) && pipeline == Segmented(0)
              else enginesCreated == 0 && hlsRef == None && pipeline == Direct && videoSrc == url0
    {
      url := url0;
      contentId := contentId0;
      isLive := isLive0;
      hasNext := hasNext0;
      hlsSupported := hlsSupported0;
      favorites := favorites0;
      isPlaying := true;
      showControls := true;
      progress := 0.0;
      isMuted := false;
      isLoading := true;
      isFavorite := false;
      errorCount := 0;
      osdKind := Skip;
      osdShow := false;
      hlsRef := None;
      watchdog := Idle;
      controlsTimer := Idle;
      osdHidesPending := 0;
      pipeline := NoPipeline;
      videoSrc := "";
      videoMuted := false;
      currentTime := 0.0;
      videoLoads := 0;
      playCalls := 0;
      pauseCalls := 0;
      enginesCreated := 0;
      destroyed := [];
      startLoads := [];
      mediaRecoveries := [];
      new;
      if contentId != "" {
        isFavorite := contentId in favorites.ids;
      }
      assert Valid();
      RunUrlEffect();
    }

    /** The URL effect: reset, destroy and null any engine in `hlsRef`, re-arm
        the watchdog, then build the pipeline the URL calls for. */
    method RunUrlEffect()
      requires Valid() && pipeline == NoPipeline
      modifies this`isLoading, this`errorCount, this`hlsRef, this`destroyed, this`watchdog,
               this`pipeline, this`enginesCreated, this`videoSrc, this`videoLoads
      ensures Valid()
      ensures isLoading && errorCount == 0
      ensures destroyed == old(destroyed) + (if old(hlsRef).Some? then [old(hlsRef).value] else [])
      ensures watchdog == Armed(WatchdogMs)
      ensures if IsSegmentedUrl(url) && hlsSupported
              then enginesCreated == old(enginesCreated) + 1 && hlsRef == Some(old(enginesCreated))
                   && pipeline == Segmented(old(enginesCreated))
                   && videoSrc == old(videoSrc) && videoLoads == old(videoLoads)
              else enginesCreated == old(enginesCreated) && hlsRef == None && pipeline == Direct
                   && videoSrc == url && videoLoads == old(videoLoads) + 1
    {
      isLoading := true;
      errorCount := 0;
      DestroyHeldEngine();
      watchdog := Armed(WatchdogMs);
      BuildPipeline();
    }

    /** The second half of the URL effect: a new engine for a segmented URL
        when the browser supports it, otherwise the URL goes straight to the
        `<video>` element. */
    method BuildPipeline()
      requires Valid() && hlsRef == None && pipeline == NoPipeline
      modifies this`hlsRef, this`pipeline, this`enginesCreated, this`videoSrc, this`videoLoads
      ensures Valid()
      ensures if IsSegmentedUrl(url) && hlsSupported
              then enginesCreated == old(enginesCreated) + 1 && hlsRef == Some(old(enginesCreated))
                   && pipeline == Segmented(old(enginesCreated))
                   && videoSrc == old(videoSrc) && videoLoads == old(videoLoads)
              else enginesCreated == old(enginesCreated) && hlsRef == None && pipeline == Direct
                   && videoSrc == url && videoLoads == old(videoLoads) + 1
    {
      if IsSegmentedUrl(url) && hlsSupported {
        var h := enginesCreated;
        enginesCreated := enginesCreated + 1;
        hlsRef := Some(h);
        pipeline := Segmented(h);
      } else {
        videoSrc := url;
        videoLoads := videoLoads + 1;
        pipeline := Direct;
      }
    }

    /** `hlsRef.current.destroy(); hlsRef.current = null` when the ref holds an
        engine: afterwards every engine ever created is destroyed. */
    method DestroyHeldEngine()
      requires Valid() && !pipeline.Segmented?
      modifies this`destroyed, this`hlsRef
      ensures Valid()
      ensures destroyed == old(destroyed) + (if old(hlsRef).Some? then [old(hlsRef).value] else [])
      ensures hlsRef == None
      ensures forall h :: 0 <= h < enginesCreated ==> h in destroyed
      ensures forall i :: 0 <= i < |destroyed| ==> destroyed[i] < enginesCreated
    {
      if hlsRef.Some? {
        destroyed := destroyed + [hlsRef.value];
        hlsRef := None;
      }
    }

    /** The cleanup the URL effect returned. On the engine path it destroys the
        engine in `hlsRef` (without nulling the ref) and cancels the watchdog; on
        the direct path it only removes the two listeners, so the watchdog stays
        armed. */
    method Cleanup()
      requires Valid()
      modifies this`destroyed, this`watchdog, this`pipeline
      ensures Valid()
      ensures destroyed == old(destroyed) + (if old(pipeline).Segmented? then [old(hlsRef).value] else [])
      ensures watchdog == if old(pipeline).Segmented? then Idle else old(watchdog)
      ensures pipeline == NoPipeline
    {
      if pipeline.Segmented? {
        destroyed := destroyed + [hlsRef.value];
        watchdog := Idle;
      }
      pipeline := NoPipeline;
    }

    /** A new `url` prop: the previous effect's cleanup, then the effect. The same
        URL does not re-run the effect. */
    method ChangeUrl(newUrl: string)
      requires Valid()
      modifies this`url, this`isLoading, this`errorCount, this`hlsRef, this`destroyed, this`watchdog,
               this`pipeline, this`enginesCreated, this`videoSrc, this`videoLoads
      ensures Valid()
      ensures newUrl == old(url) ==> unchanged(this)
      ensures newUrl != old(url) ==>
        && url == newUrl && isLoading && errorCount == 0
        && watchdog == Armed(WatchdogMs)
        && (old(hlsRef).Some? ==> old(hlsRef).value !in AliveEngines())
        && destroyed == old(destroyed)
             + (if old(pipeline).Segmented? then [old(hlsRef).value] else [])
             + (if old(hlsRef).Some? then [old(hlsRef).value] else [])
        && (if IsSegmentedUrl(newUrl) && hlsSupported
            then enginesCreated == old(enginesCreated) + 1 && hlsRef == Some(old(enginesCreated))
                 && pipeline == Segmented(old(enginesCreated)) && AliveEngines() == {old(enginesCreated)}
            else hlsRef == None && pipeline == Direct && videoSrc == newUrl
                 && videoLoads == old(videoLoads) + 1 && AliveEngines() == {})
    {
      if newUrl != url {
        Cleanup();
        url := newUrl;
        RunUrlEffect();
        AtMostOneEngine();
        if hlsRef.Some? {
          assert hlsRef.value in AliveEngines();
        }
      }
    }

    /** Unmounting runs the last effect's cleanup. */
    method Dispose()
      requires Valid()
      modifies this`destroyed, this`watchdog, this`pipeline
      ensures Valid()
      ensures pipeline == NoPipeline && !EngineListening()
      ensures old(pipeline).Segmented? ==> watchdog == Idle && AliveEngines() == {}
      ensures old(pipeline).Direct? ==> watchdog == old(watchdog)
    {
      Cleanup();
    }

    /** `MANIFEST_PARSED`: clear loading, cancel the watchdog and start playback;
        when the platform rejects `play()`, mute the element, set `isMuted` and
        call `play()` once more. `playRejected` is the platform's answer. */
    method OnManifestParsed(playRejected: bool)
      requires Valid()
      modifies this`isLoading, this`watchdog, this`playCalls, this`videoMuted, this`isMuted
      ensures Valid()
      ensures !old(EngineListening()) ==> unchanged(this)
      ensures old(EngineListening()) ==>
        && !isLoading && watchdog == Idle
        && playCalls == old(playCalls) + (if playRejected then 2 else 1)
        && (if playRejected then videoMuted && isMuted
            else videoMuted == old(videoMuted) && isMuted == old(isMuted))
    {
      if EngineListening() {
        isLoading := false;
        watchdog := Idle;
        playCalls := playCalls + 1;
        if playRejected {
          videoMuted := true;
          isMuted := true;
          playCalls := playCalls + 1;
        }
      }
    }

    /** An engine `ERROR` event. Non-fatal events change nothing. A fatal one
        counts once, then: a network error resumes loading, a media error
        recovers the decoder, anything else clears loading and destroys the
        engine; `hlsRef` is never touched. */
    method OnEngineError(fatal: bool, kind: ErrorKind)
      requires Valid()
      modifies this`errorCount, this`startLoads, this`mediaRecoveries, this`isLoading, this`destroyed
      ensures Valid()
      ensures !(old(EngineListening()) && fatal) ==> unchanged(this)
      ensures old(EngineListening()) && fatal ==>
        var h := pipeline.engine;
        && errorCount == old(errorCount) + 1
        && startLoads == old(startLoads) + (if kind == NetworkError then [h] else [])
        && mediaRecoveries == old(mediaRecoveries) + (if kind == MediaError then [h] else [])
        && destroyed == old(destroyed) + (if kind == OtherError then [h] else [])
        && isLoading == (if kind == OtherError then false else old(isLoading))
        && (kind != OtherError <==> h in AliveEngines())
    {
      if EngineListening() && fatal {
        var h := pipeline.engine;
        errorCount := errorCount + 1;
        match kind {
          case NetworkError =>
            startLoads := startLoads + [h];
          case MediaError =>
            mediaRecoveries := mediaRecoveries + [h];
          case OtherError =>
            isLoading := false;
            destroyed := destroyed + [h];
        }
      }
    }

    /** `canplay` on the direct path: clear loading, cancel the watchdog, play. */
    method OnCanPlay()
      requires Valid()
      modifies this`isLoading, this`watchdog, this`playCalls
      ensures Valid()
      ensures old(pipeline) != Direct ==> unchanged(this)
      ensures old(pipeline) == Direct ==>
        !isLoading && watchdog == Idle && playCalls == old(playCalls) + 1
    {
      if pipeline == Direct {
        isLoading := false;
        watchdog := Idle;
        playCalls := playCalls + 1;
      }
    }

    /** `error` on the direct path: clear loading and cancel the watchdog; no retry. */
    method OnNativeError()
      requires Valid()
      modifies this`isLoading, this`watchdog
      ensures Valid()
      ensures old(pipeline) != Direct ==> unchanged(this)
      ensures old(pipeline) == Direct ==> !isLoading && watchdog == Idle
    {
      if pipeline == Direct {
        isLoading := false;
        watchdog := Idle;
      }
    }

    /** The watchdog fires: loading is forcibly cleared. A cancelled watchdog never fires. */
    method OnWatchdogFired()
      requires Valid()
      modifies this`isLoading, this`watchdog
      ensures Valid()
      ensures old(watchdog) == Idle ==> unchanged(this)
      ensures old(watchdog).Armed? ==> !isLoading && watchdog == Idle
    {
      if watchdog.Armed? {
        isLoading := false;
        watchdog := Idle;
      }
    }

    /** `waiting` and `stalled` set loading, `playing` clears it (without touching
        the watchdog), `ended` marks playback stopped. */
    method OnMediaEvent(e: MediaEvent)
      requires Valid()
      modifies this`isLoading, this`isPlaying
      ensures Valid()
      ensures e == Waiting || e == Stalled ==> isLoading && isPlaying == old(isPlaying)
      ensures e == Playing ==> !isLoading && isPlaying == old(isPlaying)
      ensures e == Ended ==> !isPlaying && isLoading == old(isLoading)
    {
      match e {
        case Waiting => isLoading := true;
        case Stalled => isLoading := true;
        case Playing => isLoading := false;
        case Ended => isPlaying := false;
      }
    }

    /** `timeupdate`: the progress percentage is recomputed only when the
        duration is known (non-zero). */
    method OnTimeUpdate(duration: real)
      requires Valid()
      modifies this`progress
      ensures Valid()
      ensures duration == 0.0 ==> progress == old(progress)
      ensures duration != 0.0 ==> progress * duration == currentTime * 100.0
    {
      if duration != 0.0 {
        progress := currentTime / duration * 100.0;
      }
    }

    /** Show the controls and re-arm the single hide timer. */
    method TriggerControls()
      requires Valid()
      modifies this`showControls, this`controlsTimer
      ensures Valid()
      ensures showControls && controlsTimer == Armed(ControlsHideMs)
    {
      showControls := true;
      controlsTimer := Armed(ControlsHideMs);
    }

    /** The controls-hide timer fires. */
    method OnControlsTimeout()
      requires Valid()
      modifies this`showControls, this`controlsTimer
      ensures Valid()
      ensures old(controlsTimer) == Idle ==> unchanged(this)
      ensures old(controlsTimer).Armed? ==> !showControls && controlsTimer == Idle
    {
      if controlsTimer.Armed? {
        showControls := false;
        controlsTimer := Idle;
      }
    }

    /** `seek(seconds)`: nothing for live content; otherwise move the playhead,
        flash the OSD (forward iff `seconds > 0`), schedule its hiding and show
        the controls. */
    method Seek(seconds: int)
      requires Valid()
      modifies this`currentTime, this`osdKind, this`osdShow, this`osdHidesPending,
               this`showControls, this`controlsTimer
      ensures Valid()
      ensures isLive ==> unchanged(this)
      ensures !isLive ==>
        && currentTime == old(currentTime) + seconds as real
        && osdShow && osdKind == (if seconds > 0 then Skip else Back)
        && osdHidesPending == old(osdHidesPending) + 1
        && showControls && controlsTimer == Armed(ControlsHideMs)
    {
      if !isLive {
        currentTime := currentTime + seconds as real;
        osdKind := if seconds > 0 then Skip else Back;
        osdShow := true;
        osdHidesPending := osdHidesPending + 1;
        TriggerControls();
      }
    }

    /** One of the pending OSD-hide timeouts fires: the OSD hides, keeping its icon. */
    method OnOsdTimeout()
      requires Valid()
      modifies this`osdShow, this`osdHidesPending
      ensures Valid()
      ensures old(osdHidesPending) == 0 ==> unchanged(this)
      ensures old(osdHidesPending) > 0 ==> !osdShow && osdHidesPending == old(osdHidesPending) - 1
    {
      if osdHidesPending > 0 {
        osdShow := false;
        osdHidesPending := osdHidesPending - 1;
      }
    }

    /** `handlePlayPause`: pause iff playing, play otherwise, flip `isPlaying`,
        show the controls. */
    method PlayPause()
      requires Valid()
      modifies this`isPlaying, this`playCalls, this`pauseCalls, this`showControls, this`controlsTimer
      ensures Valid()
      ensures isPlaying == !old(isPlaying)
      ensures pauseCalls == old(pauseCalls) + (if old(isPlaying) then 1 else 0)
      ensures playCalls == old(playCalls) + (if old(isPlaying) then 0 else 1)
      ensures showControls && controlsTimer == Armed(ControlsHideMs)
    {
      if isPlaying {
        pauseCalls := pauseCalls + 1;
      } else {
        playCalls := playCalls + 1;
      }
      isPlaying := !isPlaying;
      TriggerControls();
    }

    /** The mute button: flip `isMuted` and give the element the new value. */
    method ToggleMute()
      requires Valid()
      modifies this`isMuted, this`videoMuted
      ensures Valid()
      ensures isMuted == !old(isMuted) && videoMuted == isMuted
    {
      isMuted := !isMuted;
      videoMuted := isMuted;
    }

    /** `toggleFavorite`: without a content id nothing happens; otherwise the
        stored list is rewritten once and the flag flips. */
    method ToggleFavorite()
      requires Valid()
      modifies this`isFavorite, favorites
      ensures Valid()
      ensures contentId == "" ==> unchanged(this) && unchanged(favorites)
      ensures contentId != "" ==>
        && favorites.ids == ToggledFavorites(old(favorites.ids), contentId, old(isFavorite))
        && favorites.writes == old(favorites.writes) + 1
        && isFavorite == !old(isFavorite)
    {
      if contentId != "" {
        favorites.ids := ToggledFavorites(favorites.ids, contentId, isFavorite);
        favorites.writes := favorites.writes + 1;
        isFavorite := !isFavorite;
      }
    }

    /** A new `contentId` prop: the favourites effect reads the flag from the
        stored list (an empty id leaves the flag as it was). */
    method ChangeContentId(id: string)
      requires Valid()
      modifies this`contentId, this`isFavorite
      ensures Valid()
      ensures contentId == id
      ensures id == old(contentId) ==> isFavorite == old(isFavorite)
      ensures id != old(contentId) && id != "" ==> isFavorite == (id in favorites.ids)
      ensures id == "" ==> isFavorite == old(isFavorite)
    {
      if id != contentId {
        contentId := id;
        if id != "" {
          isFavorite := id in favorites.ids;
        }
      }
    }  }

  /** Membership after toggling through a player: favourite now iff not before,
      whatever the stored list held, as long as the flag agreed with it. */
  method ToggleTwiceThroughPlayer(p: Player)
    requires p.Valid() && p.contentId != "" && p.isFavorite == (p.contentId in p.favorites.ids)
    modifies p, p.favorites
    ensures p.Valid()
    ensures p.isFavorite == old(p.isFavorite)
    ensures (p.contentId in p.favorites.ids) == old(p.isFavorite)
    ensures p.favorites.writes == old(p.favorites.writes) + 2
  {
    ToggleTwiceRestores(p.favorites.ids, p.contentId, p.isFavorite);
    p.ToggleFavorite();
    p.ToggleFavorite();
  }

  /** A live `.ts` session that meets three fatal network errors keeps its one
      engine, counts three errors and resumes loading three times. */
  method ThreeNetworkErrors(favorites: FavoritesStore) returns (errors: nat, resumes: nat, engineKept: bool)
    ensures errors == 3 && resumes == 3 && engineKept
  {
    var url := "https://host/live/u/p/5.ts";
    SegmentedBySuffix("https://host/live/u/p/5", ".ts");
    assert "https://host/live/u/p/5" + ".ts" == url;
    var p := new Player(url, "", true, false, true, favorites);
    assert p.pipeline == Segmented(0) && p.isLoading;
    p.OnEngineError(true, NetworkError);
    p.OnEngineError(true, NetworkError);
    p.OnEngineError(true, NetworkError);
    errors := p.errorCount;
    resumes := |p.startLoads|;
    assert 0 in p.AliveEngines();
    engineKept := p.hlsRef == Some(0) && 0 !in p.destroyed;
  }
}
