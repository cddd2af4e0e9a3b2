# UniStream IPTV — a verified model of the client's rules

UniStream is a React IPTV client for an Xtream-Codes panel. It offers live TV,
films, series, a kids mode guarded by a four-digit parental PIN, search, and two
list caches. Most of the application is layout. This project models the rules
underneath it in Dafny and proves what they guarantee:

- the **playback session controller** of the video player. It covers the URL
  effect with its segmented-engine and direct branches, the 12 s loading
  watchdog, the engine error policy, autoplay with a muted retry, seeking with
  its on-screen indicator, play/pause, mute, the controls-hide timer and the
  favourites list;
- the **Xtream client**: credentials, API and list URLs, stream URLs, the
  login status check and the `ok` check of requests;
- two **cache policies**:
  - the open-channel directory's 30-minute in-memory cache, which serves stale
    data when the network fails;
  - the category pages' 12-hour snapshot, which is served at once and
    refreshed in the background;
- **list navigation**:
  - live-TV next/previous with wrap-around and id-or-name lookup;
  - series seasons in numeric order, with bounded episode stepping;
  - the kids carousel and its pages;
- **parental control**: the PIN keypad, the PIN-change form (whose check is
  JavaScript's `Number(...)` conversion), the kids-mode switch, the route
  guards and the bottom navigation;
- **classification**: the category icons of the film and series screens,
  kids-category detection, the case-insensitive search filter and the
  `||`-aliasing of VOD records;
- the **screen state machines** of the home, explore, details, series,
  films, live-TV, series-details and category pages: what each loads, when
  `loading` ends, and what each click changes.

## Modelling conventions

- Each source file becomes one module. Code that updates state step by step
  becomes a `class` whose fields are the component's state and refs, with one
  method per event. Each method's `ensures` gives the whole new state. Pure
  rules become functions, and lemmas state what they guarantee.
- Network and storage results are inputs:
  - `Fetch<T>` is `Ok(data) | Fail`;
  - `Http<T>` is a network failure or a response with its `ok` flag;
  - stored values are `Option`s.
- Clocks are `int` millisecond parameters.
- Timers are `Timer` fields (`Idle | Armed(delayMs)`), fired by their own
  methods.
- Streaming-engine instances are numbered handles. The calls made on them are
  logged in the fields `destroyed`, `startLoads` and `mediaRecoveries`.
- `toLowerCase` is modelled on ASCII and Latin-1 capitals: U+00C0..U+00DE
  without U+00D7, shifted by 32. This covers every keyword the screens test
  (`ação`, `comédia`, `ficção`, `animação`, `documentário`).
- `String.prototype.trim` removes the white space and line terminators of
  ECMAScript.
- `parseInt` skips leading white space, then reads an optional sign and the
  longest run of decimal digits (`None` stands for NaN).
- `isNaN(Number(s))` follows the StringToNumber grammar of ECMAScript (section
  7.1.4.1.1 of ECMA-262): decimal literals with fraction, exponent and sign,
  `Infinity`, and `0x`/`0b`/`0o` literals, after trimming.
- Absent or falsy string fields of JSON records are `""`. A `stream_id` is a
  number, a string or absent.

## Model

| member | source | states |
|---|---|---|
| VideoPlayer.IsSegmentedUrl | components/VideoPlayer.tsx:67 | a URL takes the segmented path iff its lower-cased form contains `.m3u8` or `.ts` anywhere |
| VideoPlayer.SegmentedUrlIgnoresCase | components/VideoPlayer.tsx:67 | the segmented-URL test gives the same answer for a URL and its lower-cased form |
| VideoPlayer.SegmentedBySuffix | components/VideoPlayer.tsx:67 | every URL ending in `.ts` or `.m3u8`, in any letter case, is classified as segmented |
| VideoPlayer.Buttons | components/VideoPlayer.tsx:229-304 | no control ever invokes `onPrev`; next is shown iff `onNext` is given, close iff `onClose` is; the skip buttons appear iff the content is not live; favourite, play/pause, mute and fullscreen are always shown |
| VideoPlayer.RemoveAll | components/VideoPlayer.tsx:41 | the filtered favourites hold exactly the stored ids other than the removed one, and are never longer |
| VideoPlayer.RemoveAllAbsent | components/VideoPlayer.tsx:41 | filtering out an id the list does not hold leaves the list unchanged |
| VideoPlayer.RemoveAllAppend | components/VideoPlayer.tsx:41-43 | filtering an id out after appending it gives the same list as filtering it out before |
| VideoPlayer.ToggledFavorites | components/VideoPlayer.tsx:39-46 | the new stored list: a favourite is filtered out of it (every copy), anything else is appended at the end |
| VideoPlayer.ToggleTwiceRestores | components/VideoPlayer.tsx:39-46 | when the flag agrees with the stored list, one toggle flips membership of the content; two toggles restore it and leave every other id's membership alone; starting from "not favourite", they restore the list exactly |
| VideoPlayer.FavoritesStore.constructor | components/VideoPlayer.tsx:32-37 | the favourites store starts from the stored list, with no writes |
| VideoPlayer.Player.AtMostOneEngine | components/VideoPlayer.tsx:53-81 | under the session invariant at most one engine instance is alive, and it is the one in `hlsRef` |
| VideoPlayer.Player.constructor | components/VideoPlayer.tsx:19-142 | after mounting, the state is playing, controls shown, unmuted, loading with no errors; the favourite flag is read from the stored list for a non-empty content id; the watchdog is armed for 12000 ms; the segmented path (engine 0) is taken iff the URL is segmented and the engine is supported, otherwise the URL is put on the video element |
| VideoPlayer.Player.DestroyHeldEngine | components/VideoPlayer.tsx:56-59 | the engine in `hlsRef`, if any, is destroyed and the ref nulled, after which every engine ever created is destroyed |
| VideoPlayer.Player.BuildPipeline | components/VideoPlayer.tsx:67-125 | a segmented URL in a browser that supports the engine gets a new engine in `hlsRef`; any other URL is assigned to the video element and loaded |
| VideoPlayer.Player.RunUrlEffect | components/VideoPlayer.tsx:49-136 | every URL effect sets loading and zeroes the error count; it destroys and nulls the engine in `hlsRef`, arms exactly one 12000 ms watchdog, then either creates a new engine (segmented URL and engine supported) or assigns and loads the URL on the video element |
| VideoPlayer.Player.Cleanup | components/VideoPlayer.tsx:132-141 | the segmented cleanup destroys the engine in `hlsRef` without nulling it and cancels the watchdog; the direct cleanup only detaches its listeners and leaves the watchdog armed |
| VideoPlayer.Player.ChangeUrl | components/VideoPlayer.tsx:49-142 | a new URL runs cleanup then the effect: loading is set, errors are zeroed, the watchdog is re-armed, the previous engine is no longer alive (destroyed twice when the segmented cleanup already destroyed it), and exactly the new pipeline's engine, or none, is alive; the same URL changes nothing |
| VideoPlayer.Player.Dispose | components/VideoPlayer.tsx:132-141 | after unmounting no engine listens; a segmented session leaves no live engine and no watchdog; a direct one leaves its watchdog as it was |
| VideoPlayer.Player.OnManifestParsed | components/VideoPlayer.tsx:83-91 | while the engine listens, the manifest clears loading, cancels the watchdog and calls `play()`; if that is rejected, it mutes the element, sets `isMuted` and calls `play()` once more; a destroyed engine's event changes nothing |
| VideoPlayer.Player.OnEngineError | components/VideoPlayer.tsx:93-112 | a non-fatal error changes nothing; a fatal one adds exactly 1 to `errorCount`; a network error then only resumes loading and a media error only recovers the decoder, both keeping the engine alive; any other kind clears loading and destroys the engine, without nulling `hlsRef` |
| VideoPlayer.Player.OnCanPlay | components/VideoPlayer.tsx:118-122 | on the direct path, `canplay` clears loading, cancels the watchdog and calls `play()` once; elsewhere it changes nothing |
| VideoPlayer.Player.OnNativeError | components/VideoPlayer.tsx:124-127 | on the direct path, `error` clears loading and cancels the watchdog, with no retry |
| VideoPlayer.Player.OnWatchdogFired | components/VideoPlayer.tsx:61-65 | an armed watchdog clears loading when it fires; a cancelled one never fires |
| VideoPlayer.Player.OnMediaEvent | components/VideoPlayer.tsx:187-190 | `waiting` and `stalled` set loading, `playing` clears it, `ended` stops playback; each changes nothing else |
| VideoPlayer.Player.OnTimeUpdate | components/VideoPlayer.tsx:182-186 | progress is recomputed as currentTime/duration·100 only when the duration is non-zero |
| VideoPlayer.Player.TriggerControls | components/VideoPlayer.tsx:144-148 | the controls are shown and the one hide timer is re-armed for 4000 ms |
| VideoPlayer.Player.OnControlsTimeout | components/VideoPlayer.tsx:146-147 | the armed hide timer hides the controls when it fires |
| VideoPlayer.Player.Seek | components/VideoPlayer.tsx:150-158 | seeking is a no-op for live content; otherwise the playhead moves by the offset, the indicator shows forward iff the offset is positive, one 600 ms hide is scheduled and the controls are shown |
| VideoPlayer.Player.OnOsdTimeout | components/VideoPlayer.tsx:155 | a scheduled hide of the indicator hides it and keeps its icon |
| VideoPlayer.Player.PlayPause | components/VideoPlayer.tsx:160-168 | play/pause calls `pause()` iff playing and `play()` otherwise, flips `isPlaying` and shows the controls |
| VideoPlayer.Player.ToggleMute | components/VideoPlayer.tsx:287 | mute flips `isMuted` and gives the element the new value |
| VideoPlayer.Player.ToggleFavorite | components/VideoPlayer.tsx:39-46 | without a content id, toggling changes nothing; otherwise the stored list is rewritten exactly once (every occurrence removed when favourite, the id appended when not) and the flag flips |
| VideoPlayer.Player.ChangeContentId | components/VideoPlayer.tsx:32-37 | a new non-empty content id reads its favourite flag from the stored list; an empty one leaves the flag as it was |
| VideoPlayer.ToggleTwiceThroughPlayer | components/VideoPlayer.tsx:39-46 | two favourite toggles through a player restore both the flag and the stored membership, with two writes |
| VideoPlayer.ThreeNetworkErrors | components/VideoPlayer.tsx:93-104 | a segmented live session that meets three fatal network errors counts three errors, resumes loading three times and keeps its engine |
| XtreamService.ApiUrl | services/XtreamService.ts:16 | the API URL: the base, `/player_api.php`, the username, password and action as query parameters, then the extra parameters verbatim |
| XtreamService.LoginUrl | services/XtreamService.ts:28 | the login URL: the same endpoint with the credentials and no action |
| XtreamService.CategoryParam | services/XtreamService.ts:49-63 | a list call adds `&category_id=` followed by the id exactly when the id is non-empty, and nothing otherwise |
| XtreamService.ListUrl | services/XtreamService.ts:50-62 | a list call's URL: the API URL of its action with the category parameter |
| XtreamService.ListUrlDistinguishesCategories | services/XtreamService.ts:37-63 | two list URLs for the same action and credentials are equal only for the same category, so the filter is never lost or confused |
| XtreamService.StreamUrl | services/XtreamService.ts:73-84 | a stream URL: `/live/`, `/series/` or `/movie/` by kind, then username, password and id, with the container extension |
| XtreamService.StreamUrlExtension | services/XtreamService.ts:73-84 | live stream URLs carry `.ts`, episode and film URLs `.mp4` |
| XtreamService.LoginCheck | services/XtreamService.ts:31-33 | login resolves iff the status is `Active`, with the data unchanged; otherwise it rejects with the status text, or with `Invalid credentials` when the status is missing or empty |
| XtreamService.Login | services/XtreamService.ts:27-35 | a network failure rejects the login; any response that arrives, ok or not, is decided by `LoginCheck` on its body alone: it resolves iff the status is `Active`, otherwise it rejects with the status text or `Invalid credentials` |
| XtreamService.Request | services/XtreamService.ts:15-25 | a request resolves iff the response arrived with `ok`, yielding its body; a non-ok response rejects with `Network response was not ok` |
| XtreamService.XtreamClient.constructor | services/XtreamService.ts:6-8 | the client starts with empty credentials |
| XtreamService.XtreamClient.SetCredentials | services/XtreamService.ts:10-13 | both credentials are overwritten |
| XtreamService.XtreamClient.BuildStreamUrl | services/XtreamService.ts:73-84 | stream URLs use the current credentials under `/live/…ts`, `/series/…mp4` or `/movie/…mp4` |
| XtreamService.XtreamClient.RequestUrl | services/XtreamService.ts:16 | the request URL is the `player_api.php` URL with the current credentials and the action, followed by the extra parameters verbatim |
| XtreamService.XtreamClient.ListRequestUrl | services/XtreamService.ts:37-63 | a list call without a category requests the bare action URL |
| XtreamService.CredentialsFlowIntoUrls | services/XtreamService.ts:10-77 | after `setCredentials`, the next stream URL carries the new credentials, whatever the old ones were |
| ReiService.IsFresh | services/ReiService.ts:12 | the cache is fresh iff it is present and strictly less than 30 minutes old |
| ReiService.GetChannelsSpec | services/ReiService.ts:11-29 | the network is used iff the cache is missing or at least 30 minutes old; a fresh cache is returned unchanged; a failure returns the old cache, or `[]`, and changes neither field; a success caches the array (or `[]` for a non-array) stamped with the completion time |
| ReiService.ExactTtlIsExpired | services/ReiService.ts:12 | a cache exactly the TTL old is refetched, and one a millisecond younger is served |
| ReiService.SuccessServesUntilExpiry | services/ReiService.ts:12-24 | after a successful fetch, every call within the next 30 minutes is served the same list without a fetch, whatever the network would answer |
| ReiService.FailureKeepsStaleCache | services/ReiService.ts:25-28 | a failed refresh serves the stale list (or `[]`) and leaves the state unchanged, so the next call fetches again |
| ReiService.EmptyListIsACache | services/ReiService.ts:7-14 | a cached empty list counts as a cache and is served without a fetch |
| ReiService.FirstCallFetches | services/ReiService.ts:7-28 | the first call always fetches, and a failure then yields `[]` |
| ReiService.ReiCache.constructor | services/ReiService.ts:7-8 | the service starts with no cache and `lastFetch` 0 |
| ReiService.ReiCache.GetChannels | services/ReiService.ts:11-29 | every call resolves with the list, and the new fields are exactly as the policy above says |
| LiveTvScreen.SourceFor | screens/LiveTVScreen.tsx:30-36 | `rei_dos_canais` loads from the open directory, `portugal_free` from the Portuguese list, any other id from the panel's live streams for that category |
| LiveTvScreen.Matches | screens/LiveTVScreen.tsx:58-61 | a channel matches the active one iff it has a truthy id whose text equals the active id's text, or it has the same name |
| LiveTvScreen.MatchesItself | screens/LiveTVScreen.tsx:58-61 | the lookup always matches a channel with itself |
| LiveTvScreen.FindChannel | screens/LiveTVScreen.tsx:58-63 | the lookup returns the first matching position (same truthy id text, or same name), or -1 iff none matches |
| LiveTvScreen.StepIndex | screens/LiveTVScreen.tsx:65-70 | the next index is in range and wraps from the last to the first; the previous index wraps from the first to the last |
| LiveTvScreen.StepRoundTrip | screens/LiveTVScreen.tsx:65-70 | next then previous, and previous then next, return to the starting index |
| LiveTvScreen.Navigate | screens/LiveTVScreen.tsx:55-73 | with no channels, no active channel, or an active channel not found, nothing changes; otherwise the channel one step away from the found position becomes active |
| LiveTvScreen.FindsOwnPosition | screens/LiveTVScreen.tsx:58-61 | in a list with no shared names or shared truthy ids, every channel is found at its own position |
| LiveTvScreen.NavigateRoundTrip | screens/LiveTVScreen.tsx:55-73 | in such a list, next then previous (and previous then next) returns to the channel at the starting position |
| LiveTvScreen.SharedNameTrapsNext | screens/LiveTVScreen.tsx:58-60 | when a later channel shares its name with an earlier one, next from the later one lands on the later one again |
| LiveTvScreen.StreamUrlFor | screens/LiveTVScreen.tsx:75-79 | no channel gives `""`, a channel with its own stream URL gives that URL, any other gives the live panel URL for its `stream_id` |
| LiveTvScreen.PanelChannelIsSegmented | screens/LiveTVScreen.tsx:75-79 | a panel channel's URL always takes the player's segmented path, whatever the credentials and id |
| LiveTvScreen.LiveTv.constructor | screens/LiveTVScreen.tsx:20-24 | on mount, `portugal_free` is the active category and is loading |
| LiveTvScreen.LiveTv.BeginLoad | screens/LiveTVScreen.tsx:26-36 | loading starts and the request goes to the source the category selects |
| LiveTvScreen.LiveTv.CompleteLoad | screens/LiveTVScreen.tsx:37-46 | on success the list is replaced and its first channel becomes active when it has one; on failure only loading changes; loading ends either way |
| LiveTvScreen.LiveTv.HandleCatChange | screens/LiveTVScreen.tsx:49-53 | the active category is a no-op; another one becomes active and its source is loaded |
| LiveTvScreen.LiveTv.NavigateChannel | screens/LiveTVScreen.tsx:55-73 | the active channel after next/previous is one from the list, or unchanged |
| LiveTvScreen.LiveTv.Select | screens/LiveTVScreen.tsx:151 | clicking a channel makes it active |
| LiveTvScreen.LiveTv.CurrentStreamUrl | screens/LiveTVScreen.tsx:92-94 | the player gets the active channel's stream URL, and `""` without one |
| SeriesDetails.SeasonNumbers | screens/SeriesDetails.tsx:27 | each season key is mapped to its `parseInt` value |
| SeriesDetails.Insert | screens/SeriesDetails.tsx:27 | inserting a key into a list adds exactly that key and nothing else |
| SeriesDetails.InsertSorted | screens/SeriesDetails.tsx:27 | inserting a key into a list sorted by season number keeps it sorted |
| SeriesDetails.SortBy | screens/SeriesDetails.tsx:27 | the sort returns a permutation of the keys, sorted by their numbers |
| SeriesDetails.SortSeasons | screens/SeriesDetails.tsx:27 | the season keys are reordered, as a permutation, ascending by `parseInt` value |
| SeriesDetails.InsertStable | screens/SeriesDetails.tsx:27 | an inserted key lands after every key of the same number, so the keys of each number keep their order |
| SeriesDetails.SortByStable | screens/SeriesDetails.tsx:27 | the sort is stable: for every number, the keys carrying it appear in the result in their input order |
| SeriesDetails.SortSeasonsStable | screens/SeriesDetails.tsx:27 | season keys with the same `parseInt` value (such as `1` and `01`) keep their `Object.keys` order, as the stable `Array.prototype.sort` keeps them |
| SeriesDetails.FirstSeasonIsLowest | screens/SeriesDetails.tsx:27-28 | the season selected after loading is one of the keys, and its number is the lowest |
| SeriesDetails.EpisodeIndex | screens/SeriesDetails.tsx:46 | the lookup returns the first episode with the id, or -1 iff there is none |
| SeriesDetails.CurrentIndex | screens/SeriesDetails.tsx:68 | the current episode's position in the season by id, or -1 when none is playing |
| SeriesDetails.HasPrev | screens/SeriesDetails.tsx:69 | there is a previous episode iff the current position is above 0 |
| SeriesDetails.HasNext | screens/SeriesDetails.tsx:70 | there is a next episode iff the current position is below the season's last |
| SeriesDetails.NavigateEpisode | screens/SeriesDetails.tsx:43-53 | without data or a current episode nothing changes; otherwise the result is the current episode or one of the selected season's episodes |
| SeriesDetails.CallbacksMatchNavigation | screens/SeriesDetails.tsx:45-82 | next moves to the following episode exactly when `hasNextEp` holds and prev to the preceding one exactly when `hasPrevEp` holds, else nothing changes (no wrap-around); an episode outside the season steps forward to the season's first episode |
| SeriesDetails.NextThenPrev | screens/SeriesDetails.tsx:43-53 | with distinct episode ids, next then prev returns to the episode at the current position |
| SeriesDetails.EpisodeContentId | screens/SeriesDetails.tsx:77 | an episode's favourite id is `series_ep_` followed by the episode id |
| SeriesDetails.EpisodeContentIdInjective | screens/SeriesDetails.tsx:77 | distinct episodes never share a favourite id |
| SeriesDetails.EpisodePlayerProps | screens/SeriesDetails.tsx:76-82 | the player gets the episode's favourite id and series URL, with next and previous callbacks exactly when `hasNextEp` and `hasPrevEp` hold |
| SeriesDetails.SeriesDetailsView.constructor | screens/SeriesDetails.tsx:11-15 | the screen starts loading, with no data, season, episode or playback |
| SeriesDetails.SeriesDetailsView.CompleteLoad | screens/SeriesDetails.tsx:22-34 | on success the data is stored and the lowest-numbered season selected, if any; on failure only loading changes; loading ends either way |
| SeriesDetails.SeriesDetailsView.HandleSeasonChange | screens/SeriesDetails.tsx:36-37 | the clicked season becomes selected |
| SeriesDetails.SeriesDetailsView.Navigate | screens/SeriesDetails.tsx:43-53 | the current episode moves as the navigation rule says |
| SeriesDetails.SeriesDetailsView.SelectEpisode | screens/SeriesDetails.tsx:120 | clicking an episode makes it current and starts playing |
| SeriesDetails.SeriesDetailsView.ClosePlayer | screens/SeriesDetails.tsx:80 | closing the player stops playing |
| SeriesDetails.SeriesDetailsView.Props | screens/SeriesDetails.tsx:55-83 | the player is rendered iff data is loaded and an episode is playing, with that episode's props |
| PinModal.KeyPress | components/PinModal.tsx:15-31 | a key press on a full entry is ignored; otherwise the digit is appended; on reaching four characters, `onSuccess` fires iff the entry is the kids PIN, and otherwise the error is set and one reset is scheduled; the entry stays at most four digits |
| PinModal.Delete | components/PinModal.tsx:33-35 | delete drops the last character (an empty entry stays empty), keeps the entry valid and leaves the error alone |
| PinModal.ResetFires | components/PinModal.tsx:24-27 | a scheduled reset empties the entry and clears the error |
| PinModal.KeysText | components/PinModal.tsx:59-69 | the keypad types only the digits of the keys pressed, one character per key |
| PinModal.TypingUpToFour | components/PinModal.tsx:15-31 | from a fresh keypad, up to four keys: the entry is exactly what was typed; `onSuccess` fires once iff four keys spell the PIN; the error (with one pending reset) is set iff four keys spell anything else |
| PinModal.FullEntryIgnoresKeys | components/PinModal.tsx:16 | once four characters are entered, every further key is ignored, so none reaches `onSuccess` |
| PinModal.DeleteDuringErrorReopensEntry | components/PinModal.tsx:15-35 | deleting while the reset is pending lets a new last digit through, and a correct one calls `onSuccess` with the error still raised |
| PinModal.PinPad.constructor | components/PinModal.tsx:10-13 | a fresh keypad is empty, with no error |
| PinModal.PinPad.PressDigit | components/PinModal.tsx:15-31 | a key press steps the keypad by the rule above and counts each `onSuccess` |
| PinModal.PinPad.PressDelete | components/PinModal.tsx:33-35 | the delete key steps the keypad by the delete rule |
| PinModal.PinPad.OnResetTimeout | components/PinModal.tsx:24-27 | a pending reset clears the keypad when it fires |
| ProfileScreen.NumberIsNaN | screens/ProfileScreen.tsx:29 | `Number(s)` is NaN iff the trimmed text is non-empty and neither a decimal literal (sign, digits, fraction, exponent, `Infinity`) nor a `0x`/`0o`/`0b` literal |
| ProfileScreen.NewPinAcceptable | screens/ProfileScreen.tsx:29 | a new PIN passes iff it has exactly four characters and does not convert to NaN |
| ProfileScreen.TrimWithoutSpace | screens/ProfileScreen.tsx:29 | the numeric conversion leaves a string without white space as it is |
| ProfileScreen.LiteralAccepted | screens/ProfileScreen.tsx:29 | four visible characters that form a decimal or hexadecimal/binary/octal literal pass the check |
| ProfileScreen.NonLiteralRejected | screens/ProfileScreen.tsx:29 | a non-empty string without white space that is no numeric literal fails the check |
| ProfileScreen.FourDigitsAccepted | screens/ProfileScreen.tsx:29 | every four-digit PIN passes the new-PIN check |
| ProfileScreen.ExponentAccepted | screens/ProfileScreen.tsx:29 | `1e10` passes the check, which is not a digits-only test |
| ProfileScreen.FractionAccepted | screens/ProfileScreen.tsx:29 | `1.25` passes the check |
| ProfileScreen.SignAccepted | screens/ProfileScreen.tsx:29 | `-123` passes the check |
| ProfileScreen.HexAccepted | screens/ProfileScreen.tsx:29 | `0x1F` passes the check |
| ProfileScreen.AcceptedByTrimmedLiteral | screens/ProfileScreen.tsx:29 | any four characters whose trimmed form is a decimal literal pass the check |
| ProfileScreen.PaddingAccepted | screens/ProfileScreen.tsx:29 | ` 12 ` passes the check: surrounding white space is ignored |
| ProfileScreen.BlankAccepted | screens/ProfileScreen.tsx:29 | four spaces pass the check, since blank converts to 0 |
| ProfileScreen.LetterRejected | screens/ProfileScreen.tsx:29 | `12a4` fails the check |
| ProfileScreen.AcceptedPinMayBeUnenterable | screens/ProfileScreen.tsx:29-34 | the form accepts `1e10` as the new PIN, yet no keypad sequence types it, so kids mode can then no longer be left |
| ProfileScreen.CheckPinUpdate | screens/ProfileScreen.tsx:20-34 | a wrong current PIN is rejected whatever the new one is; then a new PIN not of length 4, or NaN, is rejected; otherwise the new PIN is accepted unchanged |
| ProfileScreen.ErrorMessage | screens/ProfileScreen.tsx:22-32 | an error message is shown exactly when the update is rejected |
| ProfileScreen.CurrentCheckedFirst | screens/ProfileScreen.tsx:24-27 | a wrong current PIN is reported as such even when the new PIN is also invalid |
| ProfileScreen.ToggleKidsMode | screens/ProfileScreen.tsx:12-18 | the switch only asks to exit when kids mode is on, and turns it on when it is off; it never turns it off |
| ProfileScreen.BottomButton | screens/ProfileScreen.tsx:163 | in kids mode the bottom button asks to leave kids mode; otherwise it reloads |
| ProfileScreen.PinForm.constructor | screens/ProfileScreen.tsx:8-10 | the form starts closed and empty, with no error |
| ProfileScreen.PinForm.ToggleEditor | screens/ProfileScreen.tsx:90 | the edit row opens or closes the form |
| ProfileScreen.PinForm.HandleUpdatePin | screens/ProfileScreen.tsx:20-38 | a rejection shows its message and keeps the form; an acceptance hands the new PIN to `updateKidsPin`, closes the editor and clears both fields |
| App.Route | App.tsx:152-164 | `/login` is always open; films, series and live TV open only signed in and outside kids mode, otherwise redirecting home; the other named paths need only a session, otherwise redirecting to login; unknown paths redirect home |
| App.RouteGuards | App.tsx:152-164 | following redirects: signed out, every path ends on the login screen; signed in, only `/login` does; in kids mode no path reaches films, series or live TV; outside kids mode every named path shows its own screen |
| App.Settle | App.tsx:152-164 | the screen reached from a path by following the route table's redirects until a screen is shown |
| App.NavLinks | App.tsx:40-74 | explore and series links appear iff kids mode is off, and the centre button targets home in kids mode and live TV otherwise |
| App.NavLinksAreOpen | App.tsx:40-74 | for a signed-in user every navigation link opens its own screen, never a redirect |
| App.AppState.constructor | App.tsx:78-86 | the app starts signed out, outside kids mode, with PIN `1234` and no categories |
| App.AppState.Mount | App.tsx:88-105 | saved credentials go to the client and start an auto-login; a saved non-empty PIN replaces the default |
| App.AppState.AutoLoginSettled | App.tsx:93-111 | a successful auto-login stores the session and starts the category refresh; a failed one deletes the saved credentials |
| App.AppState.RefreshSettled | App.tsx:118-134 | on success all three category lists are replaced; on failure none is; loading ends either way |
| App.AppState.UpdateKidsPin | App.tsx:113-116 | the kids PIN and its stored value change together to the same value |
| App.AppState.EnableKidsMode | App.tsx:145 | switching kids mode on sets it |
| App.AppState.RequestExitKidsMode | App.tsx:136 | an exit request only opens the PIN modal |
| App.AppState.HandlePinSuccess | App.tsx:137-140 | a correct PIN leaves kids mode and closes the modal |
| App.AppState.ClosePinModal | App.tsx:167 | closing the modal leaves kids mode as it was |
| App.AppState.ShowsNavigation | App.tsx:166 | the bottom navigation is shown iff signed in |
| App.ExitKidsModeWithKeys | App.tsx:136-167 | through the modal, four keys end kids mode exactly when they spell the current PIN; otherwise the modal stays open and the PIN is unchanged |
| KidsScreen.CeilDiv | screens/KidsScreen.tsx:15 | `Math.ceil(a / b)` is the least number of b-sized pages holding a items |
| KidsScreen.MaxIndex | screens/KidsScreen.tsx:13-15 | the last carousel index is 3 |
| KidsScreen.NextCartoon | screens/KidsScreen.tsx:42-44 | next moves one index on, and from the last index (or beyond) back to 0 |
| KidsScreen.PrevCartoon | screens/KidsScreen.tsx:46-48 | previous moves one index back, and from 0 to the last index |
| KidsScreen.StepsStayInRange | screens/KidsScreen.tsx:42-48 | next and previous keep the carousel index in `[0, 3]` |
| KidsScreen.CarouselRoundTrip | screens/KidsScreen.tsx:42-48 | next then previous, and previous then next, restore the index; next wraps from 3 to 0 and previous from 0 to 3 |
| KidsScreen.CarouselCycle | screens/KidsScreen.tsx:42-44 | four presses of next return to the start, and fewer do not |
| KidsScreen.Slice | screens/KidsScreen.tsx:159 | `slice` with clamped ends yields the elements from the start index, as many as fit |
| KidsScreen.Page | screens/KidsScreen.tsx:159 | page p is the slice from p·per to (p+1)·per |
| KidsScreen.PageCount | screens/KidsScreen.tsx:157 | the number of pages is `Math.ceil(length / per)` |
| KidsScreen.PagesUpToIsPrefix | screens/KidsScreen.tsx:157-159 | the first k pages laid end to end are the list's first k·per elements |
| KidsScreen.PagesPartition | screens/KidsScreen.tsx:157-159 | the rendered pages partition the drawings in order, each holding between one and `itemsPerPage` drawings |
| KidsScreen.KidsPages | screens/KidsScreen.tsx:13-159 | there are four pages of two drawings, the first `[1, 2]` and the last `[7, 8]` |
| KidsScreen.ParentalClick | screens/KidsScreen.tsx:17-24 | the parental button only asks to exit in kids mode; otherwise it enables kids mode and goes home |
| DynamicContentPage.CacheKey | screens/DynamicContentPage.tsx:24 | the snapshot key is `uni_cache_`, the type, `_` and the category id |
| DynamicContentPage.ActionFor | screens/DynamicContentPage.tsx:47-49 | type `series` fetches series, and every other type fetches VOD streams |
| DynamicContentPage.IsStale | screens/DynamicContentPage.tsx:34 | a snapshot is stale iff it is strictly more than 12 h old |
| DynamicContentPage.Load | screens/DynamicContentPage.tsx:19-43 | without a category nothing happens; a snapshot is shown at once with loading off, and refreshed silently only when strictly older than 12 h; without one, loading is set and a foreground fetch starts |
| DynamicContentPage.Settle | screens/DynamicContentPage.tsx:45-58 | a success shows the data and stores it with the completion time under the key; a failure changes neither; loading ends after a foreground fetch and is untouched by a silent one |
| DynamicContentPage.SnapshotServedWithoutWaiting | screens/DynamicContentPage.tsx:28-37 | with a snapshot, its items are shown with loading off before any fetch settles; the background refresh is silent, loading stays off whatever it brings, and a failed refresh leaves the shown items as they are |
| DynamicContentPage.RefreshBoundary | screens/DynamicContentPage.tsx:34-36 | a snapshot exactly 12 h old is not refreshed, and one a millisecond older is |
| DynamicContentPage.FirstVisitThenCached | screens/DynamicContentPage.tsx:23-58 | a first visit fetches in the foreground; after it succeeds, a revisit within 12 h shows the stored data with no fetch |
| DynamicContentPage.CacheKeyInjective | screens/DynamicContentPage.tsx:24 | for the types `movie` and `series`, distinct pages never share a snapshot key |
| DynamicContentPage.CacheKeyAmbiguous | screens/DynamicContentPage.tsx:24 | for arbitrary route types the key is ambiguous: type `a_b` with category `c` and type `a` with category `b_c` share one |
| DynamicContentPage.SnapshotStore.constructor | screens/DynamicContentPage.tsx:25 | the store holds the snapshots already saved |
| DynamicContentPage.ContentPage.constructor | screens/DynamicContentPage.tsx:13-14 | the page starts empty and loading |
| DynamicContentPage.ContentPage.Open | screens/DynamicContentPage.tsx:19-43 | opening a page applies the load rule above to the stored snapshots |
| DynamicContentPage.ContentPage.FetchSettled | screens/DynamicContentPage.tsx:45-58 | a settled fetch applies the settle rule above to the page and the store |
| Explore.NameMatches | screens/Explore.tsx:35-36 | a name matches iff its lower-cased form contains the lower-cased query |
| Explore.FilterByName | screens/Explore.tsx:34-37 | the results are exactly the entries whose lower-cased name contains the lower-cased query, never more than were fetched |
| Explore.FilterAppend | screens/Explore.tsx:34-37 | filtering keeps the original order: filtering a concatenation is filtering each part |
| Explore.QueryCaseIgnored | screens/Explore.tsx:35-37 | the query's case never changes a match |
| Explore.FilterDependsOnFoldedQuery | screens/Explore.tsx:35-37 | two queries equal up to case give the same results |
| Explore.FilterIdempotent | screens/Explore.tsx:34-37 | filtering the results again by the same query changes nothing |
| Explore.NameMatchesItself | screens/Explore.tsx:35-37 | searching an entry's exact name always finds it |
| Explore.SearchPanel.constructor | screens/Explore.tsx:13-22 | a search panel starts with no input, results, last query or running search |
| Explore.SearchPanel.SetInput | screens/Explore.tsx:98 | typing replaces the input |
| Explore.SearchPanel.Submit | screens/Explore.tsx:24-31 | a query blank after trimming changes nothing; otherwise the search starts with the results cleared and the trimmed query recorded |
| Explore.SearchPanel.Settled | screens/Explore.tsx:32-44 | a success shows the filtered results and clears the input; a failure keeps both; the search ends either way |
| Explore.SearchPanel.Clear | screens/Explore.tsx:71-74 | clearing empties the results and the last query |
| Explore.Search | screens/Explore.tsx:24-45 | a whole search by a non-blank query ends with exactly the matching entries shown and the input cleared, or with no results and the input kept after a failure |
| Explore.ExploreScreen.constructor | screens/Explore.tsx:10-22 | both search panels start idle and empty |
| Explore.ExploreScreen.Grid | screens/Explore.tsx:204-231 | the category grid is shown iff neither panel has a last query or a running search, with at most six categories per section |
| Explore.SearchHidesGrid | screens/Explore.tsx:24-45 | the grid disappears while a search runs and after it, until the results are cleared |
| HomeScreen.IsKidsCategory | screens/HomeScreen.tsx:34-36 | a category is a kids one iff its lower-cased name contains `kids`, `infantil`, `desenhos` or `animação` |
| HomeScreen.FindKidsCategory | screens/HomeScreen.tsx:34-36 | the kids category is the first whose lower-cased name contains `kids`, `infantil`, `desenhos` or `animação`, or none iff no category does |
| HomeScreen.KidsCategoryIgnoresCase | screens/HomeScreen.tsx:35 | kids detection ignores the name's case |
| HomeScreen.KeywordMarksKids | screens/HomeScreen.tsx:34-36 | a keyword anywhere in the name, in any surrounding case, marks a kids category |
| HomeScreen.HeroOf | screens/HomeScreen.tsx:49-53 | the hero is the first featured film, or the placeholder exactly when there is none |
| HomeScreen.RecentRail | screens/HomeScreen.tsx:131-135 | the recent rail shows the featured films from the second onward, only outside kids mode and only when there is more than one |
| HomeScreen.HeroAndRecentCoverFeatured | screens/HomeScreen.tsx:49-135 | outside kids mode the hero and the recent rail show every featured film exactly once, in order |
| HomeScreen.Home.constructor | screens/HomeScreen.tsx:10-15 | the home screen starts with empty lists, no loading and no load under way |
| HomeScreen.Home.AuthChanged | screens/HomeScreen.tsx:17-21 | data loads only when signed in, and the load searches the film categories of the render in which the effect ran |
| HomeScreen.Home.RefreshPressed | screens/HomeScreen.tsx:66 | the refresh button starts a load that searches the film categories of the current render |
| HomeScreen.Home.FirstStageSettled | screens/HomeScreen.tsx:23-46 | on success the featured films are cut to 10 and the open channels to 12, and the kids films are requested iff the category list the load started with has a kids category; later changes to the context's list are not seen; loading stays on only while that request runs |
| HomeScreen.Home.KidsSettled | screens/HomeScreen.tsx:38-46 | the kids films are cut to 10; loading ends either way |
| HomeScreen.Home.Rails | screens/HomeScreen.tsx:105-147 | the open-channel rail is shown outside kids mode when it has channels; the kids rail in kids mode or when it has films |
| HomeScreen.LoadInitialData | screens/HomeScreen.tsx:23-47 | a whole load ends with loading off after every outcome and every list within its limit; without a kids category the kids films are untouched |
| HomeScreen.FreshLoginRequestsNoKids | screens/HomeScreen.tsx:17-46 | a load started by the `[auth]` effect on a fresh login, when no category has been fetched yet, requests no kids films and leaves the kids rail empty, whatever the first fetch returns |
| HomeScreen.RefreshFindsKids | screens/HomeScreen.tsx:66 | a load started by the refresh button requests the films of the kids category of the current list iff it has one |
| DetailsScreen.Or | screens/DetailsScreen.tsx:29-31 | `a \|\| b` is blank only when both are, and keeps a non-blank `a` |
| DetailsScreen.RecordOf | screens/DetailsScreen.tsx:25 | the record read is `info` when present, else the response itself |
| DetailsScreen.Normalise | screens/DetailsScreen.tsx:25-32 | the stored content has the route id as `stream_id`, and its name, plot and thumbnail resolved through their aliases |
| DetailsScreen.NormaliseReadsOnlyInfo | screens/DetailsScreen.tsx:25-28 | the route id wins over the record's own id, and with `info` present the top-level fields are never read |
| DetailsScreen.AliasesAreFallbacks | screens/DetailsScreen.tsx:29-31 | a present primary field is kept and the alias is used only for a blank one; a field is blank only when both aliases are |
| DetailsScreen.VodContentId | screens/DetailsScreen.tsx:69 | a film's favourite id is `vod_` followed by the route id |
| DetailsScreen.VodContentIdInjective | screens/DetailsScreen.tsx:69 | distinct films never share a favourite id |
| DetailsScreen.FilmAndEpisodeIdsDiffer | screens/DetailsScreen.tsx:69 | a film and an episode never share a favourite id |
| DetailsScreen.MoviePlayerProps | screens/DetailsScreen.tsx:62-75 | the film player gets the film's favourite id, the movie stream URL and `isLive` false |
| DetailsScreen.ShownOf | screens/DetailsScreen.tsx:41-60 | the spinner shows iff loading; not-found iff loaded without content; otherwise the content page |
| DetailsScreen.Details.constructor | screens/DetailsScreen.tsx:10-12 | the screen starts loading, with no content and no playback |
| DetailsScreen.Details.LoadDetails | screens/DetailsScreen.tsx:14-39 | without an id nothing changes and the spinner stays; only type `movie` requests the record; any other type ends loading at once |
| DetailsScreen.Details.DetailsSettled | screens/DetailsScreen.tsx:24-38 | a success stores the normalised record; loading ends either way |
| DetailsScreen.Details.SetPlaying | screens/DetailsScreen.tsx:100 | the play and close buttons set playback |
| DetailsScreen.Details.Player | screens/DetailsScreen.tsx:66-75 | the player is shown iff playing over a loaded film, with the film's props |
| DetailsScreen.NonMovieIsNotFound | screens/DetailsScreen.tsx:19-60 | a details page for anything other than a film shows the not-found view |
| IconRules.FirstMatch | screens/SeriesScreen.tsx:44-56 | the deciding test is the first whose keywords occur in the name, or none iff no test passes |
| IconRules.IconOf | screens/SeriesScreen.tsx:44-56 | the icon of the first rule whose keywords occur in the lower-cased name, or `category` when none does; the film screen uses it with its own rules (screens/MoviesScreen.tsx:35-43) |
| IconRules.IconIgnoresCase | screens/SeriesScreen.tsx:45 | a name's case never changes its icon |
| IconRules.KeywordDecides | screens/SeriesScreen.tsx:46-54 | a test's keyword anywhere in the name, in any surrounding case, decides the icon unless an earlier test passes |
| SeriesScreen.CategoryIcon | screens/SeriesScreen.tsx:44-56 | the series icon is `category` exactly when none of the nine keyword groups occurs in the lower-cased name |
| SeriesScreen.ActionBeatsDrama | screens/SeriesScreen.tsx:46-49 | a name holding `ação` before `drama` gets the action icon, whatever surrounds them |
| SeriesScreen.EnglishActionIsBolt | screens/SeriesScreen.tsx:46 | the English `action` also gives the action icon |
| SeriesScreen.SeriesBrowser.constructor | screens/SeriesScreen.tsx:11-13 | the screen starts with no active category, no series and no loading |
| SeriesScreen.SeriesBrowser.CategoriesArrived | screens/SeriesScreen.tsx:15-21 | when categories arrive and none is active, the first becomes active and loads; otherwise nothing changes |
| SeriesScreen.SeriesBrowser.HandleCatChange | screens/SeriesScreen.tsx:35-41 | the active category is a no-op; another one becomes active and loads |
| SeriesScreen.SeriesBrowser.LoadSettled | screens/SeriesScreen.tsx:23-33 | a success shows the series; loading ends either way |
| SeriesScreen.ReclickFirstCategory | screens/SeriesScreen.tsx:15-41 | after the automatic selection, clicking the first category requests nothing |
| MoviesScreen.CategoryIcon | screens/MoviesScreen.tsx:35-43 | the film icon is `category` exactly when none of the five Portuguese keywords occurs in the lower-cased name |
| MoviesScreen.TerrorBeatsDrama | screens/MoviesScreen.tsx:37-40 | any name with `terror` before `drama` gets the horror icon, in any case and whatever surrounds them, unless it also holds `ação` or `comédia`: the earlier test wins |
| MoviesScreen.EnglishActionIsDefault | screens/MoviesScreen.tsx:35-43 | the English `action` gets the plain category icon on the film screen |
| MoviesScreen.MoviesBrowser.constructor | screens/MoviesScreen.tsx:11-13 | the screen starts with no active category, no films and no loading |
| MoviesScreen.MoviesBrowser.CategoriesArrived | screens/MoviesScreen.tsx:15-21 | when categories arrive and none is active, the first becomes active and loads; otherwise nothing changes |
| MoviesScreen.MoviesBrowser.ClickCategory | screens/MoviesScreen.tsx:63 | a click always makes the category active and reloads it, even the active one |
| MoviesScreen.MoviesBrowser.LoadSettled | screens/MoviesScreen.tsx:23-33 | a success shows the films; loading ends either way |
| MoviesScreen.ReclickFirstCategory | screens/MoviesScreen.tsx:15-63 | after the automatic selection, clicking the first category reloads it |
| Common.Lower | screens/Explore.tsx:35-36 | `toLowerCase`: each ASCII or Latin-1 capital becomes its small letter, every other character is kept, and the length is unchanged |
| Common.Take | screens/HomeScreen.tsx:31-32 | `slice(0, n)` is the longest prefix of at most n elements |
| Common.TrimStart | screens/Explore.tsx:26 | trimming the front never lengthens the text and leaves it not starting with white space |
| Common.TrimEnd | screens/Explore.tsx:26 | trimming the back never lengthens the text and leaves it not ending with white space |
| Common.TrimStartRemovesSpace | screens/Explore.tsx:26 | trimming the front keeps a suffix and drops only white space |
| Common.TrimEndRemovesSpace | screens/Explore.tsx:26 | trimming the back keeps a prefix and drops only white space |
| Common.Trim | screens/Explore.tsx:26 | `trim`: white space removed from both ends |
| Common.TrimEmptyIffAllSpace | screens/Explore.tsx:26-27 | a query trims to empty iff it is all white space |
| Common.ParseInt | screens/SeriesDetails.tsx:27 | `parseInt`: after leading white space and an optional sign, the value of the leading run of decimal digits, or none (NaN) when there is no digit |
| Common.ParseIntOfIntToString | screens/SeriesDetails.tsx:27 | `parseInt` reads back every integer's decimal text |

## Left out

- I/O is not modelled. `fetch`, `response.json`, `JSON.parse`/`stringify`, `localStorage`, `alert`, `console` and `navigate` are outside the model. Fetch outcomes and stored values are parameters, and navigation appears only as a result value.
- Timers and `Date.now` are explicit `Timer` fields or clock parameters. The real elapsed time between arming and firing is not modelled.
- The interleavings of `Promise.all` and of concurrent async handlers are not modelled. Each settle is one atomic method call, and a stale response arriving after a newer request is not captured.
- The internals of the streaming engine are not modelled: manifest and segment parsing (RFC 8216), worker offload and the retry configuration. An engine is a numbered handle with logged calls.
- The real `<video>` element is not modelled. `requestFullscreen` (which is uncaught), `scrollTo`, `scrollToSection`, the timing of the `play()` promise and the playback itself are all outside the model.
- VideoPlayer.Player.OnTimeUpdate: progress is a `real`, not an IEEE double. A NaN or infinite `duration` is not modelled.
- Common.Lower is a stand-in for `toLowerCase`: case folding covers only ASCII and Latin-1 capitals, which include every keyword the screens test.
- Common.ParseInt is decimal only: the `0x` prefix that `parseInt` also accepts is not modelled, since season keys are decimal.
- SeriesDetails.SeriesDetailsView.CompleteLoad requires every season key to parse as an integer. With a non-numeric key, JavaScript's comparator returns NaN and the resulting order is engine-defined.
- LiveTvScreen: the Portuguese list (`PortugalService`) is a static list in the source. Its content is not part of this model; only the routing to it is.
- The truthiness of a `stream_id` does not cover NaN.
- The `key` prop of the live player, which remounts it when the channel changes, is not modelled. A remount is a fresh `VideoPlayer.Player`.
- DynamicContentPage: a corrupt stored snapshot, which would make `JSON.parse` throw, is not modelled.
- The current category title of DynamicContentPage (a `find` by id) is display only and is not modelled.
- LoginScreen is not modelled. It is a form around `login`, `setCredentials` and storage, all of which are modelled.
- constants.tsx (mock data) and types.ts (record shapes, used for the datatypes of `Types`) contain no rules, so nothing in them is modelled.
- JSX layout, CSS classes and animations are not modelled. The only parts kept are the conditions that decide what is rendered: rails, grid, buttons, spinner and not-found.

## Observations

These follow from the source as written, and the model keeps each one:

- Live-TV lookup: the position lookup matches by name as well as by id. A later channel that shares its name with an earlier one therefore cannot be left with next (`LiveTvScreen.SharedNameTrapsNext`).
- PIN change:
  - the check accepts any four characters that `Number()` converts, such as `1e10`, `0x1F` or four spaces;
  - the keypad types only digits, so a PIN like `1e10` makes kids mode impossible to leave (`ProfileScreen.AcceptedPinMayBeUnenterable`).
- Keypad error window: the error does not lock the keypad. A delete during the 500 ms window reopens entry (`PinModal.DeleteDuringErrorReopensEntry`).
- Segmented cleanup destroys the engine without nulling `hlsRef`. The next URL effect destroys the same handle again, and after a fatal error of another kind it is destroyed a third time.
- The direct-path cleanup leaves the watchdog armed. The next URL effect cancels it, but after unmounting a direct-path player its watchdog still fires.
- `onPrev` is accepted by the player but never rendered.
- The manifest-parsed handler does not set `isPlaying`; the state keeps its initial `true`.
- Cache TTL comparisons:
  - the snapshot TTL comparison is strict `>` (12 h);
  - the channel-directory cache counts as fresh under strict `<` (30 min), so a cache exactly the TTL old is refetched.
- The snapshot key is ambiguous for arbitrary route types (`DynamicContentPage.CacheKeyAmbiguous`). It is unambiguous for the two types the app links to.
- The film screen reloads a category clicked again; the series and live-TV screens do not.
- The home screen's kids rail misses a fresh login. `loadInitialData` searches the `vodCategories` of the render whose `[auth]` effect started it. After a login the home screen mounts in the same render that sets `auth`, before the application's own `[auth]` effect fetches the categories, so that list is empty and no kids films are requested (`HomeScreen.FreshLoginRequestsNoKids`). The effect does not run again when the categories arrive; only the refresh button or a later remount loads the kids rail (`HomeScreen.RefreshFindsKids`).
