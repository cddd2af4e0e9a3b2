/** The catalogue records the screens exchange (the shapes of types.ts), with
    JavaScript's loose fields made explicit: an absent or falsy string is `""`. */
module Types {
  import opened Common

  /** A `stream_id`, which the panel sends as a number or a string, and which a
      channel from the open-channel lists does not have at all. */
  datatype StreamId = NoId | NumId(n: int) | StrId(s: string)

  /** JavaScript truthiness of a `stream_id` (NaN is not modelled). */
  predicate Truthy(id: StreamId) {
    match id
    case NoId => false
    case NumId(n) => n != 0
    case StrId(s) => s != ""
  }

  /** `String(stream_id)`, also what a template literal `${stream_id}` produces. */
  function IdText(id: StreamId): string {
    match id
    case NoId => "undefined"
    case NumId(n) => IntToString(n)
    case StrId(s) => s
  }

  /** `XtreamCategory`. */
  datatype Category = Category(categoryId: string, categoryName: string)

  /** A playable list entry: an `XtreamStream` (with `stream_id`) or a `ReiChannel`
      (with its own `stream` URL). `stream` is `None` when the field is absent or
      not a string. */
  datatype Channel = Channel(name: string, streamId: StreamId, stream: Option<string>)

  /** A catalogue title: an `XtreamSeries` (identified by `series_id`) or a VOD
      `XtreamStream` (identified by `stream_id`), reduced to its name and id. */
  datatype Title = Title(name: string, id: StreamId)

  /** `XtreamEpisode`, reduced to what the screens read. */
  datatype Episode = Episode(id: string, episodeNum: int, title: string)

  /** One key of `XtreamSeriesInfo.episodes` with its episode list. */
  datatype Season = Season(key: string, episodes: seq<Episode>)

  /** `XtreamSeriesInfo`: the seasons in `Object.keys` order. */
  datatype SeriesInfo = SeriesInfo(name: string, seasons: seq<Season>)

  /** `AuthData`: `user_info?.status`, `None` when `user_info` or its status is missing. */
  datatype AuthData = AuthData(status: Option<string>)

  /** The episodes listed under a season key, `[]` when the key is absent
      (`data.episodes[key] || []`). */
  function EpisodesOf(info: SeriesInfo, key: string): seq<Episode> {
    EpisodesIn(info.seasons, key)
  }

  function EpisodesIn(seasons: seq<Season>, key: string): seq<Episode> {
    if seasons == [] then []
    else if seasons[0].key == key then seasons[0].episodes
    else EpisodesIn(seasons[1..], key)
  }

  /** The season keys in `Object.keys` order. */
  function SeasonKeys(seasons: seq<Season>): (keys: seq<string>)
    ensures |keys| == |seasons|
    ensures forall i :: 0 <= i < |seasons| ==> keys[i] == seasons[i].key
  {
    if seasons == [] then [] else [seasons[0].key] + SeasonKeys(seasons[1..])
  }
}
