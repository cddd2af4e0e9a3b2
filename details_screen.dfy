/** The film details screen: the VOD record fetched for the route id,
    normalised with `||` fallbacks between field aliases, and the player
    props for the film. */
module DetailsScreen {
  import opened Common
  import Types
  import XtreamService
  import SeriesDetails

  const MovieKind := "movie"
  const VodContentPrefix := "vod_"

  /** The fields of a VOD record the screen reads; an absent or falsy field is `""`. */
  datatype VodRecord = VodRecord(streamId: string, name: string, title: string, plot: string,
                                 description: string, movieImage: string, streamIcon: string)

  /** A `get_vod_info` response: its `info` object when present (truthy), and
      its own top-level fields. */
  datatype VodResponse = VodResponse(info: Option<VodRecord>, top: VodRecord)

  /** The content the screen shows. */
  datatype Content = Content(streamId: string, name: string, plot: string, thumbnail: string)

  /** `a || b` on strings. */
  function Or(a: string, b: string): (r: string)
    ensures r == "" <==> a == "" && b == ""
    ensures a != "" ==> r == a
  {
    if a != "" then a else b
  }

  /** `response.info || response`. */
  function RecordOf(response: VodResponse): (rec: VodRecord)
    ensures response.info.Some? ==> rec == response.info.value
    ensures response.info.None? ==> rec == response.top
  {
    if response.info.Some? then response.info.value else response.top
  }

  /** The object `loadDetails` stores: the record with `stream_id` forced to
      the route id and the aliased fields resolved. */
  function Normalise(response: VodResponse, id: string): (c: Content)
    ensures c.streamId == id
    ensures var rec := RecordOf(response);
            && c.name == Or(rec.name, rec.title)
            && c.plot == Or(rec.plot, rec.description)
            && c.thumbnail == Or(rec.movieImage, rec.streamIcon)
  {
    var rec := RecordOf(response);
    Content(id, Or(rec.name, rec.title), Or(rec.plot, rec.description), Or(rec.movieImage, rec.streamIcon))
  }

  /** The route id wins over any `stream_id` in the record, and with `info`
      present the top-level fields are never read. */
  lemma NormaliseReadsOnlyInfo(info: VodRecord, top1: VodRecord, top2: VodRecord, id: string)
    ensures Normalise(VodResponse(Some(info), top1), id) == Normalise(VodResponse(Some(info), top2), id)
    ensures Normalise(VodResponse(Some(info), top1), id).streamId == id
  {
  }

  /** Each alias is a fallback only: a present primary field is kept, and a
      field is blank only when both of its aliases are. */
  lemma AliasesAreFallbacks(response: VodResponse, id: string)
    ensures var rec := RecordOf(response);
            var c := Normalise(response, id);
            && (rec.name != "" ==> c.name == rec.name)
            && (rec.name == "" ==> c.name == rec.title)
            && (c.plot == "" <==> rec.plot == "" && rec.description == "")
            && (c.thumbnail == "" <==> rec.movieImage == "" && rec.streamIcon == "")
  {
  }

  /** The favourite id of a film: `vod_{id}`. */
  function VodContentId(id: string): (cid: string)
    ensures |cid| == |VodContentPrefix| + |id|
    ensures cid[..|VodContentPrefix|] == VodContentPrefix && cid[|VodContentPrefix|..] == id
  {
    VodContentPrefix + id
  }

  /** Distinct films never share a favourite id. */
  lemma VodContentIdInjective(a: string, b: string)
    requires VodContentId(a) == VodContentId(b)
    ensures a == b
  {
    assert a == VodContentId(a)[|VodContentPrefix|..];
  }

  /** Films and episodes never share a favourite id. */
  lemma FilmAndEpisodeIdsDiffer(id: string, ep: Types.Episode)
    ensures VodContentId(id) != SeriesDetails.EpisodeContentId(ep)
  {
    assert VodContentId(id)[0] == 'v';
    assert SeriesDetails.EpisodeContentId(ep)[0] == 's';
  }

  /** The props of the film player. */
  datatype MoviePlayer = MoviePlayer(contentId: string, url: string, isLive: bool)

  function MoviePlayerProps(id: string, username: string, password: string): (p: MoviePlayer)
    ensures p.contentId == VodContentId(id) && !p.isLive
    ensures p.url == XtreamService.StreamUrl(username, password, id, XtreamService.Movie)
  {
    MoviePlayer(VodContentId(id), XtreamService.StreamUrl(username, password, id, XtreamService.Movie), false)
  }

  /** What the screen renders. */
  datatype Shown = Spinner | NotFound | Page(content: Content)

  function ShownOf(loading: bool, content: Option<Content>): (s: Shown)
    ensures s == Spinner <==> loading
    ensures s == NotFound <==> !loading && content.None?
    ensures s.Page? ==> content == Some(s.content)
  {
    if loading then Spinner else if content.None? then NotFound else Page(content.value)
  }

  /** The screen's state. */
  class Details {
    var content: Option<Content>
    var loading: bool
    var isPlaying: bool

    constructor ()
      ensures content == None && loading && !isPlaying
    {
      content := None;
      loading := true;
      isPlaying := false;
    }

    /** The effect on `[id, type]` up to the fetch: without an id nothing
        changes (the initial spinner stays); only type `movie` requests the
        record (the result is the id asked for); any other type ends loading at
        once and leaves the content as it was. */
    method LoadDetails(kind: string, id: string) returns (request: Option<string>)
      modifies this`loading
      ensures id == "" ==> request == None && loading == old(loading)
      ensures id != "" && kind == MovieKind ==> request == Some(id) && loading
      ensures id != "" && kind != MovieKind ==> request == None && !loading
    {
      if id == "" {
        return None;
      }
      loading := true;
      if kind == MovieKind {
        request := Some(id);
      } else {
        request := None;
        loading := false;
      }
    }

    /** The record request settles: success stores the normalised content;
        loading ends either way. */
    method DetailsSettled(id: string, result: Fetch<VodResponse>)
      modifies this`content, this`loading
      ensures !loading
      ensures result.Ok? ==> content == Some(Normalise(result.data, id))
      ensures result.Fail? ==> content == old(content)
    {
      if result.Ok? {
        content := Some(Normalise(result.data, id));
      }
      loading := false;
    }

    /** The play button and the player's close button. */
    method SetPlaying(playing: bool)
      modifies this`isPlaying
      ensures isPlaying == playing
    {
      isPlaying := playing;
    }

    /** The player shown while playing a loaded film. */
    method Player(id: string, username: string, password: string) returns (p: Option<MoviePlayer>)
      ensures p.Some? <==> isPlaying && ShownOf(loading, content).Page?
      ensures p.Some? ==> p.value == MoviePlayerProps(id, username, password)
    {
      if isPlaying && ShownOf(loading, content).Page? {
        p := Some(MoviePlayerProps(id, username, password));
      } else {
        p := None;
      }
    }
  }

  /** Opening a details page for something other than a film shows the
      not-found view on a fresh screen. */
  method NonMovieIsNotFound(kind: string, id: string) returns (shown: Shown)
    requires id != "" && kind != MovieKind
    ensures shown == NotFound
  {
    var d := new Details();
    var request := d.LoadDetails(kind, id);
    shown := ShownOf(d.loading, d.content);
  }
}
