/** The home screen: featured films and open channels fetched together, the
    kids category found among the film categories by keyword and its films
    fetched next, and the hero and rails derived from those lists. */
module HomeScreen {
  import opened Common
  import opened Types

  const FeaturedLimit: nat := 10
  const OpenChannelLimit: nat := 12
  const KidsLimit: nat := 10
  /** The words that mark a kids category, already lower-case. */
  const KidsKeywords: seq<string> := ["kids", "infantil", "desenhos", "animação"]
  /** The hero's title while no featured film is loaded. */
  const PlaceholderName := "Carregando..."

  /** Some keyword occurs in the lower-cased category name. */
  predicate IsKidsCategory(c: Category) {
    exists k | k in KidsKeywords :: Contains(Lower(c.categoryName), k)
  }

  /** `vodCategories.find(IsKidsCategory)`: the first kids category, if any. */
  function FindKidsCategory(cats: seq<Category>): (r: Option<Category>)
    ensures r.None? <==> forall i :: 0 <= i < |cats| ==> !IsKidsCategory(cats[i])
    ensures r.Some? ==> exists i :: 0 <= i < |cats| && cats[i] == r.value && IsKidsCategory(cats[i])
                                    && forall j :: 0 <= j < i ==> !IsKidsCategory(cats[j])
  {
    if cats == [] then None
    else if IsKidsCategory(cats[0]) then Some(cats[0])
    else
      var r := FindKidsCategory(cats[1..]);
      if r.Some? then
        var i :| 0 <= i < |cats[1..]| && cats[1..][i] == r.value && IsKidsCategory(cats[1..][i])
                 && forall j :: 0 <= j < i ==> !IsKidsCategory(cats[1..][j]);
        assert cats[i + 1] == r.value;
        r
      else r
  }

  /** Detection ignores case. */
  lemma KidsCategoryIgnoresCase(id: string, name: string)
    ensures IsKidsCategory(Category(id, name)) <==> IsKidsCategory(Category(id, Lower(name)))
  {
    LowerIdempotent(name);
  }

  /** A keyword anywhere in the name, in any surrounding case, marks a kids category. */
  lemma KeywordMarksKids(id: string, before: string, k: string, after: string)
    requires k in KidsKeywords
    ensures IsKidsCategory(Category(id, before + k + after))
  {
    assert forall i :: 0 <= i < |k| ==> !IsUpper(k[i]);
    LoweredContainsKeyword(before, k, after);
  }

  /** The hero: the first featured film, or the placeholder. */
  datatype Hero = Featured(movie: Title) | Placeholder

  function HeroOf(featured: seq<Title>): (h: Hero)
    ensures h.Placeholder? <==> featured == []
    ensures h.Featured? ==> h.movie == featured[0]
  {
    if featured == [] then Placeholder else Featured(featured[0])
  }

  /** The recent-films rail: the featured films after the first, outside kids
      mode and only when there are more than one. */
  function RecentRail(featured: seq<Title>, isKidsMode: bool): (r: Option<seq<Title>>)
    ensures r.Some? <==> !isKidsMode && |featured| > 1
    ensures r.Some? ==> |r.value| == |featured| - 1 && forall i :: 0 <= i < |r.value| ==> r.value[i] == featured[i + 1]
  {
    if !isKidsMode && |featured| > 1 then Some(featured[1..]) else None
  }

  /** Outside kids mode the hero and the recent rail show every featured film
      exactly once, in order. */
  lemma HeroAndRecentCoverFeatured(featured: seq<Title>)
    requires |featured| > 1
    ensures HeroOf(featured).Featured? && RecentRail(featured, false).Some?
    ensures [HeroOf(featured).movie] + RecentRail(featured, false).value == featured
  {
    assert [featured[0]] + featured[1..] == featured;
  }

  /** The home screen's lists and loading flag, and the film categories the
      running `loadInitialData` searches: the closure reads `vodCategories`
      from the render that created it, so a load keeps the list of the render
      that started it however the context changes while it waits. */
  class Home {
    var featured: seq<Title>
    var openChannels: seq<Channel>
    var kidsMovies: seq<Title>
    var loading: bool
    var searchedCategories: seq<Category>

    constructor ()
      ensures featured == [] && openChannels == [] && kidsMovies == [] && !loading
      ensures searchedCategories == []
    {
      featured := [];
      openChannels := [];
      kidsMovies := [];
      loading := false;
      searchedCategories := [];
    }

    /** The `[auth]` effect: data loads only for a signed-in user, with the
        film categories of the render in which the effect ran. */
    method AuthChanged(authed: bool, vodCategories: seq<Category>) returns (started: bool)
      modifies this`loading, this`searchedCategories
      ensures started <==> authed
      ensures authed ==> loading && searchedCategories == vodCategories
      ensures !authed ==> loading == old(loading) && searchedCategories == old(searchedCategories)
    {
      started := authed;
      if authed {
        loading := true;
        searchedCategories := vodCategories;
      }
    }

    /** The header's refresh button: a load with the film categories of the
        current render. */
    method RefreshPressed(vodCategories: seq<Category>)
      modifies this`loading, this`searchedCategories
      ensures loading && searchedCategories == vodCategories
    {
      loading := true;
      searchedCategories := vodCategories;
    }

    /** Films and open channels arrive together (or the pair fails). On
        success both are truncated, and the first kids category of the list
        the load started with, if any, is the category whose films are
        requested next; loading ends here unless that request was made. */
    method FirstStageSettled(result: Fetch<(seq<Title>, seq<Channel>)>)
      returns (kidsRequest: Option<string>)
      requires loading
      modifies this`featured, this`openChannels, this`loading
      ensures result.Fail? ==> kidsRequest == None && featured == old(featured) && openChannels == old(openChannels)
      ensures result.Ok? ==> featured == Take(result.data.0, FeaturedLimit) && openChannels == Take(result.data.1, OpenChannelLimit)
      ensures result.Ok? ==> kidsRequest == (var c := FindKidsCategory(searchedCategories);
                                             if c.Some? then Some(c.value.categoryId) else None)
      ensures loading <==> kidsRequest.Some?
    {
      if result.Fail? {
        loading := false;
        return None;
      }
      featured := Take(result.data.0, FeaturedLimit);
      openChannels := Take(result.data.1, OpenChannelLimit);
      var kidsCategory := FindKidsCategory(searchedCategories);
      if kidsCategory.Some? {
        kidsRequest := Some(kidsCategory.value.categoryId);
      } else {
        kidsRequest := None;
        loading := false;
      }
    }

    /** The kids films arrive (or fail); loading ends either way. */
    method KidsSettled(result: Fetch<seq<Title>>)
      modifies this`kidsMovies, this`loading
      ensures !loading
      ensures result.Ok? ==> kidsMovies == Take(result.data, KidsLimit)
      ensures result.Fail? ==> kidsMovies == old(kidsMovies)
    {
      if result.Ok? {
        kidsMovies := Take(result.data, KidsLimit);
      }
      loading := false;
    }

    /** The open-channel rail is shown outside kids mode when it has channels;
        the kids rail in kids mode or when it has films. */
    method Rails(isKidsMode: bool) returns (openRail: bool, kidsRail: bool)
      ensures openRail <==> !isKidsMode && |openChannels| > 0
      ensures kidsRail <==> isKidsMode || |kidsMovies| > 0
    {
      openRail := !isKidsMode && |openChannels| > 0;
      kidsRail := isKidsMode || |kidsMovies| > 0;
    }
  }

  /** A whole `loadInitialData` started by the `[auth]` effect with the
      categories of that render: loading ends after every outcome, and the
      lists never exceed their limits. */
  method LoadInitialData(home: Home, vodCategories: seq<Category>, first: Fetch<(seq<Title>, seq<Channel>)>,
                         kids: Fetch<seq<Title>>)
    requires |home.featured| <= FeaturedLimit && |home.openChannels| <= OpenChannelLimit
    requires |home.kidsMovies| <= KidsLimit
    modifies home
    ensures !home.loading
    ensures |home.featured| <= FeaturedLimit && |home.openChannels| <= OpenChannelLimit
    ensures |home.kidsMovies| <= KidsLimit
    ensures first.Ok? && FindKidsCategory(vodCategories).None? ==> home.kidsMovies == old(home.kidsMovies)
  {
    var started := home.AuthChanged(true, vodCategories);
    var request := home.FirstStageSettled(first);
    if request.Some? {
      home.KidsSettled(kids);
    }
  }

  /** A fresh login: the home screen mounts in the render that sets `auth`,
      before the application has fetched any category, so its `[auth]` effect
      starts the load with no categories. Whatever the films and channels
      fetched, no kids films are requested and the kids rail stays empty. */
  method FreshLoginRequestsNoKids(first: Fetch<(seq<Title>, seq<Channel>)>)
    returns (kidsRequest: Option<string>, kidsMovies: seq<Title>, loading: bool)
    ensures kidsRequest == None && kidsMovies == [] && !loading
  {
    var home := new Home();
    var started := home.AuthChanged(true, []);
    kidsRequest := home.FirstStageSettled(first);
    kidsMovies := home.kidsMovies;
    loading := home.loading;
  }

  /** The same load started from the refresh button after the categories
      arrived requests the kids category's films. */
  method RefreshFindsKids(home: Home, vodCategories: seq<Category>, first: Fetch<(seq<Title>, seq<Channel>)>)
    returns (kidsRequest: Option<string>)
    requires first.Ok?
    modifies home
    ensures kidsRequest.Some? <==> FindKidsCategory(vodCategories).Some?
    ensures kidsRequest.Some? ==> kidsRequest.value == FindKidsCategory(vodCategories).value.categoryId
  {
    home.RefreshPressed(vodCategories);
    kidsRequest := home.FirstStageSettled(first);
  }
}
