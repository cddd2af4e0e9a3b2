/** The application shell: the authenticated session, kids mode and its PIN
    (default, stored value, updates), the PIN modal that guards leaving kids
    mode, the route table with its guards, and the bottom navigation. */
module App {
  import opened Common
  import opened Types
  import XtreamService
  import PinModal

  const DefaultKidsPin := "1234"

  /** The paths of the route table; `Unknown` is every other path. */
  datatype Path = LoginPath | HomePath | MoviesPath | SeriesPath | KidsPath | LiveTvPath | ProfilePath
                | DetailsPath | ExplorePath | DynamicContentPath | SeriesDetailsPath | Unknown

  datatype Screen = LoginScreen | HomeScreen | MoviesScreen | SeriesScreen | KidsScreen | LiveTvScreen
                  | ProfileScreen | DetailsScreen | ExploreScreen | DynamicContentScreen | SeriesDetailsScreen

  /** A route element: a screen, or `<Navigate to=...>`. */
  datatype Element = Show(screen: Screen) | Redirect(to: Path)

  /** The screen a path names. */
  function ScreenOf(p: Path): Screen
    requires p != Unknown
  {
    match p
    case LoginPath => LoginScreen
    case HomePath => HomeScreen
    case MoviesPath => MoviesScreen
    case SeriesPath => SeriesScreen
    case KidsPath => KidsScreen
    case LiveTvPath => LiveTvScreen
    case ProfilePath => ProfileScreen
    case DetailsPath => DetailsScreen
    case ExplorePath => ExploreScreen
    case DynamicContentPath => DynamicContentScreen
    case SeriesDetailsPath => SeriesDetailsScreen
  }

  /** Paths closed in kids mode. */
  predicate AdultOnly(p: Path) {
    p == MoviesPath || p == SeriesPath || p == LiveTvPath
  }

  /** The element the route table renders for a path. */
  function Route(p: Path, authed: bool, kids: bool): (e: Element)
    ensures p == LoginPath ==> e == Show(LoginScreen)
    ensures p == Unknown ==> e == Redirect(HomePath)
    ensures AdultOnly(p) ==> e == (if authed && !kids then Show(ScreenOf(p)) else Redirect(HomePath))
    ensures p != LoginPath && p != Unknown && !AdultOnly(p) ==>
              e == (if authed then Show(ScreenOf(p)) else Redirect(LoginPath))
  {
    match p
    case LoginPath => Show(LoginScreen)
    case Unknown => Redirect(HomePath)
    case MoviesPath => if authed && !kids then Show(MoviesScreen) else Redirect(HomePath)
    case SeriesPath => if authed && !kids then Show(SeriesScreen) else Redirect(HomePath)
    case LiveTvPath => if authed && !kids then Show(LiveTvScreen) else Redirect(HomePath)
    case _ => if authed then Show(ScreenOf(p)) else Redirect(LoginPath)
  }

  /** How many redirects a path can still go through. */
  function Rank(p: Path): nat {
    if p == LoginPath then 0
    else if p == Unknown then 3
    else if AdultOnly(p) then 2
    else 1
  }

  /** The screen finally shown for a path, following redirects. */
  function Settle(p: Path, authed: bool, kids: bool): (s: Screen)
    decreases Rank(p)
  {
    match Route(p, authed, kids)
    case Show(s) => s
    case Redirect(q) => assert Rank(q) < Rank(p); Settle(q, authed, kids)
  }

  /** The guards, end to end: signed out, every path ends on the login screen;
      signed in, no path ends on the login screen unless it is `/login`; in
      kids mode no path reaches films, series or live TV; out of kids mode every
      named path shows its own screen. */
  lemma RouteGuards(p: Path, authed: bool, kids: bool)
    ensures !authed ==> Settle(p, authed, kids) == LoginScreen
    ensures authed && p != LoginPath ==> Settle(p, authed, kids) != LoginScreen
    ensures authed && kids ==> Settle(p, authed, kids) !in {MoviesScreen, SeriesScreen, LiveTvScreen}
    ensures authed && kids && AdultOnly(p) ==> Settle(p, authed, kids) == HomeScreen
    ensures authed && !kids && p != Unknown ==> Settle(p, authed, kids) == ScreenOf(p)
    ensures authed && p == Unknown ==> Settle(p, authed, kids) == HomeScreen
  {
    var e := Route(p, authed, kids);
    if e.Redirect? {
      var e2 := Route(e.to, authed, kids);
      if e2.Redirect? {
        assert Route(e2.to, authed, kids).Show?;
      }
    }
  }

  /** The bottom navigation's link targets, left to right. */
  function NavLinks(kids: bool): (links: seq<Path>)
    ensures ExplorePath in links <==> !kids
    ensures SeriesPath in links <==> !kids
    ensures |links| == (if kids then 3 else 5)
    ensures links[if kids then 1 else 2] == (if kids then HomePath else LiveTvPath)
  {
    [HomePath] + (if kids then [] else [ExplorePath])
    + [if kids then HomePath else LiveTvPath]
    + (if kids then [] else [SeriesPath])
    + [ProfilePath]
  }

  /** The navigation is rendered only for a signed-in user, and then every link
      it offers opens its own screen: it never links to a redirect. */
  lemma NavLinksAreOpen(kids: bool)
    ensures forall p :: p in NavLinks(kids) ==> Route(p, true, kids) == Show(ScreenOf(p))
  {
  }

  /** The shared application state and the storage keys it owns. */
  class AppState {
    var auth: Option<AuthData>
    var isKidsMode: bool
    var kidsPin: string
    var showPinModal: bool
    var loading: bool
    var liveCategories: seq<Category>
    var vodCategories: seq<Category>
    var seriesCategories: seq<Category>
    /** `uni_auth` in local storage: the saved credentials, `None` when absent. */
    var storedAuth: Option<(string, string)>
    /** `uni_kids_pin` in local storage, `None` when absent. */
    var storedPin: Option<string>

    constructor (storedAuth0: Option<(string, string)>, storedPin0: Option<string>)
      ensures auth == None && !isKidsMode && kidsPin == DefaultKidsPin && !showPinModal && !loading
      ensures liveCategories == [] && vodCategories == [] && seriesCategories == []
      ensures storedAuth == storedAuth0 && storedPin == storedPin0
    {
      auth := None;
      isKidsMode := false;
      kidsPin := DefaultKidsPin;
      showPinModal := false;
      loading := false;
      liveCategories := [];
      vodCategories := [];
      seriesCategories := [];
      storedAuth := storedAuth0;
      storedPin := storedPin0;
    }

    /** The mount effect: saved credentials go to the Xtream client and start an
        automatic login (the result says whether one started); a saved,
        non-empty PIN replaces the default. */
    method Mount(client: XtreamService.XtreamClient) returns (loginStarted: bool)
      modifies this`kidsPin, client
      ensures loginStarted <==> storedAuth.Some?
      ensures storedAuth.Some? ==> client.username == storedAuth.value.0 && client.password == storedAuth.value.1
      ensures storedAuth.None? ==> client.username == old(client.username) && client.password == old(client.password)
      ensures kidsPin == if storedPin.Some? && storedPin.value != "" then storedPin.value else old(kidsPin)
    {
      loginStarted := storedAuth.Some?;
      if storedAuth.Some? {
        client.SetCredentials(storedAuth.value.0, storedAuth.value.1);
      }
      if storedPin.Some? && storedPin.value != "" {
        kidsPin := storedPin.value;
      }
    }

    /** The automatic login settles: success stores the session and (through
        the `[auth]` effect) starts loading the categories; failure removes
        the saved credentials. The result says whether a refresh started. */
    method AutoLoginSettled(response: XtreamService.Http<AuthData>) returns (refreshStarted: bool)
      modifies this`auth, this`storedAuth, this`loading
      ensures var r := XtreamService.Login(response);
              && (r.Resolved? ==> auth == Some(r.value) && storedAuth == old(storedAuth) && loading && refreshStarted)
              && (r.Rejected? ==> auth == old(auth) && storedAuth == None && loading == old(loading) && !refreshStarted)
    {
      var r := XtreamService.Login(response);
      if r.Resolved? {
        auth := Some(r.value);
        loading := true;
        refreshStarted := true;
      } else {
        storedAuth := None;
        refreshStarted := false;
      }
    }

    /** The end of `refreshData`: the three category lists on success, nothing
        on failure; loading ends either way. */
    method RefreshSettled(result: Fetch<(seq<Category>, seq<Category>, seq<Category>)>)
      modifies this`liveCategories, this`vodCategories, this`seriesCategories, this`loading
      ensures !loading
      ensures result.Ok? ==> liveCategories == result.data.0 && vodCategories == result.data.1
                             && seriesCategories == result.data.2
      ensures result.Fail? ==> liveCategories == old(liveCategories) && vodCategories == old(vodCategories)
                               && seriesCategories == old(seriesCategories)
    {
      if result.Ok? {
        liveCategories := result.data.0;
        vodCategories := result.data.1;
        seriesCategories := result.data.2;
      }
      loading := false;
    }

    /** `updateKidsPin`: the state and the stored value change together. */
    method UpdateKidsPin(newPin: string)
      modifies this`kidsPin, this`storedPin
      ensures kidsPin == newPin && storedPin == Some(newPin)
    {
      kidsPin := newPin;
      storedPin := Some(newPin);
    }

    /** `setKidsMode(true)`, the only value the screens pass. */
    method EnableKidsMode()
      modifies this`isKidsMode
      ensures isKidsMode
    {
      isKidsMode := true;
    }

    /** `requestExitKidsMode`: only opens the PIN modal. */
    method RequestExitKidsMode()
      modifies this`showPinModal
      ensures showPinModal
    {
      showPinModal := true;
    }

    /** `handlePinSuccess`: the only way out of kids mode; also closes the modal. */
    method HandlePinSuccess()
      modifies this`isKidsMode, this`showPinModal
      ensures !isKidsMode && !showPinModal
    {
      isKidsMode := false;
      showPinModal := false;
    }

    /** The modal's close button. */
    method ClosePinModal()
      modifies this`showPinModal
      ensures !showPinModal
    {
      showPinModal := false;
    }

    /** Whether the bottom navigation is rendered. */
    method ShowsNavigation() returns (shown: bool)
      ensures shown <==> auth.Some?
    {
      shown := auth.Some?;
    }
  }

  /** Leaving kids mode through the modal: the exit request opens a fresh
      keypad holding the current PIN, four digit keys are pressed, and
      `onSuccess` is wired to `handlePinSuccess`. Kids mode ends exactly when
      the keys spell the PIN. */
  method ExitKidsModeWithKeys(app: AppState, keys: seq<PinModal.DigitKey>)
    requires app.isKidsMode && |keys| == PinModal.PinLength
    modifies app
    ensures !app.isKidsMode <==> PinModal.KeysText(keys) == old(app.kidsPin)
    ensures app.isKidsMode ==> app.showPinModal
    ensures app.kidsPin == old(app.kidsPin)
  {
    app.RequestExitKidsMode();
    var pad := new PinModal.PinPad(app.kidsPin);
    var i := 0;
    while i < |keys|
      invariant 0 <= i <= |keys|
      invariant pad.Valid() && pad.kidsPin == app.kidsPin == old(app.kidsPin)
      invariant (pad.pad, pad.successes) == PinModal.PressAll(PinModal.Initial, pad.kidsPin, keys[..i])
      invariant app.isKidsMode <==> pad.successes == 0
      invariant app.isKidsMode ==> app.showPinModal
    {
      assert keys[..i + 1][..i] == keys[..i];
      var success := pad.PressDigit(keys[i]);
      if success {
        app.HandlePinSuccess();
      }
      i := i + 1;
    }
    assert keys[..i] == keys;
    PinModal.TypingUpToFour(pad.kidsPin, keys);
  }
}
