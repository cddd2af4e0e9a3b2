/** The client for the Xtream-Codes panel: credentials held by one shared
    object, the `player_api.php` request URLs, the login status check and the
    playable stream URLs. The HTTP exchange itself is an input (`Http`). */
module XtreamService {
  import opened Common
  import opened Types

  const BaseUrl := "https://xui.djuntemon.com"
  const CategoryParamName := "&category_id="
  const NotOkMessage := "Network response was not ok"
  const InvalidCredentials := "Invalid credentials"
  const ActiveStatus := "Active"

  /** The `type` argument of `buildStreamUrl`. */
  datatype StreamKind = Live | Movie | Series

  /** What `fetch` produced: a network failure, or a response with its `ok`
      flag and parsed body. */
  datatype Http<T> = NetworkFailure | Response(ok: bool, body: T)

  /** The `player_api.php` URL for an action; `extra` is appended verbatim. */
  function ApiUrl(username: string, password: string, action: string, extra: string): string {
    BaseUrl + "/player_api.php?username=" + username + "&password=" + password
      + "&action=" + action + extra
  }

  /** The login URL: the same endpoint without an action. */
  function LoginUrl(username: string, password: string): string {
    BaseUrl + "/player_api.php?username=" + username + "&password=" + password
  }

  /** The extra parameter of the list calls: `&category_id=...` for a non-empty
      category id, nothing otherwise (an undefined or empty `catId` is falsy). */
  function CategoryParam(catId: string): (extra: string)
    ensures catId == "" <==> extra == ""
    ensures catId != "" ==> |extra| == |CategoryParamName| + |catId|
    ensures catId != "" ==> extra[|CategoryParamName|..] == catId
    ensures catId != "" ==> extra[..|CategoryParamName|] == CategoryParamName
  {
    if catId == "" then "" else CategoryParamName + catId
  }

  /** The URL of `getLiveStreams`, `getVodStreams` or `getSeries` for a category. */
  function ListUrl(username: string, password: string, action: string, catId: string): string {
    ApiUrl(username, password, action, CategoryParam(catId))
  }

  /** Two list requests for the same action hit the same URL only for the same
      category: the category filter is never lost or confused. */
  lemma ListUrlDistinguishesCategories(username: string, password: string, action: string, c1: string, c2: string)
    requires ListUrl(username, password, action, c1) == ListUrl(username, password, action, c2)
    ensures c1 == c2
  {
    var prefix := ApiUrl(username, password, action, "");
    assert ListUrl(username, password, action, c1) == prefix + CategoryParam(c1);
    assert ListUrl(username, password, action, c2) == prefix + CategoryParam(c2);
    var e1, e2 := CategoryParam(c1), CategoryParam(c2);
    assert e1 == (prefix + e1)[|prefix|..];
    assert e2 == (prefix + e2)[|prefix|..];
    if c1 != "" && c2 != "" {
      assert c1 == e1[|CategoryParamName|..];
      assert c2 == e2[|CategoryParamName|..];
    }
  }

  /** `buildStreamUrl(id, type)`. */
  function StreamUrl(username: string, password: string, id: string, kind: StreamKind): string {
    match kind
    case Live => BaseUrl + "/live/" + username + "/" + password + "/" + id + ".ts"
    case Series => BaseUrl + "/series/" + username + "/" + password + "/" + id + ".mp4"
    case Movie => BaseUrl + "/movie/" + username + "/" + password + "/" + id + ".mp4"
  }

  /** Live streams are the `.ts` container; episodes and films the `.mp4` one. */
  lemma StreamUrlExtension(username: string, password: string, id: string, kind: StreamKind)
    ensures kind == Live ==> Contains(StreamUrl(username, password, id, kind), ".ts")
    ensures kind != Live ==> Contains(StreamUrl(username, password, id, kind), ".mp4")
  {
    var url := StreamUrl(username, password, id, kind);
    var ext := if kind == Live then ".ts" else ".mp4";
    var stem := url[..|url| - |ext|];
    assert url == stem + ext;
    ContainsSuffix(stem, ext);
  }

  /** The status check of `login`: only an `Active` account resolves; otherwise
      the rejection carries the status text, or `Invalid credentials` when the
      status is missing or empty. */
  function LoginCheck(data: AuthData): (r: Outcome<AuthData>)
    ensures r.Resolved? <==> data.status == Some(ActiveStatus)
    ensures r.Resolved? ==> r.value == data
    ensures r.Rejected? ==> r.reason != ""
    ensures r.Rejected? && data.status.Some? && data.status.value != "" ==> r.reason == data.status.value
    ensures r.Rejected? && (data.status.None? || data.status.value == "") ==> r.reason == InvalidCredentials
  {
    if data.status != Some(ActiveStatus) then
      Rejected(if data.status.Some? && data.status.value != "" then data.status.value else InvalidCredentials)
    else
      Resolved(data)
  }

  /** `login()`: a network failure rejects; the response body is checked
      without looking at `ok`. */
  function Login(response: Http<AuthData>): (r: Outcome<AuthData>)
    ensures response.NetworkFailure? ==> r.Rejected?
    ensures response.Response? ==> r == LoginCheck(response.body)
    ensures r.Resolved? ==> response.Response? && r.value == response.body
                            && response.body.status == Some(ActiveStatus)
  {
    match response
    case NetworkFailure => Rejected("Failed to fetch")
    case Response(_, body) => LoginCheck(body)
  }

  /** `request(action, extra)`: resolves with the body of an ok response and
      rejects for a failed fetch or a non-ok response. */
  function Request<T>(response: Http<T>): (r: Outcome<T>)
    ensures r.Resolved? <==> response.Response? && response.ok
    ensures r.Resolved? ==> r.value == response.body
    ensures response.Response? && !response.ok ==> r == Rejected(NotOkMessage)
  {
    match response
    case NetworkFailure => Rejected("Failed to fetch")
    case Response(ok, body) => if ok then Resolved(body) else Rejected(NotOkMessage)
  }

  /** The shared `xtream` object: the credentials every later URL is built from. */
  class XtreamClient {
    var username: string
    var password: string

    constructor ()
      ensures username == "" && password == ""
    {
      username := "";
      password := "";
    }

    /** `setCredentials(u, p)` overwrites both fields. */
    method SetCredentials(u: string, p: string)
      modifies this
      ensures username == u && password == p
    {
      username := u;
      password := p;
    }

    /** `buildStreamUrl(id, type)` with the current credentials. */
    method BuildStreamUrl(id: string, kind: StreamKind) returns (url: string)
      ensures url == StreamUrl(username, password, id, kind)
    {
      url := StreamUrl(username, password, id, kind);
    }

    /** The URL `request(action, extra)` fetches with the current credentials. */
    method RequestUrl(action: string, extra: string) returns (url: string)
      ensures url == ApiUrl(username, password, action, extra)
    {
      url := ApiUrl(username, password, action, extra);
    }

    /** The URL of a list call (`getLiveStreams`, `getVodStreams`, `getSeries`). */
    method ListRequestUrl(action: string, catId: string) returns (url: string)
      ensures url == ListUrl(username, password, action, catId)
      ensures catId == "" ==> url == ApiUrl(username, password, action, "")
    {
      url := RequestUrl(action, CategoryParam(catId));
    }
  }

  /** After `setCredentials`, the next stream URL carries the new credentials,
      whatever the previous ones were. */
  method CredentialsFlowIntoUrls(client: XtreamClient, u: string, p: string, id: string)
    returns (url: string)
    modifies client
    ensures client.username == u && client.password == p
    ensures url == StreamUrl(u, p, id, Live)
  {
    client.SetCredentials(u, p);
    url := client.BuildStreamUrl(id, Live);
  }
}
