/** The request middleware: a Telegram Mini App heuristic, a cookie/header
    authentication test, and the pass-or-redirect decision for the
    protected dashboard and the sign-in page. */
module Middleware {
  import opened Common
  import opened Text

  datatype QueryParam = QueryParam(key: string, value: string)

  /** The request features the middleware reads. Headers are None when
      absent; the query parameters are already in their serialised form. */
  datatype Request = Request(
    pathname: string,
    userAgent: Option<string>,
    referer: Option<string>,
    xRequestedWith: Option<string>,
    origin: Option<string>,
    host: Option<string>,
    initData: Option<string>,
    query: seq<QueryParam>,
    authorization: Option<string>,
    hasAuthCookie: bool)

  /** `searchParams.toString()`: `key=value` pairs joined by `&`. */
  function QueryString(ps: seq<QueryParam>): string
    decreases |ps|
  {
    if ps == [] then ""
    else if |ps| == 1 then ps[0].key + "=" + ps[0].value
    else ps[0].key + "=" + ps[0].value + "&" + QueryString(ps[1..])
  }

  /** `searchParams.has(key)` */
  predicate HasParam(ps: seq<QueryParam>, key: string) {
    exists i | 0 <= i < |ps| :: ps[i].key == key
  }

  /** Every parameter's key appears in the serialised query. */
  lemma {:induction false} KeyInQueryString(ps: seq<QueryParam>, i: nat)
    requires i < |ps|
    ensures Contains(QueryString(ps), ps[i].key)
    decreases |ps|
  {
    var k := ps[0].key;
    if i == 0 {
      ContainsItself(k);
      if |ps| == 1 {
        ContainsInLeft(k, "=", k);
        ContainsInLeft(k + "=", ps[0].value, k);
      } else {
        ContainsInLeft(k, "=", k);
        ContainsInLeft(k + "=", ps[0].value, k);
        ContainsInLeft(k + "=" + ps[0].value, "&", k);
        ContainsInLeft(k + "=" + ps[0].value + "&", QueryString(ps[1..]), k);
      }
    } else {
      KeyInQueryString(ps[1..], i - 1);
      assert ps[1..][i - 1] == ps[i];
      ContainsInRight(k + "=" + ps[0].value + "&", QueryString(ps[1..]), ps[i].key);
    }
  }

  /** `headers.get(name) || ""` */
  function HeaderText(h: Option<string>): (r: string)
    ensures h.Some? ==> r == h.value
    ensures h.None? ==> r == ""
  {
    h.GetOr("")
  }

  /** The Mini App heuristic: any Telegram hint in the agent (lowercased),
      referer, origin, requested-with header, init-data header or query,
      or a /dashboard request through ngrok or from an agent that names no
      common browser (those names are matched case-sensitively). */
  predicate IsTelegramMiniApp(req: Request) {
    var agent := HeaderText(req.userAgent);
    var referer := HeaderText(req.referer);
    var origin := HeaderText(req.origin);
    var query := QueryString(req.query);
    Contains(Lower(agent), "telegram") || Contains(Lower(agent), "tg")
    || Contains(referer, "telegram") || Contains(referer, "t.me") || Contains(referer, "tg")
    || Contains(origin, "telegram") || Contains(origin, "t.me")
    || Contains(HeaderText(req.xRequestedWith), "telegram")
    || TruthyText(req.initData)
    || Contains(query, "tg") || Contains(query, "telegram")
    || HasParam(req.query, "tgWebAppStartParam")
    || (Contains(HeaderText(req.host), "ngrok") && req.pathname == "/dashboard")
    || (req.pathname == "/dashboard"
        && !Contains(agent, "Chrome") && !Contains(agent, "Firefox") && !Contains(agent, "Safari"))
  }

  /** The start-parameter test never decides anything: its key already
      puts "tg" into the serialised query. */
  lemma StartParamImpliesTg(req: Request)
    requires HasParam(req.query, "tgWebAppStartParam")
    ensures Contains(QueryString(req.query), "tg")
  {
    var i :| 0 <= i < |req.query| && req.query[i].key == "tgWebAppStartParam";
    KeyInQueryString(req.query, i);
    var key := req.query[i].key;
    assert key[0] == 't' && key[1] == 'g';
    assert key[0..2] == "tg";
    ContainsWithin(QueryString(req.query), key, "tg", 0);
  }

  /** `!!(authHeader || authCookie)`: a non-empty authorization header or
      any adGenius_auth cookie. */
  function IsAuthenticated(req: Request): (r: bool)
    ensures r <==> TruthyText(req.authorization) || req.hasAuthCookie
  {
    TruthyText(req.authorization) || req.hasAuthCookie
  }

  /** Go on to the route, or redirect to a path with an optional
      `redirect` query parameter. */
  datatype Decision = Next | Redirect(path: string, redirectParam: Option<string>)

  /** `middleware` */
  function Decide(req: Request): (d: Decision)
    ensures req.pathname == "/dashboard" && IsTelegramMiniApp(req) ==> d == Next
    ensures req.pathname == "/dashboard" && Contains(HeaderText(req.host), "ngrok") ==> d == Next
    ensures req.pathname == "/dashboard" && IsAuthenticated(req) ==> d == Next
    ensures d == Redirect("/auth/signin", Some("/dashboard")) <==>
      req.pathname == "/dashboard" && !IsTelegramMiniApp(req) && !IsAuthenticated(req)
    ensures d == Redirect("/dashboard", None) <==> req.pathname == "/auth/signin" && IsAuthenticated(req)
    ensures req.pathname != "/dashboard" && req.pathname != "/auth/signin" ==> d == Next
  {
    if req.pathname == "/dashboard" && IsTelegramMiniApp(req) then Next
    else if req.pathname == "/dashboard" && Contains(HeaderText(req.host), "ngrok") then Next
    else if req.pathname == "/dashboard" && !IsAuthenticated(req) then
      Redirect("/auth/signin", Some(req.pathname))
    else if req.pathname == "/auth/signin" && IsAuthenticated(req) then
      Redirect("/dashboard", None)
    else Next
  }

  /** The separate ngrok check after the heuristic never changes the
      outcome: the heuristic already holds for /dashboard through ngrok. */
  lemma NgrokCheckRedundant(req: Request)
    ensures Decide(req) ==
      if req.pathname == "/dashboard" && IsTelegramMiniApp(req) then Next
      else if req.pathname == "/dashboard" && !IsAuthenticated(req) then Redirect("/auth/signin", Some("/dashboard"))
      else if req.pathname == "/auth/signin" && IsAuthenticated(req) then Redirect("/dashboard", None)
      else Next
  {
  }

  /** A dashboard request from an agent naming none of Chrome, Firefox and
      Safari always passes, authenticated or not. */
  lemma NonBrowserDashboardPasses(req: Request)
    requires req.pathname == "/dashboard"
    requires !Contains(HeaderText(req.userAgent), "Chrome")
    requires !Contains(HeaderText(req.userAgent), "Firefox")
    requires !Contains(HeaderText(req.userAgent), "Safari")
    ensures Decide(req) == Next
  {
  }

  /** `config.matcher`: every path except those whose text after the
      leading "/" starts with api, _next/static, _next/image or
      favicon?ico (the pattern's "." matches any character). */
  predicate MatcherApplies(path: string) {
    StartsWith(path, "/") &&
    var rest := path[1..];
    !StartsWith(rest, "api") && !StartsWith(rest, "_next/static") && !StartsWith(rest, "_next/image") &&
    !(|rest| >= 11 && rest[..7] == "favicon" && rest[8..11] == "ico")
  }

  /** API routes and static assets never reach the middleware. */
  lemma MatcherSkips(path: string, p: string)
    requires p == "api" || p == "_next/static" || p == "_next/image" || p == "favicon.ico"
    requires StartsWith(path, "/" + p)
    ensures !MatcherApplies(path)
  {
    var rest := path[1..];
    assert rest[..|p|] == path[..|p| + 1][1..];
    if p == "favicon.ico" {
      assert rest[..7] == p[..7] && rest[8..11] == p[8..11];
    }
  }
}
