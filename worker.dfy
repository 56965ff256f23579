/** The `fetch` handler of the worker: the early-return chain that decides what to do with a
    request, the forwarding, and the rewriting of what comes back. */
module Worker {
  import opened Wrappers
  import opened Text
  import opened Urls
  import opened HeaderMap
  import opened Cookies
  import opened Auth
  import opened Router
  import opened Rewrite

  /** An incoming request; header names are lower case. The body is not modelled. */
  datatype Request = Request(verb: string, url: Url, headers: Fields)

  /** What `request.formData()` gives: it throws on a body that is not a form; otherwise the
      `password` field, when there is one that is text. */
  datatype FormBody = Unparsable | Form(password: Option<string>)

  /** The runtime's part: the `PROXY_PASSWORD` variable, and the built-ins the handler calls,
      each giving nothing where the built-in throws. `resolve(loc, base)` is
      `new URL(loc, base).toString()`. */
  datatype Runtime = Runtime(
    proxyPassword: Option<string>,
    atob: string -> Option<string>,
    decodeUri: string -> Option<string>,
    resolve: (string, string) -> Option<string>)

  datatype Body =
    | NoBody
    | TextBody(text: string)
    | LoginPage          // LOGIN_PAGE_HTML
    | Passthrough        // the upstream body stream, unread

  datatype Response = Response(status: int, headers: Fields, body: Body)

  /** Either a response, or an exception that escapes the handler. */
  datatype Outcome = Responded(response: Response) | Threw

  /** The outcome of the early-return chain. */
  datatype Decision =
    | Options(preflight: Response)
    | TokenRedirect(location: Url, setCookie: string)
    | LoginOk(setCookie: string)
    | LoginBad
    | Challenge401
    | LoginPage401
    | Raw(upstream: Url)
    | Blocked(path: string)
    | Main(upstream: Url)
    | Throws

  // ---------------------------------------------------------------------------------------
  // Preflight

  const AllowedMethods := "GET, HEAD, POST, OPTIONS"

  /** `handleOptions`: with an `Origin`, a 204 that allows the worker origin and echoes the
      requested headers (or `*`); without one, a 200 listing the allowed methods. */
  function HandleOptions(headers: Fields, workerOrigin: string): Response {
    if Truthy(Get(headers, "origin")) then
      Response(204, map[
        "access-control-allow-origin" := workerOrigin,
        "access-control-allow-methods" := CorsMethods,
        "access-control-allow-headers" :=
          (if Truthy(Get(headers, "access-control-request-headers"))
           then headers["access-control-request-headers"] else "*"),
        "access-control-max-age" := "86400"], NoBody)
    else
      Response(200, map["allow" := AllowedMethods], NoBody)
  }

  /** The preflight answer depends on `Origin` alone; the allowed headers are the requested
      ones, or `*` when none are requested. */
  lemma PreflightAnswer(headers: Fields, workerOrigin: string)
    ensures var r := HandleOptions(headers, workerOrigin);
      && (r.status == 204 <==> Truthy(Get(headers, "origin")))
      && (r.status == 204 ==>
            && Get(r.headers, "access-control-allow-origin") == Some(workerOrigin)
            && Get(r.headers, "access-control-max-age") == Some("86400")
            && (Truthy(Get(headers, "access-control-request-headers")) ==>
                  Get(r.headers, "access-control-allow-headers") == Get(headers, "access-control-request-headers"))
            && (!Truthy(Get(headers, "access-control-request-headers")) ==>
                  Get(r.headers, "access-control-allow-headers") == Some("*")))
      && (r.status != 204 ==> r.status == 200 && r.headers == map["allow" := AllowedMethods])
      && r.body == NoBody
  {
  }

  // ---------------------------------------------------------------------------------------
  // The decision chain

  /** What the handler knows about a request before its early returns: the URL after the git
      token fix-up, the secret, and the three credential tests that need no cookie. */
  datatype Credentials = Credentials(url: Url, secret: string, tokenValid: bool, gitClient: bool, basicAuth: bool)

  function Assess(req: Request, rt: Runtime): Credentials {
    var url := GitTokenFix(req.url);
    var secret := Password(rt.proxyPassword);
    Credentials(
      url, secret,
      GetParam(url.query, "token") == Some(secret),
      IsGitClient(GetOrEmpty(req.headers, "user-agent"), url.path),
      IsBasicAuth(Get(req.headers, "authorization"), rt.atob, secret))
  }

  /** Routing of an authenticated request: raw content first, then the block list, then the
      main site. */
  function Route(url: Url): Decision {
    if IsRawPath(url.path) then Raw(Url(RawOrigin, RawUpstreamPath(url.path), url.query))
    else if IsBlocked(url.path) then Blocked(url.path)
    else Main(Url(MainOrigin, url.path, url.query))
  }

  /** The early-return chain of the handler, in its order: preflight, token login redirect,
      cookie parsing, form login, the authentication gate, routing. */
  function Decide(req: Request, rt: Runtime, form: FormBody): Decision {
    Chain(req, Assess(req, rt), CookieJar(GetOrEmpty(req.headers, "cookie"), rt.decodeUri), form)
  }

  /** The chain over what the handler derives from the request: its credentials, and the
      cookie dictionary (nothing where `parseCookies` throws), which only matters once the
      chain gets past the token redirect. */
  function Chain(req: Request, c: Credentials, cookies: Option<Jar>, form: FormBody): Decision {
    if req.verb == "OPTIONS" then Options(HandleOptions(req.headers, c.url.origin))
    else if c.tokenValid && !c.gitClient && !c.basicAuth then
      TokenRedirect(c.url.(query := DeleteParam(c.url.query, "token")), AuthCookie(c.secret))
    else
      match cookies
      case None => Throws
      case Some(jar) => Admit(req, c, jar, form)
  }

  /** The chain after the cookies are parsed: the token leaves the URL once it has served,
      the login form is answered whoever sends it, and only authenticated requests are
      routed. */
  function Admit(req: Request, c: Credentials, jar: Jar, form: FormBody): Decision {
    var isAuth := IsAuth(IsCookieAuth(jar, c.secret), c.tokenValid, c.gitClient, c.basicAuth);
    var url := if c.tokenValid && isAuth then c.url.(query := DeleteParam(c.url.query, "token")) else c.url;
    if c.url.path == "/login-proxy" && req.verb == "POST" then
      match form
      case Unparsable => Throws
      case Form(password) => if password == Some(c.secret) then LoginOk(AuthCookie(c.secret)) else LoginBad
    else if !isAuth then
      if c.gitClient || Truthy(Get(req.headers, "authorization")) then Challenge401 else LoginPage401
    else
      Route(url)
  }

  // ---------------------------------------------------------------------------------------
  // Responses

  /** The responses the handler builds itself. */
  function Respond(d: Decision): Response
    requires !d.Raw? && !d.Main? && !d.Throws?
  {
    match d
    case Options(preflight) => preflight
    case TokenRedirect(location, cookie) =>
      Response(302, map["location" := Href(location), "set-cookie" := cookie], NoBody)
    case LoginOk(cookie) => Response(302, map["location" := "/", "set-cookie" := cookie], NoBody)
    case LoginBad => Response(403, map[], TextBody("Invalid Password"))
    case Challenge401 =>
      Response(401, map["www-authenticate" := "Basic realm=\"GitHub Proxy\""], TextBody("Unauthorized"))
    case LoginPage401 => Response(401, map["content-type" := "text/html; charset=utf-8"], LoginPage)
    case Blocked(path) => Response(403, map[], TextBody("Path " + path + " is blocked."))
  }

  /** The request sent upstream; its body is the incoming one and is not modelled. */
  datatype Outbound = Outbound(verb: string, url: string, headers: Fields, followRedirects: bool)

  /** An upstream response; `text` is what `response.text()` gives (nothing if it throws). */
  datatype UpstreamResponse = UpstreamResponse(status: int, headers: Fields, text: Option<string>)

  datatype FetchResult = NetworkError | Fetched(response: UpstreamResponse)

  /** The raw-content response: the upstream status and body, with CORS headers added. */
  function RawResponse(r: FetchResult, workerOrigin: string): Response {
    match r
    case NetworkError => Response(502, map[], TextBody("Raw fetch failed"))
    case Fetched(u) => Response(u.status, WithCors(u.headers, workerOrigin), Passthrough)
  }

  /** The headers of a main-site redirect: a non-empty `Location` that resolves against the
      upstream URL is rewritten onto the worker. */
  function RedirectHeaders(h: Fields, upstreamUrl: string, workerOrigin: string,
                           resolve: (string, string) -> Option<string>): Fields
  {
    var loc := Get(h, "location");
    if Truthy(loc) then
      match resolve(loc.value, upstreamUrl)
      case None => h
      case Some(absLoc) => h["location" := RewriteLocation(absLoc, workerOrigin)]
    else h
  }

  /** The main-site response: redirects get their `Location` rewritten and keep everything
      else; other responses lose their CSP headers and, for HTML or JavaScript, get their body
      rewritten, with `Content-Length` dropped when the rewrite changed something. */
  function MainResponse(r: FetchResult, workerOrigin: string, upstreamUrl: string,
                        resolve: (string, string) -> Option<string>): Response
  {
    match r
    case NetworkError => Response(502, map[], TextBody("Upstream fetch failed"))
    case Fetched(u) =>
      if 300 <= u.status < 400 then
        Response(u.status, WithCors(RedirectHeaders(u.headers, upstreamUrl, workerOrigin, resolve), workerOrigin), Passthrough)
      else
        ContentResponse(u, workerOrigin)
  }

  /** A main-site response that is not a redirect. */
  function ContentResponse(u: UpstreamResponse, workerOrigin: string): Response {
    var h := WithCors(WithoutCsp(u.headers), workerOrigin);
    var contentType := Get(h, "content-type");
    if !IsRewritable(contentType) then Response(u.status, h, Passthrough)
    else
      match u.text
      case None => Response(502, map[], TextBody("Upstream fetch failed"))
      case Some(text) =>
        var rw := RewriteBody(text, contentType.value, workerOrigin);
        Response(u.status, if rw.modified then h - {"content-length"} else h, TextBody(rw.text))
  }

  /** The whole handler: decide, and for the two proxy routes fetch from upstream (`fetch`
      stands for the network) and rewrite. */
  function Serve(req: Request, rt: Runtime, form: FormBody, fetch: Outbound -> FetchResult): Outcome {
    Dispatch(req, rt.resolve, Decide(req, rt, form), fetch)
  }

  /** Carrying out a decision: the two proxy routes fetch from upstream (`fetch` stands for
      the network), every other decision is answered by the worker itself. */
  function Dispatch(req: Request, resolve: (string, string) -> Option<string>, d: Decision,
                    fetch: Outbound -> FetchResult): Outcome
  {
    var workerOrigin := req.url.origin;
    match d
    case Throws => Threw
    case Raw(u) =>
      Responded(RawResponse(fetch(Outbound(req.verb, Href(u), Forwarded(req.headers, RawUpstreamHost), true)), workerOrigin))
    case Main(u) =>
      Responded(MainResponse(fetch(Outbound(req.verb, Href(u), Forwarded(req.headers, UpstreamHost), false)),
                             workerOrigin, Href(u), resolve))
    case _ => Responded(Respond(d))
  }

  // ---------------------------------------------------------------------------------------
  // The handler, step by step

  /** The Basic-auth test of the handler, with `isBasicAuth` set on success. */
  method CheckBasicAuth(authHeader: Option<string>, atob: string -> Option<string>, proxyPassword: string)
    returns (isBasicAuth: bool)
    ensures isBasicAuth == IsBasicAuth(authHeader, atob, proxyPassword)
  {
    isBasicAuth := false;
    if authHeader.Some? && StartsWith(authHeader.value, "Basic ") {
      var decoded := atob(authHeader.value[6..]);
      if decoded.Some? {
        var separator := IndexOf(decoded.value, ':');
        if separator != -1 {
          var password := decoded.value[separator + 1..];
          if password == proxyPassword {
            isBasicAuth := true;
          }
        }
      }
    }
  }

  /** The raw-content branch: forward with the raw host, add CORS headers to the answer. */
  method ProxyRaw(req: Request, pathname: string, search: string, workerOrigin: string,
                  fetch: Outbound -> FetchResult)
    returns (response: Response)
    requires IsRawPath(pathname)
    ensures response == RawResponse(
      fetch(Outbound(req.verb, RawOrigin + RawUpstreamPath(pathname) + search,
                     Forwarded(req.headers, RawUpstreamHost), true)), workerOrigin)
  {
    var rawPath := pathname[|RawProxyPrefix|..];
    var rawUpstreamUrl := RawOrigin + rawPath + search;
    var rawRequestHeaders := ForwardHeaders(req.headers, RawUpstreamHost);
    var rawResponse := fetch(Outbound(req.verb, rawUpstreamUrl, rawRequestHeaders.fields, true));
    if rawResponse.NetworkError? {
      return Response(502, map[], TextBody("Raw fetch failed"));
    }
    var newHeaders := new Headers(rawResponse.response.headers);
    AddCorsHeaders(newHeaders, workerOrigin);
    return Response(rawResponse.response.status, newHeaders.fields, Passthrough);
  }

  /** The body rewrite as the handler performs it, reassigning `text` and `modified`. */
  method RewriteText(upstreamText: string, contentType: string, workerOrigin: string)
    returns (text: string, modified: bool)
    ensures Rewritten(text, modified) == RewriteBody(upstreamText, contentType, workerOrigin)
  {
    text := upstreamText;
    modified := false;
    if HasUrl(text, UpstreamHost) {
      text := RewriteUrls(text, UpstreamHost, workerOrigin);
      modified := true;
    }
    if HasUrl(text, RawUpstreamHost) {
      text := RewriteUrls(text, RawUpstreamHost, workerOrigin + RawProxyPrefix);
      modified := true;
    }
    if Contains(contentType, "text/html") {
      text := InjectTitle(text);
      var bodyTag := FindBodyTag(text);
      if bodyTag.Some? {
        text := InjectBanner(text, bodyTag.value);
        modified := true;
      }
    }
  }

  /** The main-site branch after the block list: forward, then fix up the answer's headers
      in place and rewrite its body. */
  method ProxyMain(req: Request, upstreamUrl: string, workerOrigin: string,
                   resolve: (string, string) -> Option<string>, fetch: Outbound -> FetchResult)
    returns (response: Response)
    ensures response == MainResponse(
      fetch(Outbound(req.verb, upstreamUrl, Forwarded(req.headers, UpstreamHost), false)),
      workerOrigin, upstreamUrl, resolve)
  {
    var reqHeaders := ForwardHeaders(req.headers, UpstreamHost);
    var fetched := fetch(Outbound(req.verb, upstreamUrl, reqHeaders.fields, false));
    if fetched.NetworkError? {
      return Response(502, map[], TextBody("Upstream fetch failed"));
    }
    var upstreamResponse := fetched.response;
    var resHeaders := new Headers(upstreamResponse.headers);
    if 300 <= upstreamResponse.status < 400 {
      FixRedirect(resHeaders, upstreamUrl, workerOrigin, resolve);
      AddCorsHeaders(resHeaders, workerOrigin);
      return Response(upstreamResponse.status, resHeaders.fields, Passthrough);
    }
    response := ServeContent(upstreamResponse, resHeaders, workerOrigin);
  }

  /** A redirect's `Location`, resolved against the upstream URL and rewritten in place. */
  method FixRedirect(resHeaders: Headers, upstreamUrl: string, workerOrigin: string,
                     resolve: (string, string) -> Option<string>)
    modifies resHeaders
    ensures resHeaders.fields == RedirectHeaders(old(resHeaders.fields), upstreamUrl, workerOrigin, resolve)
  {
    var loc := Get(resHeaders.fields, "location");
    if Truthy(loc) {
      var absLoc := resolve(loc.value, upstreamUrl);
      if absLoc.Some? {
        var newLoc := ReplaceAll(absLoc.value, MainOrigin, workerOrigin);
        newLoc := ReplaceAll(newLoc, RawOrigin, workerOrigin + RawProxyPrefix);
        resHeaders.Set("location", newLoc);
      }
    }
  }

  /** A response that is not a redirect: CSP headers deleted, CORS headers added, and an HTML
      or JavaScript body read and rewritten. */
  method ServeContent(upstreamResponse: UpstreamResponse, resHeaders: Headers, workerOrigin: string)
    returns (response: Response)
    requires resHeaders.fields == upstreamResponse.headers
    modifies resHeaders
    ensures response == ContentResponse(upstreamResponse, workerOrigin)
  {
    resHeaders.Delete("content-security-policy");
    resHeaders.Delete("content-security-policy-report-only");
    AddCorsHeaders(resHeaders, workerOrigin);
    assert resHeaders.fields == WithCors(WithoutCsp(upstreamResponse.headers), workerOrigin);

    var contentType := Get(resHeaders.fields, "content-type");
    var body := Passthrough;
    if IsRewritable(contentType) {
      if upstreamResponse.text.None? {
        return Response(502, map[], TextBody("Upstream fetch failed"));
      }
      var text, modified := RewriteText(upstreamResponse.text.value, contentType.value, workerOrigin);
      body := TextBody(text);
      if modified {
        resHeaders.Delete("content-length");
      }
    }
    return Response(upstreamResponse.status, resHeaders.fields, body);
  }

  /** The `fetch` handler as written: the `url` object and the `Headers` objects are edited in
      place and the early returns come in the source's order. */
  method Handle(req: Request, rt: Runtime, form: FormBody, fetch: Outbound -> FetchResult)
    returns (outcome: Outcome)
    ensures outcome == Serve(req, rt, form, fetch)
  {
    var url := new LiveUrl(req.url);
    url.FixGitToken();
    var pathname := url.path;
    var workerOrigin := url.origin;
    var proxyPassword := Password(rt.proxyPassword);

    if req.verb == "OPTIONS" {
      return Responded(HandleOptions(req.headers, workerOrigin));
    }

    var token := GetParam(url.query, "token");
    var isTokenValid := token == Some(proxyPassword);
    var userAgent := GetOrEmpty(req.headers, "user-agent");
    var isGitClient := IsGitClient(userAgent, pathname);
    var authHeader := Get(req.headers, "authorization");
    var isBasicAuth := CheckBasicAuth(authHeader, rt.atob, proxyPassword);
    var c := Credentials(url.Value(), proxyPassword, isTokenValid, isGitClient, isBasicAuth);
    assert c == Assess(req, rt);
    outcome := HandleAssessed(req, rt, form, fetch, url, c);
  }

  /** The handler past the preflight test, once the credentials are known: the token
      redirect, the cookies, and the rest. */
  method HandleAssessed(req: Request, rt: Runtime, form: FormBody, fetch: Outbound -> FetchResult,
                        url: LiveUrl, c: Credentials)
    returns (outcome: Outcome)
    requires req.verb != "OPTIONS"
    requires url.Value() == c.url && url.origin == req.url.origin
    modifies url
    ensures outcome ==
      Dispatch(req, rt.resolve, Chain(req, c, CookieJar(GetOrEmpty(req.headers, "cookie"), rt.decodeUri), form), fetch)
  {
    var proxyPassword := c.secret;
    var isTokenValid := c.tokenValid;
    var isGitClient := c.gitClient;
    var isBasicAuth := c.basicAuth;
    if isTokenValid && !isGitClient && !isBasicAuth {
      url.DeleteSearchParam("token");
      var newUrl := Href(url.Value());
      return Responded(Response(302, map["location" := newUrl, "set-cookie" := AuthCookie(proxyPassword)], NoBody));
    }

    var cookies := ParseCookies(GetOrEmpty(req.headers, "cookie"), rt.decodeUri);
    if cookies.None? {
      return Threw;
    }
    outcome := HandleAdmitted(req, rt.resolve, form, fetch, url, c, cookies.value);
  }

  /** The rest of the handler, from the authentication test on. */
  method HandleAdmitted(req: Request, resolve: (string, string) -> Option<string>, form: FormBody,
                        fetch: Outbound -> FetchResult, url: LiveUrl, c: Credentials, cookies: Jar)
    returns (outcome: Outcome)
    requires url.Value() == c.url && url.origin == req.url.origin
    modifies url
    ensures outcome == Dispatch(req, resolve, Admit(req, c, cookies, form), fetch)
  {
    var pathname := url.path;
    var workerOrigin := url.origin;
    var proxyPassword := c.secret;
    var isTokenValid := c.tokenValid;
    var isGitClient := c.gitClient;
    var isBasicAuth := c.basicAuth;
    var authHeader := Get(req.headers, "authorization");
    ghost var d := Admit(req, c, cookies, form);

    var isCookieAuth := IsCookieAuth(cookies, proxyPassword);
    var isAuth := isCookieAuth || (isTokenValid && isGitClient) || isBasicAuth;

    if isTokenValid && isAuth {
      url.DeleteSearchParam("token");
    }

    if pathname == "/login-proxy" && req.verb == "POST" {
      if form.Unparsable? {
        return Threw;
      }
      if form.password == Some(proxyPassword) {
        return Responded(Response(302, map["location" := "/", "set-cookie" := AuthCookie(proxyPassword)], NoBody));
      } else {
        return Responded(Response(403, map[], TextBody("Invalid Password")));
      }
    }

    if !isAuth {
      if isGitClient || Truthy(authHeader) {
        return Responded(Response(401, map["www-authenticate" := "Basic realm=\"GitHub Proxy\""], TextBody("Unauthorized")));
      }
      return Responded(Response(401, map["content-type" := "text/html; charset=utf-8"], LoginPage));
    }

    assert d == Route(url.Value());
    outcome := HandleRoute(req, resolve, fetch, url);
  }

  /** The authenticated request on its final URL: raw content, the block list, or the main site. */
  method HandleRoute(req: Request, resolve: (string, string) -> Option<string>,
                     fetch: Outbound -> FetchResult, url: LiveUrl)
    returns (outcome: Outcome)
    requires url.origin == req.url.origin
    ensures outcome == Dispatch(req, resolve, Route(url.Value()), fetch)
  {
    var pathname := url.path;
    var workerOrigin := url.origin;
    if StartsWith(pathname, RawProxyPrefix + "/") {
      var response := ProxyRaw(req, pathname, Search(url.query), workerOrigin, fetch);
      return Responded(response);
    }

    var isBlocked := BlockedByList(pathname);
    if !isBlocked && StartsWith(pathname, "/settings/") {
      isBlocked := true;
    }
    if isBlocked {
      return Responded(Response(403, map[], TextBody("Path " + pathname + " is blocked.")));
    }

    var response := ProxyMain(req, MainOrigin + pathname + Search(url.query), workerOrigin, resolve, fetch);
    return Responded(response);
  }

  // ---------------------------------------------------------------------------------------
  // Properties of the decision chain

  /** A preflight is answered first, before any credential is looked at. */
  lemma PreflightFirst(req: Request, rt: Runtime, form: FormBody, fetch: Outbound -> FetchResult)
    requires req.verb == "OPTIONS"
    ensures Serve(req, rt, form, fetch) == Responded(HandleOptions(req.headers, req.url.origin))
  {
  }

  /** A valid token from a client that is neither git nor Basic-authenticated is traded for
      the cookie at once, whatever cookies the request carries: the redirect goes to the same
      URL without any `token` parameter and with every other parameter kept. */
  lemma TokenLoginRedirect(req: Request, rt: Runtime, form: FormBody)
    requires req.verb != "OPTIONS"
    requires Assess(req, rt).tokenValid && !Assess(req, rt).gitClient && !Assess(req, rt).basicAuth
    ensures Decide(req, rt, form).TokenRedirect?
    ensures Decide(req, rt, form).setCookie == AuthCookie(Password(rt.proxyPassword))
    ensures var loc := Decide(req, rt, form).location;
      && loc.origin == req.url.origin
      && loc.path == Assess(req, rt).url.path
      && loc.query == DeleteParam(req.url.query, "token") && !HasParam(loc.query, "token")
      && forall name :: name != "token" ==> GetParam(loc.query, name) == GetParam(req.url.query, name)
  {
    var c := Assess(req, rt);
    var loc := Decide(req, rt, form).location;
    GitTokenFixQuery(req.url);
    forall name | name != "token"
      ensures GetParam(loc.query, name) == GetParam(req.url.query, name)
    {
      GetAfterDelete(c.url.query, "token", name);
      GitTokenFixOthers(req.url, name);
    }
  }

  /** A git client that appends the repository path to the token (`?token=<secret>/info/refs`)
      is recognised as git once the path is moved back where it belongs, and its token is
      valid: so it is authenticated, and not redirected. */
  lemma GitTokenInPath(req: Request, rt: Runtime, extra: string)
    requires GetParam(req.url.query, "token") == Some(Password(rt.proxyPassword) + extra)
    requires '/' !in Password(rt.proxyPassword) && StartsWith(extra, "/info/refs")
    ensures Assess(req, rt).url.path == req.url.path + extra
    ensures Assess(req, rt).tokenValid && Assess(req, rt).gitClient
  {
    var secret := Password(rt.proxyPassword);
    var t := secret + extra;
    IndexOfAtSeam(secret, extra, '/');
    assert t[..|secret|] == secret && t[|secret|..] == extra;
    GitTokenFixSplits(req.url, t);
    ServiceSuffixMakesGit(GetOrEmpty(req.headers, "user-agent"), req.url.path, extra);
  }

  /** The token redirect happens exactly for a valid token from a client that is neither
      git nor Basic-authenticated, whatever its cookies, unless it is a preflight. */
  lemma RedirectExactly(req: Request, c: Credentials, cookies: Option<Jar>, form: FormBody)
    ensures Chain(req, c, cookies, form).TokenRedirect? <==>
      req.verb != "OPTIONS" && c.tokenValid && !c.gitClient && !c.basicAuth
  {
    if cookies.Some? {
      var jar := cookies.value;
      var isAuth := IsAuth(IsCookieAuth(jar, c.secret), c.tokenValid, c.gitClient, c.basicAuth);
      var url := if c.tokenValid && isAuth then c.url.(query := DeleteParam(c.url.query, "token")) else c.url;
      assert !Route(url).TokenRedirect?;
    }
  }

  /** The login form is answered whatever the credentials: the cookie is issued exactly for
      the right password, and an unreadable form escapes the handler. */
  lemma LoginFormAnyCredentials(req: Request, c: Credentials, jar: Jar, form: FormBody)
    requires req.verb == "POST" && c.url.path == "/login-proxy"
    requires !(c.tokenValid && !c.gitClient && !c.basicAuth)
    ensures var d := Chain(req, c, Some(jar), form);
      && (d.LoginOk? <==> form == Form(Some(c.secret)))
      && (d.LoginOk? ==> d.setCookie == AuthCookie(c.secret))
      && (d.LoginBad? <==> form.Form? && form.password != Some(c.secret))
      && (d.Throws? <==> form.Unparsable?)
  {
  }

  /** Only authenticated requests reach an upstream or the block list: a request routed has
      readable cookies and one of the three credentials, and is neither a preflight nor the
      login form. */
  lemma OnlyAuthenticatedRouted(req: Request, c: Credentials, cookies: Option<Jar>, form: FormBody)
    ensures var d := Chain(req, c, cookies, form);
      (d.Raw? || d.Blocked? || d.Main?) ==>
        && req.verb != "OPTIONS"
        && !(req.verb == "POST" && c.url.path == "/login-proxy")
        && cookies.Some?
        && IsAuth(IsCookieAuth(cookies.value, c.secret), c.tokenValid, c.gitClient, c.basicAuth)
  {
  }

  /** Conversely, every authenticated request that is not a preflight, a token login or the
      login form is routed, on its URL without the `token` parameter when that was valid. */
  lemma AuthenticatedRouted(req: Request, c: Credentials, jar: Jar, form: FormBody)
    requires req.verb != "OPTIONS"
    requires !(req.verb == "POST" && c.url.path == "/login-proxy")
    requires !(c.tokenValid && !c.gitClient && !c.basicAuth)
    requires IsAuth(IsCookieAuth(jar, c.secret), c.tokenValid, c.gitClient, c.basicAuth)
    ensures Chain(req, c, Some(jar), form) ==
      Route(if c.tokenValid then c.url.(query := DeleteParam(c.url.query, "token")) else c.url)
  {
  }

  /** An unauthenticated request gets the Basic challenge when it looks like git or sent a
      non-empty `Authorization` header, and the login page otherwise. */
  lemma UnauthenticatedAnswered(req: Request, c: Credentials, jar: Jar, form: FormBody)
    requires req.verb != "OPTIONS"
    requires !(c.tokenValid && !c.gitClient && !c.basicAuth)
    requires !(req.verb == "POST" && c.url.path == "/login-proxy")
    requires !IsAuth(IsCookieAuth(jar, c.secret), c.tokenValid, c.gitClient, c.basicAuth)
    ensures Chain(req, c, Some(jar), form) ==
      if c.gitClient || Truthy(Get(req.headers, "authorization")) then Challenge401 else LoginPage401
  {
  }

  /** Routing: the raw-content prefix wins over the block list, and the block list over the
      main site; the raw upstream path is the request path without the prefix. */
  lemma RouteExactly(url: Url)
    ensures var d := Route(url);
      && (d.Raw? <==> IsRawPath(url.path))
      && (d.Raw? ==> d.upstream.origin == RawOrigin && RawProxyPrefix + d.upstream.path == url.path
                     && StartsWith(d.upstream.path, "/") && d.upstream.query == url.query)
      && (d.Blocked? <==> !IsRawPath(url.path) && BlockedByList(url.path))
      && (d.Blocked? ==> d.path == url.path)
      && (d.Main? <==> !IsRawPath(url.path) && !BlockedByList(url.path))
      && (d.Main? ==> d.upstream == Url(MainOrigin, url.path, url.query))
  {
    SettingsRuleRedundant(url.path);
  }

  /** A valid token never travels upstream. */
  lemma ValidTokenStaysHome(req: Request, c: Credentials, cookies: Option<Jar>, form: FormBody)
    requires c.tokenValid
    ensures var d := Chain(req, c, cookies, form);
      (d.Raw? || d.Main?) ==> !HasParam(d.upstream.query, "token")
  {
  }

  /** Only the first `token` value is tested: when it is not the secret, the query goes
      upstream unchanged, including any later `token` parameter that holds the secret. */
  lemma InvalidTokenForwarded(req: Request, c: Credentials, cookies: Option<Jar>, form: FormBody)
    requires !c.tokenValid
    ensures var d := Chain(req, c, cookies, form);
      (d.Raw? || d.Main?) ==> d.upstream.query == c.url.query
  {
  }

  // ---------------------------------------------------------------------------------------
  // Properties of the responses

  /** The header names the worker sets or deletes on a main-site response. */
  const EditedHeaders := CorsHeaders +
    {"content-security-policy", "content-security-policy-report-only", "content-length"}

  /** Both proxy routes send the request's credential headers upstream as received: the
      `Cookie` header, which carries the worker's own auth cookie, and `Authorization`. */
  lemma CredentialsForwarded(req: Request, resolve: (string, string) -> Option<string>, d: Decision,
                             fetch: Outbound -> FetchResult)
    requires d.Raw? || d.Main?
    ensures var sent := Forwarded(req.headers, if d.Raw? then RawUpstreamHost else UpstreamHost);
      && Dispatch(req, resolve, d, fetch) ==
           (if d.Raw? then Responded(RawResponse(fetch(Outbound(req.verb, Href(d.upstream), sent, true)), req.url.origin))
            else Responded(MainResponse(fetch(Outbound(req.verb, Href(d.upstream), sent, false)),
                                        req.url.origin, Href(d.upstream), resolve)))
      && Get(sent, "cookie") == Get(req.headers, "cookie")
      && Get(sent, "authorization") == Get(req.headers, "authorization")
  {
    var host := if d.Raw? then RawUpstreamHost else UpstreamHost;
    ForwardedFields(req.headers, host, "cookie");
    ForwardedFields(req.headers, host, "authorization");
  }

  /** A raw-content response keeps the upstream status, body and headers, with CORS added. */
  lemma RawResponseKeeps(u: UpstreamResponse, workerOrigin: string, name: string)
    requires name !in CorsHeaders
    ensures var r := RawResponse(Fetched(u), workerOrigin);
      && r.status == u.status && r.body == Passthrough && HasCors(r.headers, workerOrigin)
      && Get(r.headers, name) == Get(u.headers, name)
  {
    WithCorsFields(u.headers, workerOrigin, name);
  }

  /** A main-site redirect keeps its status, body and every header but `Location` and the
      CORS ones, and gets CORS; its `Location` is rewritten when it is non-empty and resolves,
      and kept otherwise. */
  lemma RedirectKept(u: UpstreamResponse, workerOrigin: string, upstreamUrl: string,
                     resolve: (string, string) -> Option<string>)
    requires 300 <= u.status < 400
    ensures var r := MainResponse(Fetched(u), workerOrigin, upstreamUrl, resolve);
      var loc := Get(u.headers, "location");
      && r.status == u.status && r.body == Passthrough && HasCors(r.headers, workerOrigin)
      && (forall name :: name !in CorsHeaders && name != "location" ==>
            Get(r.headers, name) == Get(u.headers, name))
      && (Truthy(loc) && resolve(loc.value, upstreamUrl).Some? ==>
            Get(r.headers, "location") == Some(RewriteLocation(resolve(loc.value, upstreamUrl).value, workerOrigin)))
      && (!Truthy(loc) || resolve(loc.value, upstreamUrl).None? ==> Get(r.headers, "location") == loc)
  {
    var h := RedirectHeaders(u.headers, upstreamUrl, workerOrigin, resolve);
    WithCorsFields(h, workerOrigin, "location");
    forall name | name !in CorsHeaders && name != "location"
      ensures Get(WithCors(h, workerOrigin), name) == Get(u.headers, name)
    {
      WithCorsFields(h, workerOrigin, name);
    }
  }

  /** A redirect to a page of the main site sends the client to the same page on the worker. */
  lemma RedirectToMainSite(u: UpstreamResponse, workerOrigin: string, upstreamUrl: string,
                           resolve: (string, string) -> Option<string>, rest: string)
    requires 300 <= u.status < 400
    requires Truthy(Get(u.headers, "location"))
    requires resolve(u.headers["location"], upstreamUrl) == Some(MainOrigin + rest)
    requires !Contains(rest, MainOrigin) && !Contains(workerOrigin + rest, RawOrigin)
    ensures Get(MainResponse(Fetched(u), workerOrigin, upstreamUrl, resolve).headers, "location") ==
      Some(workerOrigin + rest)
  {
    RedirectKept(u, workerOrigin, upstreamUrl, resolve);
    LocationOnMainSite(rest, workerOrigin);
  }

  /** A main-site response that is not a redirect loses its CSP headers and gets CORS, and
      keeps every other header but `Content-Length`, unless its HTML or JavaScript body cannot
      be read. */
  lemma ContentHeaders(u: UpstreamResponse, workerOrigin: string, name: string)
    requires name !in EditedHeaders
    ensures var r := ContentResponse(u, workerOrigin);
      || (IsRewritable(Get(u.headers, "content-type")) && u.text.None? &&
          r == Response(502, map[], TextBody("Upstream fetch failed")))
      || (&& r.status == u.status && HasCors(r.headers, workerOrigin)
          && "content-security-policy" !in r.headers && "content-security-policy-report-only" !in r.headers
          && Get(r.headers, name) == Get(u.headers, name))
  {
    var h := WithCors(WithoutCsp(u.headers), workerOrigin);
    WithCorsFields(WithoutCsp(u.headers), workerOrigin, name);
    WithCorsFields(WithoutCsp(u.headers), workerOrigin, "content-type");
    WithCorsFields(WithoutCsp(u.headers), workerOrigin, "content-security-policy");
    WithCorsFields(WithoutCsp(u.headers), workerOrigin, "content-security-policy-report-only");
  }

  /** The body and `Content-Length` of a response that is not a redirect: other content types
      pass through untouched; HTML and JavaScript are rewritten, and `Content-Length` goes
      exactly when the rewrite counts as a modification. */
  lemma ContentBody(u: UpstreamResponse, workerOrigin: string)
    ensures var r, ct := ContentResponse(u, workerOrigin), Get(u.headers, "content-type");
      && (!IsRewritable(ct) ==>
            r.body == Passthrough && Get(r.headers, "content-length") == Get(u.headers, "content-length"))
      && (IsRewritable(ct) && u.text.Some? ==>
            var rw := RewriteBody(u.text.value, ct.value, workerOrigin);
            && r.body == TextBody(rw.text)
            && Get(r.headers, "content-length") == (if rw.modified then None else Get(u.headers, "content-length")))
  {
    WithCorsFields(WithoutCsp(u.headers), workerOrigin, "content-type");
    WithCorsFields(WithoutCsp(u.headers), workerOrigin, "content-length");
  }
}
