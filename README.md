# GitHub proxy worker, modelled in Dafny

This project models the request handler of a Cloudflare Worker that proxies `github.com` and
`raw.githubusercontent.com` behind a shared password (`workers.js`). It proves properties of
that model. The model covers the following parts.

- **URL pre-processing.** A git client may append the repository path to the token
  (`?token=<secret>/info/refs`). The handler cuts the first `token` value at its first `/`
  and moves the rest back onto the path. Later the `token` parameter is deleted.
- **Credentials.** The model covers the configured password and its default, the git-client
  heuristic, HTTP Basic credentials, the authentication cookie and the combined rule.
- **The early-return chain**, in the handler's order:
  1. the preflight answer;
  2. the token login redirect;
  3. cookie parsing;
  4. removal of the token once it has served;
  5. the login form;
  6. the 401 challenge or login page;
  7. routing to the raw-content host, the block list or the main site.
- **Forwarding.** The outbound headers get `Host` set and the four `cf-*` headers removed.
- **Responses.** Raw-content responses gain CORS headers. Main-site redirects get their
  `Location` rewritten with literal replace-all. Other main-site responses lose their CSP
  headers and gain CORS headers.
- **Body rewriting** for HTML and JavaScript:
  - the two URL passes of the RegExp `https:(//|\/\/)HOST`, where every `.` of the host is
    the any-character atom;
  - the `[Proxy] ` title prefix;
  - the warning banner after the first `<body…>` tag;
  - the `modified` flag that decides whether `Content-Length` is dropped.
- **`parseCookies`.**

The source's form is kept:

- The handler mutates a `url` object, `Headers` objects and local flags. So `Urls.LiveUrl`
  and `HeaderMap.Headers` are classes whose methods edit fields.
- `parseCookies` is a loop. `Worker.Handle` is the handler written step by step.
- `Handle` is proved equal to the pure description `Worker.Serve`, which is built from
  `Worker.Decide`, the decision chain. `Decide` assesses the request's credentials and
  parses its cookies, then hands both to `Worker.Chain`. The properties are proved about
  `Serve`, `Decide`, `Chain` and their parts.

The built-ins the handler calls are parameters:

- `atob`, `decodeURI` and `new URL(loc, base)` are partial functions. They give nothing
  where the built-in throws.
- `request.formData()` is a `FormBody`.
- The network is a function from an outbound request to a `FetchResult`.
- `response.text()` is an optional string in the upstream response.

Header names are written in lower case, which stands for the case-insensitive matching of
`Headers`.

Modules, in dependency order:

| module | file | contents |
|---|---|---|
| `Wrappers` | wrappers.dfy | `Option` |
| `Text` | text.dfy | the string built-ins the handler uses: `indexOf`, `split`/`join`, `trim`, `replaceAll`, first-occurrence search, case-insensitive search |
| `Urls` | urls.dfy | query parameters (`get`/`set`/`delete`), the git token fix-up, the `LiveUrl` class |
| `HeaderMap` | headers.dfy | header maps, the `Headers` class, `addCorsHeaders`, the forwarded headers |
| `Cookies` | cookies.dfy | `parseCookies` |
| `Auth` | auth.dfy | the secret, the git heuristic, Basic and cookie credentials |
| `Router` | router.dfy | raw-content prefix and block list |
| `Rewrite` | rewrite.dfy | `Location` rewriting, the URL passes, title and banner injection, the body rewrite |
| `Worker` | worker.dfy | the decision chain, the responses, the handler, and their properties |

## Where the code and its design description differ

The model follows the code in each of these cases.

- **Preflight.** The design describes the preflight as answered with 204 only when `Origin`
  and both `Access-Control-Request-*` headers are present. The code
  (workers.js:301) tests `Origin` alone and echoes `Access-Control-Request-Headers`, or
  `*` when it is absent or empty. See `Worker.PreflightAnswer`.
- **Unreadable body.** A failure while reading an HTML or JavaScript body is described as a
  500. In the code, `text()` runs inside the `try` of the upstream fetch, so it becomes the
  502 "Upstream fetch failed" (workers.js:242, 293-295).
- **Empty `Authorization` header.** The design sends the Basic challenge to "any request
  bearing an Authorization header". In the code an empty header is falsy
  (workers.js:149). Such a request gets the login page. See `Worker.UnauthenticatedAnswered`.
- **Duplicate `token` parameters.** The design says the token is removed before forwarding.
  The code tests and removes only when the first `token` value is the secret. With
  `?token=x&token=<secret>` the query goes upstream unchanged, the secret included. See
  `Worker.InvalidTokenForwarded`.
- **Credentials sent upstream.** The design keeps the secret from the upstream sites. The
  code forwards the request headers with only `Host` and the four `cf-*` headers changed
  (workers.js:169-171, 201-203). The `Cookie` header, with the worker's own auth cookie,
  and the `Authorization` header go upstream as received. See `Worker.CredentialsForwarded`.

## Model

| member | source | states |
|---|---|---|
| Text.IndexOf | workers.js:63 | `indexOf` of one character: -1 exactly when it is absent, otherwise the index of its first occurrence |
| Text.Split | workers.js:325-326 | `split` gives at least one part, and no part contains the separator |
| Text.JoinSplit | workers.js:326-327 | joining the parts of a split with the same separator gives back the text |
| Text.SplitJoin | workers.js:326-327 | splitting a join of separator-free parts gives back the parts |
| Text.TrimStart | workers.js:327 | the result is a suffix of the input, with no leading white space, and only white space was removed |
| Text.TrimEnd | workers.js:327 | the result is a prefix of the input, with no trailing white space, and only white space was removed |
| Text.TrimSpec | workers.js:327 | `trim` removes exactly the white space at both ends: the input is white space, the result, white space |
| Text.ReplaceAllAbsent | workers.js:221-222 | `replaceAll` leaves a text without the pattern unchanged |
| Text.ReplaceAllLeading | workers.js:221-222 | a text that starts with the pattern starts with the replacement afterwards, and the rest is rewritten alone |
| Text.Find | workers.js:248 | the first occurrence of a literal at or after a position, or nothing when there is none |
| Text.FindIgnoringCase | workers.js:271-273 | the first case-insensitive occurrence at or after a position, or nothing when there is none |
| Text.FindIgnoringCaseIs | workers.js:271-273 | an occurrence with no occurrence before it is the one found |
| Urls.GetParam | workers.js:61 | `searchParams.get`: nothing exactly when no parameter has the name, otherwise the first such value |
| Urls.DeleteParam | workers.js:106 | `searchParams.delete` leaves no parameter of the name |
| Urls.DeleteParamMembers | workers.js:106 | `delete` keeps exactly the pairs of every other name |
| Urls.DeleteParamCons | workers.js:106 | `delete` drops a pair exactly when it has the name, and deletes from the rest on its own |
| Urls.DeleteParamAppend | workers.js:106 | `delete` on a concatenation is the concatenation of the deletes, so the pairs that stay keep their order and number |
| Urls.GetAfterSet | workers.js:67 | after `searchParams.set`, `get` of that name gives the new value |
| Urls.SetKeepsOthers | workers.js:67 | `set` changes only parameters of its own name |
| Urls.GetAfterSetOther | workers.js:67 | after `set`, `get` of any other name is unchanged |
| Urls.DeleteTwice | workers.js:125-127 | deleting `token` a second time changes nothing |
| Urls.GetAfterDelete | workers.js:106 | deleting one name leaves `get` of every other name unchanged |
| Urls.GitTokenFixSplits | workers.js:60-69 | a token with a `/` is cut at its first `/`: the new token has no `/`, the moved part starts with `/`, the two make up the old value, the path gains exactly the moved part, the origin and the other parameters are kept |
| Urls.GitTokenFixKeeps | workers.js:62 | without a token or without a `/` in it, the URL is untouched |
| Urls.GitTokenFixQuery | workers.js:67 | with the `token` pairs removed, the fixed-up query is the original one pair for pair |
| Urls.GitTokenFixOthers | workers.js:67 | the fix-up changes no parameter except `token` |
| Urls.LiveUrl.constructor | workers.js:58 | the URL object holds the request URL |
| Urls.LiveUrl.SetSearchParam | workers.js:67 | the object's query becomes the `set` of the old one and nothing else changes |
| Urls.LiveUrl.DeleteSearchParam | workers.js:106 | the object's query becomes the `delete` of the old one, without the name |
| Urls.LiveUrl.AppendToPath | workers.js:68 | the path gains the suffix and nothing else changes |
| Urls.LiveUrl.FixGitToken | workers.js:60-69 | the in-place fix-up leaves the object equal to `GitTokenFix` of its old value |
| HeaderMap.GetOrEmpty | workers.js:81 | `get(name) \|\| ''` is the value when it is non-empty and `''` otherwise |
| HeaderMap.ForwardedFields | workers.js:201-203 | the forwarded headers are the request's, with `host` naming the upstream and exactly the four `cf-*` headers removed |
| HeaderMap.WithCorsFields | workers.js:315-320 | the four CORS headers are present with the worker origin, and every other header is as it was |
| HeaderMap.Headers.constructor | workers.js:213 | a `Headers` copy holds the given fields |
| HeaderMap.Headers.Set | workers.js:223 | `set` maps the name to the value and changes nothing else |
| HeaderMap.Headers.Delete | workers.js:234 | `delete` removes the name and nothing else |
| HeaderMap.Headers.DeleteEach | workers.js:171 | deleting a list of names removes exactly those names |
| HeaderMap.AddCorsHeaders | workers.js:315-320 | the object's fields become the old fields with the CORS headers added |
| HeaderMap.ForwardHeaders | workers.js:201-203 | a fresh `Headers` object holding the forwarded headers |
| Cookies.CookiePieceParts | workers.js:326-327 | a cookie's name is the trimmed text before its first `=`; its raw value is everything after that `=`, later `=` signs included, and is empty when there is no `=` |
| Cookies.ParseCookies | workers.js:322-330 | the loop builds the dictionary of the header's pieces, stored in order, or fails when a value does not decode |
| Cookies.JarOfExtend | workers.js:325-328 | each piece adds its decoded value under its name to the dictionary so far |
| Cookies.FailureSticks | workers.js:327 | once one value fails to decode, the whole header fails |
| Cookies.LastPieceWins | workers.js:325-328 | the value under a name is the decoded value of the last piece with that name |
| Cookies.NamesFromPieces | workers.js:325-328 | every name in the dictionary is the name of some piece |
| Auth.MaxAgePrinted | workers.js:12 | the cookie lifetime of seven days is printed as `604800` seconds in `Max-Age` |
| Auth.Password | workers.js:73 | the secret is the configured password when it is set and non-empty, and `iloveyou` otherwise; it is never empty |
| Auth.ServiceSuffixMakesGit | workers.js:83 | a path that gains a `/info/refs` suffix marks a git client, whatever the user agent |
| Auth.BasicPasswordOf | workers.js:92-94 | for `user:password` with a user name free of `:`, the password is recovered whatever it contains |
| Auth.BasicPasswordNeedsColon | workers.js:92-93 | decoded credentials have a password exactly when they contain `:` |
| Router.RawUpstreamPath | workers.js:165-166 | the raw path starts with `/`, and the prefix followed by it is the request path |
| Router.SettingsRuleRedundant | workers.js:194-195 | the extra `/settings/` test never changes whether a path is blocked |
| Router.BlockedExactly | workers.js:194-196 | a path is blocked exactly when it equals a listed entry or continues one with `/` |
| Rewrite.LocationElsewhere | workers.js:219-223 | a location on neither upstream is kept |
| Rewrite.LocationOnMainSite | workers.js:221 | a main-site location moves to the worker origin with the rest kept |
| Rewrite.LocationOnRawSite | workers.js:222 | a raw-content location moves under the worker's raw-content prefix |
| Rewrite.UrlAt | workers.js:253 | a match of the pattern at the start of a text, with which of the two scheme forms matched, and no match exactly when neither form matches |
| Rewrite.RewriteUrlsWithoutMatch | workers.js:254-259 | a text where the pattern does not match is unchanged |
| Rewrite.HostMatchesItself | workers.js:253 | a host name matches its own RegExp |
| Rewrite.RewritesPlainUrl | workers.js:253-257 | `https://HOST` is replaced by the replacement origin and the rest is rewritten alone |
| Rewrite.RewritesEscapedUrl | workers.js:246-257 | the JSON-escaped form is replaced by the escaped replacement |
| Rewrite.EscapedOrigin | workers.js:246-251 | the escaped replacement of an `https` origin is that origin written `https:\/\/` |
| Rewrite.DotMatchesAnyCharacter | workers.js:253 | the unescaped `.` of the host matches any character of one UTF-16 code unit but a line terminator |
| Rewrite.DotMissesOtherCharacters | workers.js:253 | a line terminator, or a character of two code units, in place of the `.` defeats the match |
| Rewrite.FindTitleIsLeftmostMatch | workers.js:271 | the title search finds the leftmost match of the lazy, case-insensitive title RegExp, or finds nothing when it has no match |
| Rewrite.LowerCaseTag | workers.js:271 | a lower-case tag occurs case-insensitively where it occurs literally |
| Rewrite.TitleGetsPrefix | workers.js:271-272 | with the first opening tag at `i` and the first closing tag after it at `j`, the prefix is inserted after the opening tag, both tags come out in lower case, and the rest of the page is unchanged |
| Rewrite.FindBodyTagIsLeftmostMatch | workers.js:273-274 | the body-tag search ends just after the first `>` following the first `<body`, or finds nothing when the RegExp has no match |
| Rewrite.UnmodifiedBody | workers.js:280-285 | an unmodified body is the upstream text, with only the title prefix added for HTML |
| Rewrite.UrlMeansModified | workers.js:253-267 | any upstream URL in the body marks it modified |
| Rewrite.ModifiedOnlyByMatch | workers.js:243-276 | only a URL match in either pass or a body tag in an HTML page marks the body modified; the title prefix alone does not |
| Rewrite.BannerInside | workers.js:275 | the banner, its link to the main site included, is part of the page it is injected into |
| Rewrite.BannerSurvives | workers.js:269-277 | with a body tag the banner is injected verbatim, its `https://github.com` link included, and the body is modified |
| Worker.PreflightAnswer | workers.js:299-313 | 204 exactly when `Origin` is non-empty, allowing the worker origin and echoing the requested headers or `*`; otherwise 200 with the static `Allow` |
| Worker.CheckBasicAuth | workers.js:85-100 | the step-by-step Basic test gives `IsBasicAuth` of the header |
| Worker.ProxyRaw | workers.js:164-190 | the raw branch fetches the raw upstream with forwarded headers and answers `RawResponse` |
| Worker.RewriteText | workers.js:241-278 | the reassignments of `text` and `modified` give `RewriteBody` |
| Worker.ProxyMain | workers.js:200-231 | the main branch fetches with forwarded headers and manual redirects, and answers `MainResponse` |
| Worker.FixRedirect | workers.js:214-225 | the in-place `Location` fix-up gives `RedirectHeaders` |
| Worker.ServeContent | workers.js:233-291 | the in-place header edits and the body rewrite give `ContentResponse` |
| Worker.Handle | workers.js:57-100 | the handler, written step by step, has the outcome `Serve` describes |
| Worker.HandleAssessed | workers.js:102-118 | past the preflight, the token redirect and the cookie parsing follow `Chain` and then `Dispatch` |
| Worker.HandleAdmitted | workers.js:119-160 | the handler from the authentication test on follows `Admit` and then `Dispatch` |
| Worker.HandleRoute | workers.js:162-201 | an authenticated request on its final URL is answered as `Route` and `Dispatch` describe |
| Worker.PreflightFirst | workers.js:75-76 | a preflight is answered by `handleOptions` before any credential is looked at |
| Worker.TokenLoginRedirect | workers.js:102-115 | a valid token without git or Basic credentials is traded for the cookie, whatever cookies are sent; the redirect goes to the same URL, and its query is the request's query with every `token` pair removed and every other pair kept in order |
| Worker.GitTokenInPath | workers.js:60-83 | `?token=<secret>/info/refs` gets its suffix moved back to the path, and is recognised as a git client with a valid token |
| Worker.RedirectExactly | workers.js:102-115 | the token redirect happens exactly for a non-preflight request with a valid token, no git client and no Basic credentials, whatever its cookies |
| Worker.LoginFormAnyCredentials | workers.js:129-144 | the login form is answered whatever the credentials: the cookie exactly for the right password, 403 otherwise, a throw for an unreadable form |
| Worker.OnlyAuthenticatedRouted | workers.js:146-162 | a routed request is authenticated, has readable cookies, and is neither a preflight nor the login form |
| Worker.AuthenticatedRouted | workers.js:121-127 | every authenticated request past the earlier steps is routed, without `token` when the token was valid |
| Worker.UnauthenticatedAnswered | workers.js:147-159 | an unauthenticated request gets the Basic challenge when it looks like git or sent a non-empty `Authorization`, and the login page otherwise |
| Worker.RouteExactly | workers.js:164-198 | raw-content paths go to the raw host without the prefix; other paths are blocked exactly when they are listed; the rest go to the main site unchanged |
| Worker.ValidTokenStaysHome | workers.js:124-127 | a valid token never reaches an upstream |
| Worker.InvalidTokenForwarded | workers.js:79-80 | when the first token is not the secret, the query goes upstream unchanged |
| Worker.CredentialsForwarded | workers.js:169-210 | both proxy routes send upstream the forwarded headers, which carry the request's `Cookie` and `Authorization` as received |
| Worker.RawResponseKeeps | workers.js:180-186 | a raw response keeps status, body and every header but the four CORS ones, and gains CORS |
| Worker.RedirectKept | workers.js:213-231 | a redirect keeps status, body and every header but `Location` and the CORS ones, and gains CORS; its `Location` is rewritten when it is non-empty and resolves, and kept otherwise |
| Worker.RedirectToMainSite | workers.js:219-223 | a redirect to a main-site page sends the client to the same page on the worker |
| Worker.ContentHeaders | workers.js:233-236 | a non-redirect loses its CSP headers, gains CORS and keeps its other headers, unless its HTML or JavaScript body cannot be read |
| Worker.ContentBody | workers.js:238-291 | other content types pass through untouched, whether or not their body reads as text; readable HTML and JavaScript bodies are rewritten, and `Content-Length` is dropped exactly when the rewrite counts as a modification |

## Left out

- **Streaming bodies.** Request bodies are not modelled. The upstream body of a passed-through
  response is `Passthrough`, an opaque marker.
- **`statusText`.** The `statusText` copied onto raw responses is left out.
- **Header values and names.** `Headers` combines repeated headers. It matches names without
  regard to case and may add `Content-Type` for string bodies. The model keeps one value per
  lower-case name.
- **Percent-encoding and URL parsing.** The model treats these as plain text:
  - the percent-encoding that URL setters and `searchParams` serialisation apply;
  - the percent-decoding that `searchParams.get` applies;
  - the resolution of a relative `Location` against the upstream URL, which is a parameter.
- Urls.GitTokenFixSplits: the `pathname` setter behind `url.pathname +=` (workers.js:68)
  normalises what it is given. It resolves `.` and `..` segments and turns `\` into `/`. The
  model appends the moved text verbatim. So a request such as `/settings?token=<secret>/..`
  from a git client is `Blocked` in the model, while the code serves `/` from the main site.
- **Characters outside the basic multilingual plane.** A `char` is a Unicode scalar value,
  while JavaScript strings are UTF-16 code units. The searches, splits and trims of the
  handler look only for characters of one code unit, so they agree on both views. The one
  place where the difference shows, the RegExp `.` in the host pattern, models code units
  explicitly (`Rewrite.HostCharMatches`).
- **The login page.** `LOGIN_PAGE_HTML` is the opaque body `LoginPage`.
- **Uncaught exceptions.** The runtime's own answer to an uncaught throw, from `decodeURI` in
  `parseCookies` or from `formData()`, is the outcome `Threw`.
- **Request method names.** The model takes them exactly as the request carries them. The
  runtime normalises their case.
- **Regular expressions.** Only the three fixed patterns are modelled: the URL pattern, the
  title pattern and the body-tag pattern. There is no general RegExp engine. Case-insensitive
  matching folds ASCII letters only, as a non-Unicode RegExp does for these patterns.
- **Invalid responses.** A response the runtime refuses to build is not modelled. An example
  is an upstream status without a body whose stream is passed back.
