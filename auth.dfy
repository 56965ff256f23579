/** Credential resolution: the configured secret, the git-client heuristic, HTTP Basic
    credentials, the authentication cookie and the combined rule. */
module Auth {
  import opened Wrappers
  import opened Text
  import Cookies

  const DefaultProxyPassword := "iloveyou"
  const AuthCookieName := "__gh_proxy_auth"
  /** Seven days, in seconds. */
  const AuthCookieMaxAge: nat := 60 * 60 * 24 * 7

  /** `env.PROXY_PASSWORD || DEFAULT_PROXY_PASSWORD`: an unset or empty variable falls back
      to the default, so the secret is never empty. */
  function Password(env: Option<string>): (secret: string)
    ensures secret != ""
    ensures env.Some? && env.value != "" ==> secret == env.value
    ensures env.None? || env.value == "" ==> secret == DefaultProxyPassword
  {
    if env.Some? && env.value != "" then env.value else DefaultProxyPassword
  }

  /** The max-age as the template literal prints it. */
  const AuthCookieMaxAgeText := "604800"

  /** The cookie text spells the max-age constant in decimal. */
  lemma MaxAgePrinted()
    ensures Decimal(AuthCookieMaxAge) == AuthCookieMaxAgeText
  {
  }

  /** The `Set-Cookie` value issued on a token login or a form login. */
  function AuthCookie(secret: string): string {
    AuthCookieName + "=" + secret + "; Path=/; Max-Age=" + AuthCookieMaxAgeText +
    "; Secure; HttpOnly; SameSite=Lax"
  }

  /** A client that looks like git: its user agent starts with `git/`, or the path ends in
      `.git` or names one of git's smart-HTTP services. */
  predicate IsGitClient(userAgent: string, path: string) {
    || StartsWith(userAgent, "git/")
    || EndsWith(path, ".git")
    || Contains(path, "/info/refs")
    || Contains(path, "/git-upload-pack")
  }

  /** Whatever the user agent, a path that gains a `/info/refs` suffix marks a git client. */
  lemma ServiceSuffixMakesGit(userAgent: string, path: string, extra: string)
    requires StartsWith(extra, "/info/refs")
    ensures IsGitClient(userAgent, path + extra)
  {
    var rest := extra[|"/info/refs"|..];
    assert extra == extra[..|"/info/refs"|] + rest;
    assert path + extra == path + "/info/refs" + rest;
    ContainsMiddle(path, "/info/refs", rest);
  }

  /** The password part of decoded Basic credentials: everything after the first `:`. */
  function BasicPassword(decoded: string): Option<string> {
    var separator := IndexOf(decoded, ':');
    if separator == -1 then None else Some(decoded[separator + 1..])
  }

  /** `user:password` gives back the password whatever it contains, as long as the user name
      has no `:`; so the user name never matters. */
  lemma BasicPasswordOf(user: string, password: string)
    requires ':' !in user
    ensures BasicPassword(user + ":" + password) == Some(password)
  {
    var decoded := user + ":" + password;
    assert decoded[..|user|] == user;
    assert decoded[|user|] == ':';
    assert IndexOf(decoded, ':') == |user|;
    assert decoded[|user| + 1..] == password;
  }

  /** Without a `:` there is no password at all. */
  lemma BasicPasswordNeedsColon(decoded: string)
    ensures BasicPassword(decoded).Some? <==> ':' in decoded
  {
  }

  /** Basic authentication succeeds when the `Authorization` header starts with `Basic `, the
      rest decodes (`atob`, which gives nothing where it throws) and the password after the
      first `:` is the secret. */
  predicate IsBasicAuth(authHeader: Option<string>, atob: string -> Option<string>, secret: string) {
    && authHeader.Some?
    && StartsWith(authHeader.value, "Basic ")
    && var decoded := atob(authHeader.value[6..]);
       decoded.Some? && BasicPassword(decoded.value) == Some(secret)
  }

  /** `cookies[AUTH_COOKIE_NAME] === PROXY_PASSWORD` */
  predicate IsCookieAuth(jar: Cookies.Jar, secret: string) {
    AuthCookieName in jar && jar[AuthCookieName] == secret
  }

  /** Authenticated: a valid cookie, or a valid token from a git client, or Basic credentials. */
  predicate IsAuth(cookieAuth: bool, tokenValid: bool, gitClient: bool, basicAuth: bool) {
    cookieAuth || (tokenValid && gitClient) || basicAuth
  }
}
