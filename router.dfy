/** Routing of an authenticated request: raw content, a blocked path, or the main site. */
module Router {
  import opened Text

  const UpstreamHost := "github.com"
  const RawUpstreamHost := "raw.githubusercontent.com"
  const RawProxyPrefix := "/raw-content"

  const BlockedPaths: seq<string> := [
    "/login", "/session", "/sessions", "/join", "/signup",
    "/password_reset", "/settings", "/account", "/new"
  ]

  /** The raw-content route: the path starts with the prefix followed by `/`. */
  predicate IsRawPath(path: string) {
    StartsWith(path, RawProxyPrefix + "/")
  }

  /** The path on the raw-content host: the prefix cut off, so it still starts with `/`. */
  function RawUpstreamPath(path: string): (rawPath: string)
    requires IsRawPath(path)
    ensures StartsWith(rawPath, "/")
    ensures RawProxyPrefix + rawPath == path
  {
    assert path[..13] == RawProxyPrefix + "/";
    assert path[12] == '/';
    path[|RawProxyPrefix|..]
  }

  /** `BLOCKED_PATHS.some(p => pathname === p || pathname.startsWith(p + '/'))` */
  predicate BlockedByList(path: string) {
    exists p | p in BlockedPaths :: path == p || StartsWith(path, p + "/")
  }

  /** The block rule, including the extra `/settings/` check. */
  predicate IsBlocked(path: string) {
    BlockedByList(path) || StartsWith(path, "/settings/")
  }

  /** The extra `/settings/` rule never changes the outcome: `/settings` is listed already. */
  lemma SettingsRuleRedundant(path: string)
    ensures IsBlocked(path) <==> BlockedByList(path)
  {
    if StartsWith(path, "/settings/") {
      assert "/settings" in BlockedPaths;
      assert "/settings" + "/" == "/settings/";
    }
  }

  /** A path is blocked exactly when it is a listed entry or lies under one: a listed entry
      followed directly by anything else than `/` is not blocked by that entry. */
  lemma BlockedExactly(path: string)
    ensures IsBlocked(path) <==>
      exists i | 0 <= i < |BlockedPaths| ::
        || path == BlockedPaths[i]
        || (StartsWith(path, BlockedPaths[i]) && |path| > |BlockedPaths[i]| && path[|BlockedPaths[i]|] == '/')
  {
    SettingsRuleRedundant(path);
    forall i | 0 <= i < |BlockedPaths|
      ensures StartsWith(path, BlockedPaths[i] + "/") <==>
        (StartsWith(path, BlockedPaths[i]) && |path| > |BlockedPaths[i]| && path[|BlockedPaths[i]|] == '/')
    {
      var p := BlockedPaths[i];
      if StartsWith(path, p) && |path| > |p| && path[|p|] == '/' {
        assert path[..|p| + 1] == path[..|p|] + [path[|p|]];
      }
      if StartsWith(path, p + "/") {
        assert path[..|p|] == (p + "/")[..|p|] == p;
        assert path[|p|] == (p + "/")[|p|];
      }
    }
  }
}
