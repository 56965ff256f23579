/** Response rewriting: redirect `Location` values, upstream URLs inside HTML and JavaScript
    bodies, the title prefix and the warning banner. */
module Rewrite {
  import opened Wrappers
  import opened Text
  import opened Router

  const TitlePrefix := "[Proxy] "

  /** The banner injected after the first `<body…>` tag. Neither it nor the title prefix holds
      a `$`, so the replacement patterns of `String.prototype.replace` insert them literally. */
  const WarningBanner := BannerHead + MainOrigin + BannerTail
  const BannerHead :=
    "\n<div style=\"background-color: #fffbe6; color: #333; padding: 12px 20px; border-bottom: 1px solid #f5e79e; text-align: center; font-size: 14px; font-family: sans-serif; z-index: 99999; line-height: 1.5;\">\n" +
    "  <strong>Note:</strong> Non-official GitHub proxy for testing/acceleration. Do NOT login or use sensitive data. <a href=\""
  const BannerTail :=
    "\" target=\"_blank\" style=\"color: #0056b3; font-weight: bold;\">github.com</a>\n</div>\n"

  const MainOrigin := "https://" + UpstreamHost
  const RawOrigin := "https://" + RawUpstreamHost

  // ---------------------------------------------------------------------------------------
  // Redirects

  /** The rewritten `Location` of a 3xx response: every literal `https://github.com` becomes the
      worker origin, then every literal `https://raw.githubusercontent.com` becomes the worker
      origin followed by the raw-content prefix. */
  function RewriteLocation(absLoc: string, workerOrigin: string): string {
    var newLoc := ReplaceAll(absLoc, MainOrigin, workerOrigin);
    ReplaceAll(newLoc, RawOrigin, workerOrigin + RawProxyPrefix)
  }

  /** A location on neither upstream is kept as it is. */
  lemma LocationElsewhere(absLoc: string, workerOrigin: string)
    requires !Contains(absLoc, MainOrigin) && !Contains(absLoc, RawOrigin)
    ensures RewriteLocation(absLoc, workerOrigin) == absLoc
  {
    ReplaceAllAbsent(absLoc, MainOrigin, workerOrigin);
    ReplaceAllAbsent(absLoc, RawOrigin, workerOrigin + RawProxyPrefix);
  }

  /** A location on the main site moves to the worker origin, with the rest kept. */
  lemma LocationOnMainSite(rest: string, workerOrigin: string)
    requires !Contains(rest, MainOrigin) && !Contains(workerOrigin + rest, RawOrigin)
    ensures RewriteLocation(MainOrigin + rest, workerOrigin) == workerOrigin + rest
  {
    ReplaceAllLeading(MainOrigin, rest, workerOrigin);
    ReplaceAllAbsent(rest, MainOrigin, workerOrigin);
    ReplaceAllAbsent(workerOrigin + rest, RawOrigin, workerOrigin + RawProxyPrefix);
  }

  /** A location on the raw-content host moves under the worker's raw-content prefix. */
  lemma LocationOnRawSite(rest: string, workerOrigin: string)
    requires !Contains(RawOrigin + rest, MainOrigin) && !Contains(rest, RawOrigin)
    ensures RewriteLocation(RawOrigin + rest, workerOrigin) == workerOrigin + RawProxyPrefix + rest
  {
    ReplaceAllAbsent(RawOrigin + rest, MainOrigin, workerOrigin);
    ReplaceAllLeading(RawOrigin, rest, workerOrigin + RawProxyPrefix);
    ReplaceAllAbsent(rest, RawOrigin, workerOrigin + RawProxyPrefix);
  }

  // ---------------------------------------------------------------------------------------
  // Upstream URLs in bodies: the RegExp `https:(//|\/\/)HOST` with flag `g`, where HOST is the
  // host name inserted without escaping, so each `.` in it is the any-character atom.

  predicate IsLineTerminator(c: char) {
    c == '\n' || c == '\r' || c == '\U{2028}' || c == '\U{2029}'
  }

  /** A character that is one UTF-16 code unit: one of the basic multilingual plane. */
  predicate IsOneCodeUnit(c: char) {
    c as int < 0x1_0000
  }

  /** One character of the host as a RegExp atom: `.` matches any character but a line
      terminator, every other character matches itself. The RegExp has no `u` flag, so it
      works on UTF-16 code units: against a character outside the basic multilingual plane
      the `.` takes only its first half, and the host character after it (a letter of either
      upstream host, never the second half of a pair) fails on the second half. */
  predicate HostCharMatches(pattern: char, c: char) {
    if pattern == '.' then !IsLineTerminator(c) && IsOneCodeUnit(c) else c == pattern
  }

  predicate HostMatchesAt(s: string, i: int, host: string) {
    0 <= i && i + |host| <= |s| && forall j :: 0 <= j < |host| ==> HostCharMatches(host[j], s[i + j])
  }

  /** Which alternative of `(//|\/\/)` matched. */
  datatype Slashes = Plain | Escaped

  const PlainScheme := "https://"
  const EscapedScheme := "https:\\/\\/"

  function SchemeOf(slashes: Slashes): string {
    if slashes == Plain then PlainScheme else EscapedScheme
  }

  /** The match of the pattern at the very start of `s`, if there is one. The two alternatives
      differ in their first character, so at most one of them can match. */
  function UrlAt(s: string, host: string): (m: Option<Slashes>)
    ensures m.Some? ==> StartsWith(s, SchemeOf(m.value)) && HostMatchesAt(s, |SchemeOf(m.value)|, host)
    ensures m.None? ==> forall sl: Slashes :: !(StartsWith(s, SchemeOf(sl)) && HostMatchesAt(s, |SchemeOf(sl)|, host))
  {
    if StartsWith(s, PlainScheme) && HostMatchesAt(s, |PlainScheme|, host) then Some(Plain)
    else if StartsWith(s, EscapedScheme) && HostMatchesAt(s, |EscapedScheme|, host) then Some(Escaped)
    else None
  }

  /** `regex.test(text)`: the pattern matches somewhere. */
  predicate HasUrl(s: string, host: string) {
    exists i | 0 <= i < |s| :: UrlAt(s[i..], host).Some?
  }

  /** `generateReplacement`: for the escaped form, the first `://` of the replacement becomes
      `:\/\/`. */
  function Replacement(slashes: Slashes, replacement: string): string {
    if slashes == Escaped then ReplaceFirst(replacement, "://", ":\\/\\/") else replacement
  }

  /** `text.replace(regex, generateReplacement)`: matches are found left to right, each one
      replaced, and the search resumes after it. */
  function RewriteUrls(s: string, host: string, replacement: string): string
    decreases |s|
  {
    if s == [] then s
    else
      match UrlAt(s, host)
      case Some(sl) => Replacement(sl, replacement) + RewriteUrls(s[|SchemeOf(sl)| + |host|..], host, replacement)
      case None => [s[0]] + RewriteUrls(s[1..], host, replacement)
  }

  /** Without a match the text is unchanged. */
  lemma {:induction false} RewriteUrlsWithoutMatch(s: string, host: string, replacement: string)
    requires !HasUrl(s, host)
    ensures RewriteUrls(s, host, replacement) == s
    decreases |s|
  {
    if s != [] {
      assert UrlAt(s[0..], host).None?;
      assert s[0..] == s;
      assert !HasUrl(s[1..], host) by {
        forall i | 0 <= i < |s[1..]| ensures UrlAt(s[1..][i..], host).None? {
          assert s[1..][i..] == s[i + 1..];
        }
      }
      RewriteUrlsWithoutMatch(s[1..], host, replacement);
    }
  }

  /** Every character of a host name matches itself: `.` is no line terminator. */
  lemma HostMatchesItself(prefix: string, host: string, rest: string)
    ensures HostMatchesAt(prefix + host + rest, |prefix|, host)
  {
    var s := prefix + host + rest;
    forall j | 0 <= j < |host| ensures HostCharMatches(host[j], s[|prefix| + j]) {
      assert s[|prefix| + j] == host[j];
    }
  }

  /** An upstream URL of the usual form is replaced by the replacement origin. */
  lemma RewritesPlainUrl(host: string, rest: string, replacement: string)
    ensures RewriteUrls(PlainScheme + host + rest, host, replacement) ==
      replacement + RewriteUrls(rest, host, replacement)
  {
    var s := PlainScheme + host + rest;
    assert s[..|PlainScheme|] == PlainScheme;
    HostMatchesItself(PlainScheme, host, rest);
    assert UrlAt(s, host) == Some(Plain);
    assert s[|PlainScheme| + |host|..] == rest;
  }

  /** An upstream URL in its JSON-escaped form is replaced by the escaped replacement. */
  lemma RewritesEscapedUrl(host: string, rest: string, replacement: string)
    ensures RewriteUrls(EscapedScheme + host + rest, host, replacement) ==
      Replacement(Escaped, replacement) + RewriteUrls(rest, host, replacement)
  {
    var s := EscapedScheme + host + rest;
    assert s[..|EscapedScheme|] == EscapedScheme;
    assert !StartsWith(s, PlainScheme) by {
      assert s[6] == '\\';
    }
    HostMatchesItself(EscapedScheme, host, rest);
    assert UrlAt(s, host) == Some(Escaped);
    assert s[|EscapedScheme| + |host|..] == rest;
  }

  /** For an `https` origin, the escaped replacement is the same origin written `https:\/\/`. */
  lemma EscapedOrigin(authority: string)
    ensures Replacement(Escaped, PlainScheme + authority) == EscapedScheme + authority
  {
    var s := PlainScheme + authority;
    assert !OccursAt(s, "://", 0) by { assert s[0..3][0] == s[0] == 'h'; }
    assert !OccursAt(s, "://", 1) by { assert s[1..4][0] == s[1] == 't'; }
    assert !OccursAt(s, "://", 2) by { assert s[2..5][0] == s[2] == 't'; }
    assert !OccursAt(s, "://", 3) by { assert s[3..6][0] == s[3] == 'p'; }
    assert !OccursAt(s, "://", 4) by { assert s[4..7][0] == s[4] == 's'; }
    assert OccursAt(s, "://", 5) by { assert s[5..8] == "://"; }
    assert Find(s, "://", 0) == Some(5) by {
      assert Find(s, "://", 5) == Some(5);
      assert Find(s, "://", 4) == Some(5);
      assert Find(s, "://", 3) == Some(5);
      assert Find(s, "://", 2) == Some(5);
      assert Find(s, "://", 1) == Some(5);
    }
    assert s[..5] == "https" && s[8..] == authority;
  }

  /** The host is inserted into the RegExp unescaped: a `.` of the host matches any other
      character of one code unit too (so `https://githubXcom` counts as a `github.com` URL). */
  lemma DotMatchesAnyCharacter(host: string, j: nat, c: char, rest: string)
    requires j < |host| && host[j] == '.' && !IsLineTerminator(c) && IsOneCodeUnit(c)
    ensures UrlAt(PlainScheme + host[..j] + [c] + host[j + 1..] + rest, host) == Some(Plain)
  {
    var s := PlainScheme + host[..j] + [c] + host[j + 1..] + rest;
    assert s[..|PlainScheme|] == PlainScheme;
    forall k | 0 <= k < |host| ensures HostCharMatches(host[k], s[|PlainScheme| + k]) {
      if k < j {
        assert s[|PlainScheme| + k] == host[k];
      } else if k > j {
        assert s[|PlainScheme| + k] == host[k];
      }
    }
  }

  /** A line terminator or a character of two code units in place of the `.` defeats the
      match there. */
  lemma DotMissesOtherCharacters(host: string, j: nat, c: char, rest: string)
    requires j < |host| && host[j] == '.' && (IsLineTerminator(c) || !IsOneCodeUnit(c))
    ensures UrlAt(PlainScheme + host[..j] + [c] + host[j + 1..] + rest, host).None?
  {
    var s := PlainScheme + host[..j] + [c] + host[j + 1..] + rest;
    assert s[|PlainScheme| + j] == c;
    assert !HostCharMatches(host[j], s[|PlainScheme| + j]);
    assert !StartsWith(s, EscapedScheme) by {
      assert s[6] == '/';
      assert EscapedScheme[6] == '\\';
    }
  }

  // ---------------------------------------------------------------------------------------
  // Title and banner

  /** `/<title>(.*?)<\/title>/is`: the first `<title>` (any case) and the first `</title>`
      after it; the positions where the two tags start. */
  function FindTitle(s: string): Option<(nat, nat)> {
    match FindIgnoringCase(s, "<title>", 0)
    case None => None
    case Some(i) =>
      match FindIgnoringCase(s, "</title>", i + 7)
      case None => None
      case Some(j) => Some((i, j))
  }

  /** The leftmost match of the title RegExp, as the RegExp defines it: the earliest opening
      tag that has a closing tag somewhere after it, and then the nearest such closing tag. */
  lemma FindTitleIsLeftmostMatch(s: string)
    ensures FindTitle(s).None? ==>
      forall i, j :: OccursAtIgnoringCase(s, "<title>", i) && i + 7 <= j ==> !OccursAtIgnoringCase(s, "</title>", j)
    ensures FindTitle(s).Some? ==>
      var (i, j) := FindTitle(s).value;
      && OccursAtIgnoringCase(s, "<title>", i) && i + 7 <= j && OccursAtIgnoringCase(s, "</title>", j)
      && (forall k :: k < i ==> !OccursAtIgnoringCase(s, "<title>", k))
      && (forall k :: i + 7 <= k < j ==> !OccursAtIgnoringCase(s, "</title>", k))
  {
    match FindIgnoringCase(s, "<title>", 0)
    case None =>
    case Some(i) =>
      forall i', j | OccursAtIgnoringCase(s, "<title>", i') && i' + 7 <= j
        ensures FindIgnoringCase(s, "</title>", i + 7).None? ==> !OccursAtIgnoringCase(s, "</title>", j)
      {
        assert i <= i';
      }
  }

  /** `text.replace(titleRegex, '<title>' + TITLE_PREFIX + '$1</title>')`: the whole match is
      replaced, so the two tags come out in lower case. */
  function InjectTitle(s: string): string {
    match FindTitle(s)
    case None => s
    case Some((i, j)) => s[..i] + "<title>" + TitlePrefix + s[i + 7..j] + "</title>" + s[j + 8..]
  }

  lemma LowerCaseTag(s: string, tag: string, i: nat)
    requires i + |tag| <= |s| && s[i..i + |tag|] == tag
    requires forall c :: c in tag ==> LowerChar(c) == c
    ensures OccursAtIgnoringCase(s, tag, i)
  {
    forall j | 0 <= j < |tag| ensures LowerChar(s[i + j]) == tag[j] {
      assert s[i + j] == tag[j];
      assert tag[j] in tag;
    }
  }

  /** The prefix lands inside the first title: when the first opening tag (any case) is at
      `i` and the first closing tag after it at `j`, the page is rewritten between the two
      tags and nowhere else, and the tags come out in lower case. */
  lemma TitleGetsPrefix(s: string, i: nat, j: nat)
    requires OccursAtIgnoringCase(s, "<title>", i) && i + 7 <= j && OccursAtIgnoringCase(s, "</title>", j)
    requires forall k :: 0 <= k < i ==> !OccursAtIgnoringCase(s, "<title>", k)
    requires forall k :: i + 7 <= k < j ==> !OccursAtIgnoringCase(s, "</title>", k)
    ensures j + 8 <= |s|
    ensures InjectTitle(s) == s[..i] + "<title>" + TitlePrefix + s[i + 7..j] + "</title>" + s[j + 8..]
  {
    FindIgnoringCaseIs(s, "<title>", 0, i);
    FindIgnoringCaseIs(s, "</title>", i + 7, j);
    assert FindTitle(s) == Some((i, j));
  }

  /** `/<body[^>]*>/i`: the first `<body` (any case) and the first `>` after it; the position
      just after that `>`. */
  function FindBodyTag(s: string): Option<nat> {
    match FindIgnoringCase(s, "<body", 0)
    case None => None
    case Some(i) =>
      match Find(s, ">", i + 5)
      case None => None
      case Some(j) => Some(j + 1)
  }

  /** The leftmost match of the body-tag RegExp, as the RegExp defines it. */
  lemma FindBodyTagIsLeftmostMatch(s: string)
    ensures FindBodyTag(s).None? ==>
      forall i, j :: OccursAtIgnoringCase(s, "<body", i) && i + 5 <= j ==> !OccursAt(s, ">", j)
    ensures FindBodyTag(s).Some? ==>
      exists i :: && OccursAtIgnoringCase(s, "<body", i)
        && (forall k :: k < i ==> !OccursAtIgnoringCase(s, "<body", k))
        && i + 5 < FindBodyTag(s).value <= |s| && s[FindBodyTag(s).value - 1] == '>'
        && forall k :: i + 5 <= k < FindBodyTag(s).value - 1 ==> s[k] != '>'
  {
    match FindIgnoringCase(s, "<body", 0)
    case None =>
    case Some(i) =>
      match Find(s, ">", i + 5)
      case None =>
        forall i', j | OccursAtIgnoringCase(s, "<body", i') && i' + 5 <= j
          ensures !OccursAt(s, ">", j)
        {
          assert i <= i';
        }
      case Some(j) =>
        assert FindBodyTag(s) == Some(j + 1);
        assert s[j] == '>' by { assert s[j..j + 1] == ">"; }
        forall k | i + 5 <= k < j ensures s[k] != '>' {
          assert !OccursAt(s, ">", k);
          assert s[k..k + 1] == [s[k]];
        }
        assert OccursAtIgnoringCase(s, "<body", i) && (forall k :: k < i ==> !OccursAtIgnoringCase(s, "<body", k));
  }

  /** `text.replace(bodyTag, '$&' + WARNING_BANNER_HTML)`: the banner goes right after the tag. */
  function InjectBanner(s: string, tagEnd: nat): string
    requires tagEnd <= |s|
  {
    s[..tagEnd] + WarningBanner + s[tagEnd..]
  }

  // ---------------------------------------------------------------------------------------
  // Bodies

  /** The content-type gate: the header is present and names HTML or JavaScript. */
  predicate IsRewritable(contentType: Option<string>) {
    contentType.Some? && (Contains(contentType.value, "text/html") || Contains(contentType.value, "javascript"))
  }

  datatype Rewritten = Rewritten(text: string, modified: bool)

  /** The two URL passes: main-site URLs first, then raw-content URLs; each pass runs only
      when its RegExp matches, and a match marks the text as modified. */
  function RewriteUpstreamUrls(text: string, workerOrigin: string): Rewritten {
    var mainHit := HasUrl(text, UpstreamHost);
    var afterMain := if mainHit then RewriteUrls(text, UpstreamHost, workerOrigin) else text;
    var rawHit := HasUrl(afterMain, RawUpstreamHost);
    var afterRaw := if rawHit then RewriteUrls(afterMain, RawUpstreamHost, workerOrigin + RawProxyPrefix) else afterMain;
    Rewritten(afterRaw, mainHit || rawHit)
  }

  /** The whole body rewrite: the URL passes, then for HTML the title prefix and the banner;
      `modified` records a URL match or a body tag. */
  function RewriteBody(text: string, contentType: string, workerOrigin: string): Rewritten {
    var urls := RewriteUpstreamUrls(text, workerOrigin);
    if Contains(contentType, "text/html") then
      var titled := InjectTitle(urls.text);
      match FindBodyTag(titled)
      case Some(tagEnd) => Rewritten(InjectBanner(titled, tagEnd), true)
      case None => Rewritten(titled, urls.modified)
    else
      urls
  }

  /** An unmodified body is the upstream text itself, up to the title prefix for HTML: the
      only change that does not count as a modification. */
  lemma UnmodifiedBody(text: string, contentType: string, workerOrigin: string)
    ensures var r := RewriteBody(text, contentType, workerOrigin);
      !r.modified ==> r.text == (if Contains(contentType, "text/html") then InjectTitle(text) else text)
  {
  }

  /** Any upstream URL in the text marks the body as modified. */
  lemma UrlMeansModified(text: string, contentType: string, workerOrigin: string)
    requires HasUrl(text, UpstreamHost) || HasUrl(text, RawUpstreamHost)
    ensures RewriteBody(text, contentType, workerOrigin).modified
  {
    if !HasUrl(text, UpstreamHost) {
      assert RewriteUpstreamUrls(text, workerOrigin).modified;
    }
  }

  /** Only a URL match or a body tag marks the body as modified: a page whose only change is
      the title prefix is unmodified (and keeps its `Content-Length`). */
  lemma ModifiedOnlyByMatch(text: string, contentType: string, workerOrigin: string)
    ensures var afterMain := if HasUrl(text, UpstreamHost) then RewriteUrls(text, UpstreamHost, workerOrigin) else text;
      RewriteBody(text, contentType, workerOrigin).modified ==>
        || HasUrl(text, UpstreamHost) || HasUrl(afterMain, RawUpstreamHost)
        || (Contains(contentType, "text/html") &&
            FindBodyTag(InjectTitle(RewriteUpstreamUrls(text, workerOrigin).text)).Some?)
  {
  }

  /** The banner is injected after the URL rewriting, so it reaches the client verbatim,
      its link to `https://github.com` included. */
  lemma BannerSurvives(text: string, contentType: string, workerOrigin: string)
    requires Contains(contentType, "text/html")
    requires FindBodyTag(InjectTitle(RewriteUpstreamUrls(text, workerOrigin).text)).Some?
    ensures RewriteBody(text, contentType, workerOrigin).modified
    ensures Contains(RewriteBody(text, contentType, workerOrigin).text, WarningBanner)
    ensures Contains(RewriteBody(text, contentType, workerOrigin).text, MainOrigin)
  {
    var titled := InjectTitle(RewriteUpstreamUrls(text, workerOrigin).text);
    var tagEnd := FindBodyTag(titled).value;
    assert RewriteBody(text, contentType, workerOrigin) == Rewritten(InjectBanner(titled, tagEnd), true);
    BannerInside(titled, tagEnd);
  }

  /** The injected banner, and with it the link to the main site, is part of the page. */
  lemma BannerInside(s: string, tagEnd: nat)
    requires tagEnd <= |s|
    ensures Contains(InjectBanner(s, tagEnd), WarningBanner)
    ensures Contains(InjectBanner(s, tagEnd), MainOrigin)
  {
    ContainsSpliced(s[..tagEnd], BannerHead, MainOrigin, BannerTail, s[tagEnd..]);
  }
}
