/** The JavaScript string built-ins that workers.js relies on, over `string`. A `char` is a
    Unicode scalar value, where a JavaScript string is a sequence of UTF-16 code units, so a
    character outside the basic multilingual plane is one `char` here and two units there.
    Every search, split and trim below looks for characters of one code unit only, so it
    finds the same places on either view; the one RegExp atom that can tell them apart is
    modelled in `Rewrite.HostCharMatches`. */
module Text {
  import opened Wrappers

  /** `s.startsWith(p)` */
  predicate StartsWith(s: string, p: string) {
    |p| <= |s| && s[..|p|] == p
  }

  /** `s.endsWith(p)` */
  predicate EndsWith(s: string, p: string) {
    |p| <= |s| && s[|s| - |p|..] == p
  }

  /** `p` occurs in `s` starting at index `i`. */
  predicate OccursAt(s: string, p: string, i: int) {
    0 <= i && i + |p| <= |s| && s[i..i + |p|] == p
  }

  /** `s.includes(p)` */
  predicate Contains(s: string, p: string) {
    exists i | 0 <= i <= |s| - |p| :: OccursAt(s, p, i)
  }

  /** `p` sits inside a concatenation at the seam given by the length of the left part. */
  lemma ContainsMiddle(a: string, p: string, b: string)
    ensures Contains(a + p + b, p)
  {
    assert OccursAt(a + p + b, p, |a|) by {
      assert (a + p + b)[|a|..|a| + |p|] == p;
    }
  }

  /** A text spliced into another contains it, and every middle part of it. */
  lemma ContainsSpliced(a: string, head: string, mid: string, tail: string, b: string)
    ensures Contains(a + (head + mid + tail) + b, head + mid + tail)
    ensures Contains(a + (head + mid + tail) + b, mid)
  {
    ContainsMiddle(a, head + mid + tail, b);
    assert a + (head + mid + tail) + b == (a + head) + mid + (tail + b);
    ContainsMiddle(a + head, mid, tail + b);
  }

  /** First index at or after `from` where `p` occurs (`s.indexOf(p, from)`, -1 as None). */
  function Find(s: string, p: string, from: nat): (r: Option<nat>)
    ensures r.Some? ==> from <= r.value && OccursAt(s, p, r.value)
    ensures r.Some? ==> forall k :: from <= k < r.value ==> !OccursAt(s, p, k)
    ensures r.None? ==> forall k :: from <= k ==> !OccursAt(s, p, k)
    decreases |s| - from
  {
    if from + |p| > |s| then None
    else if OccursAt(s, p, from) then Some(from)
    else Find(s, p, from + 1)
  }

  /** Position of the first `c` in `s` (`s.indexOf(c)`), -1 when there is none. */
  function IndexOf(s: string, c: char): (r: int)
    ensures -1 <= r < |s|
    ensures r == -1 <==> c !in s
    ensures 0 <= r ==> s[r] == c && c !in s[..r]
  {
    if s == [] then -1
    else if s[0] == c then 0
    else
      var k := IndexOf(s[1..], c);
      if k == -1 then -1
      else
        assert s[..k + 1] == [s[0]] + s[1..][..k];
        k + 1
  }

  /** The first `c` of `a + b` is the first character of `b` when `a` has none. */
  lemma IndexOfAtSeam(a: string, b: string, c: char)
    requires c !in a && b != [] && b[0] == c
    ensures IndexOf(a + b, c) == |a|
  {
    var s := a + b;
    assert s[|a|] == c;
    assert s[..|a|] == a;
    assert c in s;
  }

  /** `s.split(sep)` for a one-character separator: never empty, no piece holds `sep`. */
  function Split(s: string, sep: char): (parts: seq<string>)
    ensures |parts| >= 1
    ensures forall i :: 0 <= i < |parts| ==> sep !in parts[i]
    decreases |s|
  {
    var i := IndexOf(s, sep);
    if i == -1 then [s] else [s[..i]] + Split(s[i + 1..], sep)
  }

  /** `parts.join(sep)`; the join of no parts is the empty string. */
  function Join(parts: seq<string>, sep: char): string {
    if |parts| == 0 then ""
    else if |parts| == 1 then parts[0]
    else parts[0] + [sep] + Join(parts[1..], sep)
  }

  /** Joining a first part onto at least one more puts one separator between them. */
  lemma JoinCons(p: string, rest: seq<string>, sep: char)
    requires |rest| >= 1
    ensures Join([p] + rest, sep) == p + [sep] + Join(rest, sep)
  {
    assert ([p] + rest)[0] == p;
    assert ([p] + rest)[1..] == rest;
  }

  /** A text is the part before position `i`, the character there, and the part after it. */
  lemma Rejoin(s: string, i: int)
    requires 0 <= i < |s|
    ensures s[..i] + [s[i]] + s[i + 1..] == s
  {
  }

  /** Splitting and joining again on the same separator gives back the text. */
  lemma {:induction false} JoinSplit(s: string, sep: char)
    ensures Join(Split(s, sep), sep) == s
    decreases |s|
  {
    var i := IndexOf(s, sep);
    if i != -1 {
      var rest := Split(s[i + 1..], sep);
      assert Split(s, sep) == [s[..i]] + rest;
      JoinCons(s[..i], rest, sep);
      JoinSplit(s[i + 1..], sep);
      Rejoin(s, i);
    }
  }

  /** Joining pieces that do not hold the separator and splitting again gives back the pieces. */
  lemma {:induction false} SplitJoin(parts: seq<string>, sep: char)
    requires |parts| >= 1
    requires forall i :: 0 <= i < |parts| ==> sep !in parts[i]
    ensures Split(Join(parts, sep), sep) == parts
    decreases |parts|
  {
    if |parts| > 1 {
      var head, tail := parts[0], Join(parts[1..], sep);
      assert parts == [head] + parts[1..];
      JoinCons(head, parts[1..], sep);
      var s := head + [sep] + tail;
      assert s == head + ([sep] + tail);
      IndexOfAtSeam(head, [sep] + tail, sep);
      assert s[..|head|] == head && s[|head| + 1..] == tail;
      SplitJoin(parts[1..], sep);
    }
  }

  /** The characters that `String.prototype.trim` removes: the ECMAScript WhiteSpace and
      LineTerminator code points (including the Unicode space separators). */
  predicate IsSpace(c: char) {
    c in {'\t', '\n', '\U{B}', '\U{C}', '\r', ' ', '\U{A0}', '\U{1680}',
          '\U{2000}', '\U{2001}', '\U{2002}', '\U{2003}', '\U{2004}', '\U{2005}',
          '\U{2006}', '\U{2007}', '\U{2008}', '\U{2009}', '\U{200A}',
          '\U{2028}', '\U{2029}', '\U{202F}', '\U{205F}', '\U{3000}', '\U{FEFF}'}
  }

  function TrimStart(s: string): (r: string)
    ensures |r| <= |s| && r == s[|s| - |r|..]
    ensures forall i :: 0 <= i < |s| - |r| ==> IsSpace(s[i])
    ensures r == [] || !IsSpace(r[0])
  {
    if s != [] && IsSpace(s[0]) then TrimStart(s[1..]) else s
  }

  function TrimEnd(s: string): (r: string)
    ensures |r| <= |s| && r == s[..|r|]
    ensures forall i :: |r| <= i < |s| ==> IsSpace(s[i])
    ensures r == [] || !IsSpace(r[|r| - 1])
  {
    if s != [] && IsSpace(s[|s| - 1]) then TrimEnd(s[..|s| - 1]) else s
  }

  /** `s.trim()` */
  function Trim(s: string): string {
    TrimEnd(TrimStart(s))
  }

  /** `trim` keeps the longest middle part of `s` that neither starts nor ends with a space;
      everything cut off on either side is space. */
  lemma TrimSpec(s: string)
    ensures var r := Trim(s);
      exists a, b :: (0 <= a <= b <= |s| && r == s[a..b] &&
        (forall i :: 0 <= i < a ==> IsSpace(s[i])) && (forall i :: b <= i < |s| ==> IsSpace(s[i])))
    ensures var r := Trim(s); r == [] || (!IsSpace(r[0]) && !IsSpace(r[|r| - 1]))
  {
    var t := TrimStart(s);
    TrimParts(s, t, TrimEnd(t));
  }

  /** The facts behind `TrimSpec`, for any `t` cut from the front of `s` and `r` cut from the
      back of `t` as `trimStart` and `trimEnd` cut them. */
  lemma TrimParts(s: string, t: string, r: string)
    requires |t| <= |s| && t == s[|s| - |t|..]
    requires forall i :: 0 <= i < |s| - |t| ==> IsSpace(s[i])
    requires t == [] || !IsSpace(t[0])
    requires |r| <= |t| && r == t[..|r|]
    requires forall i :: |r| <= i < |t| ==> IsSpace(t[i])
    requires r == [] || !IsSpace(r[|r| - 1])
    ensures exists a, b :: (0 <= a <= b <= |s| && r == s[a..b] &&
        (forall i :: 0 <= i < a ==> IsSpace(s[i])) && (forall i :: b <= i < |s| ==> IsSpace(s[i])))
    ensures r == [] || (!IsSpace(r[0]) && !IsSpace(r[|r| - 1]))
  {
    var a, b := |s| - |t|, |s| - |t| + |r|;
    TrimEndTail(s, t, r);
    assert r != [] ==> r[0] == t[0];
    assert r == s[a..b];
  }

  /** Space cut from the end of a suffix `t` of `s` is space at the end of `s`. */
  lemma TrimEndTail(s: string, t: string, r: string)
    requires |t| <= |s| && t == s[|s| - |t|..]
    requires |r| <= |t| && forall i :: |r| <= i < |t| ==> IsSpace(t[i])
    ensures forall i :: |s| - |t| + |r| <= i < |s| ==> IsSpace(s[i])
  {
    var a := |s| - |t|;
    forall i | a + |r| <= i < |s| ensures IsSpace(s[i]) {
      assert s[i] == t[i - a];
    }
  }

  /** `s.replaceAll(pat, rep)` for a non-empty literal `pat`: every occurrence, scanned left to
      right without overlap, is replaced. */
  function ReplaceAll(s: string, pat: string, rep: string): string
    requires pat != []
    decreases |s|
  {
    if |s| < |pat| then s
    else if s[..|pat|] == pat then rep + ReplaceAll(s[|pat|..], pat, rep)
    else [s[0]] + ReplaceAll(s[1..], pat, rep)
  }

  /** A text that does not contain the pattern comes out of `replaceAll` unchanged. */
  lemma {:induction false} ReplaceAllAbsent(s: string, pat: string, rep: string)
    requires pat != []
    requires !Contains(s, pat)
    ensures ReplaceAll(s, pat, rep) == s
    decreases |s|
  {
    if |s| >= |pat| {
      assert !OccursAt(s, pat, 0);
      assert !Contains(s[1..], pat) by {
        forall i | 0 <= i <= |s[1..]| - |pat| ensures !OccursAt(s[1..], pat, i) {
          assert !OccursAt(s, pat, i + 1);
          assert s[1..][i..i + |pat|] == s[i + 1..i + 1 + |pat|];
        }
      }
      ReplaceAllAbsent(s[1..], pat, rep);
    }
  }

  /** A text that starts with the pattern starts with the replacement afterwards. */
  lemma ReplaceAllLeading(pat: string, rest: string, rep: string)
    requires pat != []
    ensures ReplaceAll(pat + rest, pat, rep) == rep + ReplaceAll(rest, pat, rep)
  {
    assert (pat + rest)[..|pat|] == pat;
    assert (pat + rest)[|pat|..] == rest;
  }

  /** `s.replace(pat, rep)` with a literal pattern: only the first occurrence is replaced. */
  function ReplaceFirst(s: string, pat: string, rep: string): string {
    match Find(s, pat, 0)
    case None => s
    case Some(i) => s[..i] + rep + s[i + |pat|..]
  }

  /** ASCII lower-casing, the case folding that a non-Unicode `i` RegExp applies to the ASCII
      letters of a pattern. */
  function LowerChar(c: char): char {
    if 'A' <= c <= 'Z' then (c as int + 32) as char else c
  }

  /** `p` (written in lower case) occurs at `i` in `s` when letter case is ignored. */
  predicate OccursAtIgnoringCase(s: string, p: string, i: int) {
    0 <= i && i + |p| <= |s| && forall j :: 0 <= j < |p| ==> LowerChar(s[i + j]) == p[j]
  }

  /** First index at or after `from` where `p` occurs ignoring case. */
  function FindIgnoringCase(s: string, p: string, from: nat): (r: Option<nat>)
    ensures r.Some? ==> from <= r.value && OccursAtIgnoringCase(s, p, r.value)
    ensures r.Some? ==> forall k :: from <= k < r.value ==> !OccursAtIgnoringCase(s, p, k)
    ensures r.None? ==> forall k :: from <= k ==> !OccursAtIgnoringCase(s, p, k)
    decreases |s| - from
  {
    if from + |p| > |s| then None
    else if OccursAtIgnoringCase(s, p, from) then Some(from)
    else FindIgnoringCase(s, p, from + 1)
  }

  /** The first case-insensitive occurrence is determined by the occurrences: it is the one
      with no other before it. */
  lemma FindIgnoringCaseIs(s: string, p: string, from: nat, i: nat)
    requires from <= i && OccursAtIgnoringCase(s, p, i)
    requires forall k :: from <= k < i ==> !OccursAtIgnoringCase(s, p, k)
    ensures FindIgnoringCase(s, p, from) == Some(i)
  {
  }

  /** Decimal digits of a natural number, as template literals print it. */
  function Decimal(n: nat): string {
    if n < 10 then [Digit(n)] else Decimal(n / 10) + [Digit(n % 10)]
  }

  function Digit(d: nat): char
    requires d < 10
  {
    ('0' as int + d) as char
  }
}
