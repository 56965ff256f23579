/** `parseCookies`: the `Cookie` request header as a dictionary from cookie name to value. */
module Cookies {
  import opened Wrappers
  import opened Text

  type Jar = map<string, string>

  /** The name of one `;`-separated piece: the trimmed text before its first `=`. */
  function CookieName(piece: string): string {
    Trim(Split(piece, '=')[0])
  }

  /** The raw value of one piece: the pieces after the first `=` joined again with `=`. */
  function CookieRawValue(piece: string): string {
    Join(Split(piece, '=')[1..], '=')
  }

  /** Rejoining keeps every `=` inside the value: the raw value is exactly the text after the
      first `=` (untrimmed), or empty when there is no `=`; the name is the trimmed text before it. */
  lemma {:induction false} CookiePieceParts(piece: string)
    ensures var i := IndexOf(piece, '=');
      && (i == -1 ==> CookieName(piece) == Trim(piece) && CookieRawValue(piece) == "")
      && (i >= 0 ==> CookieName(piece) == Trim(piece[..i]) && CookieRawValue(piece) == piece[i + 1..])
  {
    var i := IndexOf(piece, '=');
    var parts := Split(piece, '=');
    if i >= 0 {
      var rest := Split(piece[i + 1..], '=');
      assert parts == [piece[..i]] + rest;
      assert parts[0] == piece[..i] && parts[1..] == rest;
      JoinSplit(piece[i + 1..], '=');
    } else {
      assert parts == [piece];
      assert parts[1..] == [];
    }
  }

  /** Storing into a plain JavaScript object: assigning a string to `__proto__` changes
      nothing, every other name becomes an own property. */
  function Store(jar: Jar, name: string, value: string): Jar {
    if name == "__proto__" then jar else jar[name := value]
  }

  /** The dictionary after the first pieces, in order; `decodeUri` is `decodeURI`, which gives
      nothing where the built-in throws (and the throw escapes `parseCookies`). */
  function JarOf(pieces: seq<string>, decodeUri: string -> Option<string>): Option<Jar> {
    JarBy(pieces, CookieName, CookieRawValue, decodeUri)
  }

  /** The fold behind `JarOf`, with the name and the raw value of a piece as parameters, so
      that what is proved about the order of the stores holds whatever a piece looks like. */
  function JarBy(pieces: seq<string>, nameOf: string -> string, rawOf: string -> string,
                 decodeUri: string -> Option<string>): Option<Jar>
    decreases |pieces|
  {
    if pieces == [] then Some(map[])
    else
      var last := pieces[|pieces| - 1];
      match JarBy(pieces[..|pieces| - 1], nameOf, rawOf, decodeUri)
      case None => None
      case Some(jar) =>
        match decodeUri(rawOf(last))
        case None => None
        case Some(v) => Some(Store(jar, nameOf(last), v))
  }

  /** What `parseCookies(header)` returns; an empty header gives an empty dictionary. */
  function CookieJar(header: string, decodeUri: string -> Option<string>): Option<Jar> {
    if header == "" then Some(map[]) else JarOf(Split(header, ';'), decodeUri)
  }

  /** `parseCookies`: the header is split on every `;` and each piece stored in turn. */
  method ParseCookies(header: string, decodeUri: string -> Option<string>) returns (list: Option<Jar>)
    ensures list == CookieJar(header, decodeUri)
  {
    if header == "" {
      return Some(map[]);
    }
    var pieces := Split(header, ';');
    var jar: Jar := map[];
    var i := 0;
    while i < |pieces|
      invariant 0 <= i <= |pieces|
      invariant JarOf(pieces[..i], decodeUri) == Some(jar)
    {
      var parts := Split(pieces[i], '=');
      var name := Trim(parts[0]);
      var value := decodeUri(Join(parts[1..], '='));
      JarOfExtend(pieces, decodeUri, i);
      if value.None? {
        FailureSticks(pieces, decodeUri, i + 1);
        return None;
      }
      jar := Store(jar, name, value.value);
      i := i + 1;
    }
    assert pieces[..i] == pieces;
    return Some(jar);
  }

  /** One more piece: the dictionary so far, with that piece stored if it decodes. */
  lemma JarOfExtend(pieces: seq<string>, decodeUri: string -> Option<string>, i: nat)
    requires i < |pieces|
    ensures JarOf(pieces[..i + 1], decodeUri) ==
      match JarOf(pieces[..i], decodeUri)
      case None => None
      case Some(jar) =>
        match decodeUri(CookieRawValue(pieces[i]))
        case None => None
        case Some(v) => Some(Store(jar, CookieName(pieces[i]), v))
  {
    assert pieces[..i + 1][..i] == pieces[..i];
    assert pieces[..i + 1][i] == pieces[i];
  }

  /** Once a piece fails to decode, the whole header fails: the throw ends the loop. */
  lemma {:induction false} FailureSticks(pieces: seq<string>, decodeUri: string -> Option<string>, i: nat)
    requires i <= |pieces|
    requires JarOf(pieces[..i], decodeUri).None?
    ensures JarOf(pieces, decodeUri).None?
    decreases |pieces| - i
  {
    if i < |pieces| {
      assert pieces[..i + 1][..i] == pieces[..i];
      FailureSticks(pieces, decodeUri, i + 1);
    } else {
      assert pieces[..i] == pieces;
    }
  }

  /** A later piece with the same name overwrites an earlier one: the value stored under a
      name is the decoded raw value of the last piece with that name. */
  lemma LastPieceWins(pieces: seq<string>, decodeUri: string -> Option<string>, k: nat)
    requires k < |pieces|
    requires CookieName(pieces[k]) != "__proto__"
    requires forall j :: k < j < |pieces| ==> CookieName(pieces[j]) != CookieName(pieces[k])
    requires JarOf(pieces, decodeUri).Some?
    ensures var jar, name := JarOf(pieces, decodeUri).value, CookieName(pieces[k]);
      name in jar && decodeUri(CookieRawValue(pieces[k])) == Some(jar[name])
  {
    LastStoreWins(pieces, CookieName, CookieRawValue, decodeUri, k);
  }

  lemma {:induction false} LastStoreWins(pieces: seq<string>, nameOf: string -> string, rawOf: string -> string,
                                         decodeUri: string -> Option<string>, k: nat)
    requires k < |pieces|
    requires nameOf(pieces[k]) != "__proto__"
    requires forall j :: k < j < |pieces| ==> nameOf(pieces[j]) != nameOf(pieces[k])
    requires JarBy(pieces, nameOf, rawOf, decodeUri).Some?
    ensures var jar, name := JarBy(pieces, nameOf, rawOf, decodeUri).value, nameOf(pieces[k]);
      name in jar && decodeUri(rawOf(pieces[k])) == Some(jar[name])
    decreases |pieces|
  {
    var n := |pieces|;
    var prefix := pieces[..n - 1];
    if k < n - 1 {
      assert prefix[k] == pieces[k];
      LastStoreWins(prefix, nameOf, rawOf, decodeUri, k);
    }
  }

  /** Every name in the dictionary comes from some piece of the header. */
  lemma {:induction false} NamesFromPieces(pieces: seq<string>, decodeUri: string -> Option<string>, name: string)
    requires JarOf(pieces, decodeUri).Some?
    requires name in JarOf(pieces, decodeUri).value
    ensures exists k | 0 <= k < |pieces| :: CookieName(pieces[k]) == name
    decreases |pieces|
  {
    var n := |pieces|;
    if CookieName(pieces[n - 1]) != name {
      NamesFromPieces(pieces[..n - 1], decodeUri, name);
      var k :| 0 <= k < n - 1 && CookieName(pieces[..n - 1][k]) == name;
      assert pieces[k] == pieces[..n - 1][k];
    }
  }
}
