/** The request URL as the worker sees it: an origin, a path and the list of query
    parameters (`url.searchParams`), plus the `url` object that the handler edits in place. */
module Urls {
  import opened Wrappers
  import opened Text

  datatype Param = Param(name: string, value: string)

  /** `origin` is scheme and host (`url.origin`), `path` is `url.pathname`. */
  datatype Url = Url(origin: string, path: string, query: seq<Param>)

  predicate HasParam(q: seq<Param>, name: string) {
    exists i | 0 <= i < |q| :: q[i].name == name
  }

  /** `searchParams.get(name)`: the value of the first parameter with that name. */
  function GetParam(q: seq<Param>, name: string): (r: Option<string>)
    ensures r.None? <==> !HasParam(q, name)
    ensures r.Some? ==> exists i | 0 <= i < |q| :: q[i] == Param(name, r.value) && !HasParam(q[..i], name)
  {
    if q == [] then None
    else if q[0].name == name then
      assert q[..0] == [];
      Some(q[0].value)
    else
      var r := GetParam(q[1..], name);
      if r.Some? then
        var i :| 0 <= i < |q[1..]| && q[1..][i] == Param(name, r.value) && !HasParam(q[1..][..i], name);
        assert q[..i + 1] == [q[0]] + q[1..][..i];
        assert q[i + 1] == Param(name, r.value);
        r
      else
        r
  }

  /** `searchParams.delete(name)`: every parameter with that name goes, the others stay in order. */
  function DeleteParam(q: seq<Param>, name: string): (r: seq<Param>)
    ensures !HasParam(r, name)
  {
    if q == [] then []
    else if q[0].name == name then DeleteParam(q[1..], name)
    else [q[0]] + DeleteParam(q[1..], name)
  }

  /** `delete` keeps exactly the pairs of other names. */
  lemma {:induction false} DeleteParamMembers(q: seq<Param>, name: string)
    ensures forall p :: p in DeleteParam(q, name) <==> p in q && p.name != name
  {
    if q != [] {
      DeleteParamMembers(q[1..], name);
      assert q == [q[0]] + q[1..];
    }
  }

  /** `delete` works pair by pair: on a concatenation it deletes from each part, so the pairs
      that stay keep their order and their number. */
  lemma {:induction false} DeleteParamAppend(a: seq<Param>, b: seq<Param>, name: string)
    ensures DeleteParam(a + b, name) == DeleteParam(a, name) + DeleteParam(b, name)
    decreases |a|
  {
    if a == [] {
      assert a + b == b;
    } else {
      var p := a[0];
      assert a + b == [p] + (a[1..] + b);
      assert a == [p] + a[1..];
      DeleteParamCons(p, a[1..] + b, name);
      DeleteParamCons(p, a[1..], name);
      DeleteParamAppend(a[1..], b, name);
    }
  }

  /** A single pair is dropped exactly when it has the deleted name, and the rest is deleted
      from on its own. */
  lemma DeleteParamCons(p: Param, rest: seq<Param>, name: string)
    ensures DeleteParam([p] + rest, name) == (if p.name == name then [] else [p]) + DeleteParam(rest, name)
  {
    assert ([p] + rest)[0] == p && ([p] + rest)[1..] == rest;
  }

  /** `searchParams.set(name, value)`: the first parameter with that name takes the value and
      the later ones are removed; with none, the pair is appended. */
  function SetParam(q: seq<Param>, name: string, value: string): seq<Param> {
    if q == [] then [Param(name, value)]
    else if q[0].name == name then [Param(name, value)] + DeleteParam(q[1..], name)
    else [q[0]] + SetParam(q[1..], name, value)
  }

  /** After `set`, `get` reads the new value. */
  lemma {:induction false} GetAfterSet(q: seq<Param>, name: string, value: string)
    ensures GetParam(SetParam(q, name, value), name) == Some(value)
  {
    if q != [] && q[0].name != name {
      GetAfterSet(q[1..], name, value);
    }
  }

  /** `set` touches only parameters of its own name: with those removed, nothing else changed. */
  lemma {:induction false} SetKeepsOthers(q: seq<Param>, name: string, value: string)
    ensures DeleteParam(SetParam(q, name, value), name) == DeleteParam(q, name)
  {
    if q == [] {
    } else if q[0].name == name {
      DeleteTwice(q[1..], name);
    } else {
      SetKeepsOthers(q[1..], name, value);
    }
  }

  lemma {:induction false} DeleteTwice(q: seq<Param>, name: string)
    ensures DeleteParam(DeleteParam(q, name), name) == DeleteParam(q, name)
  {
    if q != [] {
      DeleteTwice(q[1..], name);
    }
  }

  /** Deleting one name leaves what `get` returns for every other name as it was. */
  lemma {:induction false} GetAfterDelete(q: seq<Param>, name: string, other: string)
    requires other != name
    ensures GetParam(DeleteParam(q, name), other) == GetParam(q, other)
  {
    if q != [] {
      GetAfterDelete(q[1..], name, other);
    }
  }

  function Serialize(q: seq<Param>): string {
    if q == [] then ""
    else if |q| == 1 then q[0].name + "=" + q[0].value
    else q[0].name + "=" + q[0].value + "&" + Serialize(q[1..])
  }

  /** `set` leaves what `get` returns for every other name as it was. */
  lemma GetAfterSetOther(q: seq<Param>, name: string, value: string, other: string)
    requires other != name
    ensures GetParam(SetParam(q, name, value), other) == GetParam(q, other)
  {
    GetAfterDelete(SetParam(q, name, value), name, other);
    SetKeepsOthers(q, name, value);
    GetAfterDelete(q, name, other);
  }

  /** `url.search`: empty when there are no parameters, otherwise `?` and the pairs. */
  function Search(q: seq<Param>): string {
    if q == [] then "" else "?" + Serialize(q)
  }

  /** `url.toString()` (the fragment never reaches the worker). */
  function Href(u: Url): string {
    u.origin + u.path + Search(u.query)
  }

  /** The fix-up for git clients that append the repository path to the token
      (`?token=pw/info/refs`): the first `token` value is cut at its first `/`, the part
      before it becomes the only `token` parameter and the rest is appended to the path. */
  function GitTokenFix(u: Url): Url {
    match GetParam(u.query, "token")
    case Some(t) =>
      if '/' in t then
        var i := IndexOf(t, '/');
        u.(query := SetParam(u.query, "token", t[..i]), path := u.path + t[i..])
      else u
    case None => u
  }

  /** A token with a `/` is split at its first `/`: the new token has no `/`, the extra path
      starts with `/`, the two together are the old value, and the path gains exactly the
      extra part. Everything but the `token` parameters is left as it was. */
  lemma GitTokenFixSplits(u: Url, t: string)
    requires GetParam(u.query, "token") == Some(t) && '/' in t
    ensures var v, i := GitTokenFix(u), IndexOf(t, '/');
      && 0 <= i && t[..i] + t[i..] == t && '/' !in t[..i] && StartsWith(t[i..], "/")
      && GetParam(v.query, "token") == Some(t[..i])
      && v.path == u.path + t[i..]
      && v.origin == u.origin
      && DeleteParam(v.query, "token") == DeleteParam(u.query, "token")
  {
    var i := IndexOf(t, '/');
    var head, tail := t[..i], t[i..];
    assert head + tail == t;
    assert tail[..1] == "/" by { assert tail[0] == t[i]; }
    assert GitTokenFix(u) == u.(query := SetParam(u.query, "token", head), path := u.path + tail);
    GetAfterSet(u.query, "token", head);
    SetKeepsOthers(u.query, "token", head);
  }

  /** A token without `/`, or no token at all, leaves the URL as it was. */
  lemma GitTokenFixKeeps(u: Url)
    requires GetParam(u.query, "token").None? || '/' !in GetParam(u.query, "token").value
    ensures GitTokenFix(u) == u
  {
  }

  /** The fix-up changes no pair but the `token` ones: with those removed, the query is the
      same pair for pair. */
  lemma GitTokenFixQuery(u: Url)
    ensures DeleteParam(GitTokenFix(u).query, "token") == DeleteParam(u.query, "token")
  {
    var t := GetParam(u.query, "token");
    if t.Some? && '/' in t.value {
      SetKeepsOthers(u.query, "token", t.value[..IndexOf(t.value, '/')]);
    }
  }

  /** The fix-up changes no parameter but `token`. */
  lemma GitTokenFixOthers(u: Url, other: string)
    requires other != "token"
    ensures GetParam(GitTokenFix(u).query, other) == GetParam(u.query, other)
  {
    var t := GetParam(u.query, "token");
    if t.Some? && '/' in t.value {
      GetAfterSetOther(u.query, "token", t.value[..IndexOf(t.value, '/')], other);
    }
  }

  /** The `url` object of the handler, which it edits in place. */
  class LiveUrl {
    const origin: string
    var path: string
    var query: seq<Param>

    function Value(): Url
      reads this
    {
      Url(origin, path, query)
    }

    /** `new URL(request.url)` */
    constructor (u: Url)
      ensures Value() == u
    {
      origin := u.origin;
      path := u.path;
      query := u.query;
    }

    /** `url.searchParams.set(name, value)` */
    method SetSearchParam(name: string, value: string)
      modifies this
      ensures Value() == old(Value()).(query := SetParam(old(query), name, value))
    {
      query := SetParam(query, name, value);
    }

    /** `url.searchParams.delete(name)` */
    method DeleteSearchParam(name: string)
      modifies this
      ensures Value() == old(Value()).(query := DeleteParam(old(query), name))
      ensures !HasParam(query, name)
    {
      query := DeleteParam(query, name);
    }

    /** `url.pathname += extra` */
    method AppendToPath(extra: string)
      modifies this
      ensures Value() == old(Value()).(path := old(path) + extra)
    {
      path := path + extra;
    }

    /** The git token fix-up, step by step as the handler performs it. */
    method FixGitToken()
      modifies this
      ensures Value() == GitTokenFix(old(Value()))
    {
      var tokenParam := GetParam(query, "token");
      if tokenParam.Some? && '/' in tokenParam.value {
        var splitIndex := IndexOf(tokenParam.value, '/');
        var realToken := tokenParam.value[..splitIndex];
        var extraPath := tokenParam.value[splitIndex..];
        SetSearchParam("token", realToken);
        AppendToPath(extraPath);
      }
    }
  }
}
