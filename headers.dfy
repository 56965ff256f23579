/** Header lists. A `Headers` object of the Fetch API matches names without regard to case;
    the model keys every header by its lower-case name and writes every name in lower case. */
module HeaderMap {
  import opened Wrappers

  type Fields = map<string, string>

  /** `headers.get(name)`: the value, or nothing when the header is absent. */
  function Get(h: Fields, name: string): Option<string> {
    if name in h then Some(h[name]) else None
  }

  /** A header value that JavaScript treats as true: present and not the empty string. */
  predicate Truthy(v: Option<string>) {
    v.Some? && v.value != ""
  }

  /** `headers.get(name) || ''` */
  function GetOrEmpty(h: Fields, name: string): (r: string)
    ensures Truthy(Get(h, name)) ==> r == h[name]
    ensures !Truthy(Get(h, name)) ==> r == ""
  {
    if name in h then h[name] else ""
  }

  /** The edge-infrastructure headers that are never forwarded upstream. */
  const EdgeHeaders: seq<string> := ["cf-connecting-ip", "cf-ipcountry", "cf-ray", "cf-visitor"]

  const CorsMethods := "GET,HEAD,POST,PUT,DELETE,OPTIONS"

  /** The names of the four headers `addCorsHeaders` sets. */
  const CorsHeaders := {"access-control-allow-origin", "access-control-allow-methods",
                        "access-control-allow-headers", "access-control-allow-credentials"}

  /** The request headers sent upstream: a copy whose `host` is the upstream host and without
      the edge headers. */
  function Forwarded(h: Fields, host: string): Fields {
    h["host" := host] - set n | n in EdgeHeaders
  }

  /** The forwarded headers equal the original ones except that `host` names the upstream and
      exactly the four edge headers are gone. */
  lemma ForwardedFields(h: Fields, host: string, name: string)
    ensures name in Forwarded(h, host) <==>
      (name == "host" || name in h) && name !in {"cf-connecting-ip", "cf-ipcountry", "cf-ray", "cf-visitor"}
    ensures name == "host" ==> Forwarded(h, host)[name] == host
    ensures name in Forwarded(h, host) && name != "host" ==> Forwarded(h, host)[name] == h[name]
  {
    assert "host" !in EdgeHeaders;
  }

  /** `addCorsHeaders`: the four CORS response headers, with the worker's origin allowed. */
  function WithCors(h: Fields, origin: string): Fields {
    h["access-control-allow-origin" := origin]
     ["access-control-allow-methods" := CorsMethods]
     ["access-control-allow-headers" := "*"]
     ["access-control-allow-credentials" := "true"]
  }

  predicate HasCors(h: Fields, origin: string) {
    && Get(h, "access-control-allow-origin") == Some(origin)
    && Get(h, "access-control-allow-methods") == Some(CorsMethods)
    && Get(h, "access-control-allow-headers") == Some("*")
    && Get(h, "access-control-allow-credentials") == Some("true")
  }

  /** After `addCorsHeaders` the CORS headers are present with the worker origin, and every
      other header is as it was. */
  lemma WithCorsFields(h: Fields, origin: string, name: string)
    ensures HasCors(WithCors(h, origin), origin)
    ensures name !in CorsHeaders ==> Get(WithCors(h, origin), name) == Get(h, name)
  {
  }

  /** The response headers without the two Content-Security-Policy headers. */
  function WithoutCsp(h: Fields): Fields {
    h - {"content-security-policy", "content-security-policy-report-only"}
  }

  /** A `Headers` object that the handler edits in place. */
  class Headers {
    var fields: Fields

    /** `new Headers(init)` */
    constructor (init: Fields)
      ensures fields == init
    {
      fields := init;
    }

    /** `headers.set(name, value)` */
    method Set(name: string, value: string)
      modifies this
      ensures fields == old(fields)[name := value]
    {
      fields := fields[name := value];
    }

    /** `headers.delete(name)` */
    method Delete(name: string)
      modifies this
      ensures fields == old(fields) - {name}
    {
      fields := fields - {name};
    }

    /** `names.forEach(n => headers.delete(n))` */
    method DeleteEach(names: seq<string>)
      modifies this
      ensures fields == old(fields) - set n | n in names
    {
      var i := 0;
      while i < |names|
        invariant 0 <= i <= |names|
        invariant fields == old(fields) - set n | n in names[..i]
      {
        Delete(names[i]);
        assert names[..i + 1] == names[..i] + [names[i]];
        i := i + 1;
      }
      assert names[..i] == names;
    }
  }

  /** `addCorsHeaders(headers, workerOrigin)` */
  method AddCorsHeaders(headers: Headers, workerOrigin: string)
    modifies headers
    ensures headers.fields == WithCors(old(headers.fields), workerOrigin)
  {
    headers.Set("access-control-allow-origin", workerOrigin);
    headers.Set("access-control-allow-methods", CorsMethods);
    headers.Set("access-control-allow-headers", "*");
    headers.Set("access-control-allow-credentials", "true");
  }

  /** The outbound headers of either upstream request: a fresh copy of the request's headers,
      `Host` overridden, then the edge headers deleted one by one. */
  method ForwardHeaders(requestHeaders: Fields, upstreamHost: string) returns (out: Headers)
    ensures fresh(out)
    ensures out.fields == Forwarded(requestHeaders, upstreamHost)
  {
    out := new Headers(requestHeaders);
    out.Set("host", upstreamHost);
    out.DeleteEach(EdgeHeaders);
  }
}
