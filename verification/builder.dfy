/** The `Fetch` builder: its state, the defaults a new builder starts from, and the chained mutators.
    Every mutator in Swift mutates `self` and returns it; here each is a pure function from the old
    state to the new one, so a chain `f.a().b()` is `B(A(f))`. */
module Builder {
  import opened Wrappers
  import opened FetchTypes

  const AcceptEncoding := "accept-encoding"
  const Accept := "accept"
  const ContentType := "Content-Type"
  const FormURLEncodedType := "application/x-www-form-urlencoded"

  /** The header map every builder starts with. */
  const DefaultHeaders: map<string, string> :=
    map[AcceptEncoding := "gzip, deflate, br", Accept := "application/json"]

  /** The builder's state (the `URLSession` is not modelled). */
  datatype Fetch = Fetch(
    host: string,
    path: string,
    ssl: bool,
    body: Option<Bytes>,
    params: map<string, string>,
    headers: map<string, string>)

  /** `m'` is `m` with the single entry `k := v` inserted or overwritten, and nothing else changed. */
  ghost predicate Upserted(m: map<string, string>, m': map<string, string>, k: string, v: string) {
    && m'.Keys == m.Keys + {k}
    && m'[k] == v
    && forall j :: j in m && j != k ==> m'[j] == m[j]
  }

  /** `Fetch.new(host:ssl:)`, with `ssl` defaulting to true. */
  function New(host: string, ssl: bool := true): (f: Fetch)
    ensures f.host == host && f.ssl == ssl
    ensures f.path == "" && f.body.None? && |f.params| == 0
    ensures f.headers.Keys == {"accept-encoding", "accept"}
    ensures f.headers["accept-encoding"] == "gzip, deflate, br"
    ensures f.headers["accept"] == "application/json"
  {
    Fetch(host, "", ssl, None, map[], DefaultHeaders)
  }

  /** `set(path:)`: replaces the path only. */
  function SetPath(f: Fetch, path: string): (g: Fetch)
    ensures g.path == path
    ensures g.host == f.host && g.ssl == f.ssl && g.body == f.body
    ensures g.params == f.params && g.headers == f.headers
  {
    f.(path := path)
  }

  /** `set(body:)`: replaces the body only. */
  function SetBody(f: Fetch, body: Bytes): (g: Fetch)
    ensures g.body == Some(body)
    ensures g.host == f.host && g.ssl == f.ssl && g.path == f.path
    ensures g.params == f.params && g.headers == f.headers
  {
    f.(body := Some(body))
  }

  /** `add(param:withValue:)`: upserts one query parameter. */
  function AddParam(f: Fetch, name: string, value: string): (g: Fetch)
    ensures Upserted(f.params, g.params, name, value)
    ensures g.host == f.host && g.ssl == f.ssl && g.path == f.path
    ensures g.body == f.body && g.headers == f.headers
  {
    f.(params := f.params[name := value])
  }

  /** `add(header:withValue:)`: upserts one header; the key is used exactly as given. */
  function AddHeader(f: Fetch, name: string, value: string): (g: Fetch)
    ensures Upserted(f.headers, g.headers, name, value)
    ensures g.host == f.host && g.ssl == f.ssl && g.path == f.path
    ensures g.body == f.body && g.params == f.params
  {
    f.(headers := f.headers[name := value])
  }

  /** `makeFormURLEncoded()`: upserts the form content type header. */
  function MakeFormURLEncoded(f: Fetch): (g: Fetch)
    ensures Upserted(f.headers, g.headers, "Content-Type", "application/x-www-form-urlencoded")
    ensures g.host == f.host && g.ssl == f.ssl && g.path == f.path
    ensures g.body == f.body && g.params == f.params
  {
    f.(headers := f.headers[ContentType := FormURLEncodedType])
  }

  /** Two `set(path:)` calls: the second one wins. */
  lemma SetPathLastWins(f: Fetch, p1: string, p2: string)
    ensures SetPath(SetPath(f, p1), p2) == SetPath(f, p2)
  {
  }

  /** Two `set(body:)` calls: the second one wins. */
  lemma SetBodyLastWins(f: Fetch, b1: Bytes, b2: Bytes)
    ensures SetBody(SetBody(f, b1), b2) == SetBody(f, b2)
  {
  }

  /** Adding the same parameter twice is the same as adding it once; with different values, the later one wins. */
  lemma AddParamIdempotent(f: Fetch, name: string, v1: string, v2: string)
    ensures AddParam(AddParam(f, name, v1), name, v2) == AddParam(f, name, v2)
    ensures AddParam(AddParam(f, name, v1), name, v1) == AddParam(f, name, v1)
  {
  }

  /** Adding the same header twice is the same as adding it once; with different values, the later one wins. */
  lemma AddHeaderIdempotent(f: Fetch, name: string, v1: string, v2: string)
    ensures AddHeader(AddHeader(f, name, v1), name, v2) == AddHeader(f, name, v2)
    ensures AddHeader(AddHeader(f, name, v1), name, v1) == AddHeader(f, name, v1)
  {
  }

  /** Header keys are case-sensitive: adding "Accept" to a new builder keeps the default "accept"
      and gives a third header. */
  lemma HeaderKeysCaseSensitive(host: string, ssl: bool, v: string)
    ensures var g := AddHeader(New(host, ssl), "Accept", v);
      && g.headers["accept"] == "application/json"
      && g.headers["Accept"] == v
      && |g.headers| == 3
  {
  }

  /** `makeFormURLEncoded()` twice is the same as once. */
  lemma MakeFormURLEncodedIdempotent(f: Fetch)
    ensures MakeFormURLEncoded(MakeFormURLEncoded(f)) == MakeFormURLEncoded(f)
  {
  }

  /** `makeFormURLEncoded()` followed by `add(header: "Content-Type", …)`: the explicit header wins;
      in the other order the form type wins. Nothing but that key differs between the two orders. */
  lemma ContentTypeOrderDecides(f: Fetch, v: string)
    ensures AddHeader(MakeFormURLEncoded(f), "Content-Type", v).headers["Content-Type"] == v
    ensures MakeFormURLEncoded(AddHeader(f, "Content-Type", v)).headers["Content-Type"]
         == "application/x-www-form-urlencoded"
    ensures AddHeader(MakeFormURLEncoded(f), "Content-Type", v) == AddHeader(f, "Content-Type", v)
    ensures MakeFormURLEncoded(AddHeader(f, "Content-Type", v)) == MakeFormURLEncoded(f)
  {
  }
}
