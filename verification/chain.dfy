/** A chain of builder calls, `Fetch.new(...).a(...).b(...)…`, and what the resulting state is after
    any sequence of them: host and ssl never change, path and body are those of the last call that set
    them, and each map holds its initial entries overridden by the last write to each key. */
module Chain {
  import opened Wrappers
  import opened FetchTypes
  import B = Builder

  /** One chained call on the builder. */
  datatype Call =
    | SetPath(path: string)
    | SetBody(body: Bytes)
    | AddParam(name: string, value: string)
    | AddHeader(name: string, value: string)
    | MakeFormURLEncoded

  /** A single map entry written by a call. */
  datatype Write = Write(key: string, value: string)

  function Apply(f: B.Fetch, c: Call): B.Fetch {
    match c
    case SetPath(p) => B.SetPath(f, p)
    case SetBody(b) => B.SetBody(f, b)
    case AddParam(n, v) => B.AddParam(f, n, v)
    case AddHeader(n, v) => B.AddHeader(f, n, v)
    case MakeFormURLEncoded => B.MakeFormURLEncoded(f)
  }

  /** The calls applied left to right, as a Swift chain evaluates them. */
  function Run(f: B.Fetch, calls: seq<Call>): B.Fetch
    decreases |calls|
  {
    if |calls| == 0 then f else Run(Apply(f, calls[0]), calls[1..])
  }

  /** The header entry a call writes, if any. */
  function HeaderWrite(c: Call): Option<Write> {
    match c
    case AddHeader(n, v) => Some(Write(n, v))
    case MakeFormURLEncoded => Some(Write(B.ContentType, B.FormURLEncodedType))
    case _ => None
  }

  /** The query parameter a call writes, if any. */
  function ParamWrite(c: Call): Option<Write> {
    match c
    case AddParam(n, v) => Some(Write(n, v))
    case _ => None
  }

  /** The value of the LAST write to key `k` among `calls`, read from the end of the chain. */
  function LastWrite(writes: Call -> Option<Write>, calls: seq<Call>, k: string): Option<string>
    decreases |calls|
  {
    if |calls| == 0 then None
    else
      var w := writes(calls[|calls| - 1]);
      if w.Some? && w.value.key == k then Some(w.value.value)
      else LastWrite(writes, calls[..|calls| - 1], k)
  }

  /** The path of the last `set(path:)` call, if any. */
  function LastPath(calls: seq<Call>): Option<string>
    decreases |calls|
  {
    if |calls| == 0 then None
    else if calls[|calls| - 1].SetPath? then Some(calls[|calls| - 1].path)
    else LastPath(calls[..|calls| - 1])
  }

  /** The body of the last `set(body:)` call, if any. */
  function LastBody(calls: seq<Call>): Option<Bytes>
    decreases |calls|
  {
    if |calls| == 0 then None
    else if calls[|calls| - 1].SetBody? then Some(calls[|calls| - 1].body)
    else LastBody(calls[..|calls| - 1])
  }

  /** `result` is `initial` overridden, key by key, by the last write of `calls` to that key. */
  ghost predicate Overrides(initial: map<string, string>, writes: Call -> Option<Write>,
                            calls: seq<Call>, result: map<string, string>)
  {
    && (forall k :: k in result <==> k in initial || LastWrite(writes, calls, k).Some?)
    && (forall k :: k in result && LastWrite(writes, calls, k).Some? ==>
          result[k] == LastWrite(writes, calls, k).value)
    && (forall k :: k in result && LastWrite(writes, calls, k).None? ==>
          k in initial && result[k] == initial[k])
  }

  /** Appending one call to a chain applies it to the chain's result. */
  lemma {:induction false} RunSnoc(f: B.Fetch, calls: seq<Call>, c: Call)
    ensures Run(f, calls + [c]) == Apply(Run(f, calls), c)
    decreases |calls|
  {
    if |calls| == 0 {
      assert calls + [c] == [c];
    } else {
      assert (calls + [c])[1..] == calls[1..] + [c];
      RunSnoc(Apply(f, calls[0]), calls[1..], c);
    }
  }

  /** No call changes the host or the ssl flag. */
  lemma {:induction false} RunKeepsHostAndSsl(f: B.Fetch, calls: seq<Call>)
    ensures Run(f, calls).host == f.host
    ensures Run(f, calls).ssl == f.ssl
    decreases |calls|
  {
    if |calls| > 0 {
      RunKeepsHostAndSsl(Apply(f, calls[0]), calls[1..]);
    }
  }

  /** The path and the body are those of the last call that set them, or the initial ones. */
  lemma {:induction false} RunPathAndBody(f: B.Fetch, calls: seq<Call>)
    ensures Run(f, calls).path == (if LastPath(calls).Some? then LastPath(calls).value else f.path)
    ensures Run(f, calls).body == (if LastBody(calls).Some? then LastBody(calls) else f.body)
    decreases |calls|
  {
    if |calls| > 0 {
      var pre, c := calls[..|calls| - 1], calls[|calls| - 1];
      assert calls == pre + [c];
      RunSnoc(f, pre, c);
      RunPathAndBody(f, pre);
    }
  }

  /** The effective header map: the initial headers, overridden by key by later
      `add(header:withValue:)` and `makeFormURLEncoded()` calls, the last one per key winning. */
  lemma {:induction false} RunHeaders(f: B.Fetch, calls: seq<Call>)
    ensures Overrides(f.headers, HeaderWrite, calls, Run(f, calls).headers)
    decreases |calls|
  {
    if |calls| > 0 {
      var pre, c := calls[..|calls| - 1], calls[|calls| - 1];
      assert calls == pre + [c];
      RunSnoc(f, pre, c);
      RunHeaders(f, pre);
    }
  }

  /** The effective parameter map: the initial parameters, overridden by key by later
      `add(param:withValue:)` calls, the last one per key winning. */
  lemma {:induction false} RunParams(f: B.Fetch, calls: seq<Call>)
    ensures Overrides(f.params, ParamWrite, calls, Run(f, calls).params)
    decreases |calls|
  {
    if |calls| > 0 {
      var pre, c := calls[..|calls| - 1], calls[|calls| - 1];
      assert calls == pre + [c];
      RunSnoc(f, pre, c);
      RunParams(f, pre);
    }
  }

  /** Every chained call is idempotent: repeating the last call of a chain changes nothing. */
  lemma ChainCallIdempotent(f: B.Fetch, calls: seq<Call>, c: Call)
    ensures Run(f, calls + [c, c]) == Run(f, calls + [c])
  {
    assert calls + [c, c] == (calls + [c]) + [c];
    RunSnoc(f, calls + [c], c);
    RunSnoc(f, calls, c);
  }
}
