/** What `doRequest` derives from the builder before anything reaches the network: the URL
    components, the scheme, the wire method, and the request descriptor (or, when the URL cannot be
    assembled, the immediate `invalidURL` result). URL assembly (`URLComponents.url`) and its
    description string are foreign and enter as the function parameters `assemble` and `describe`;
    `U` stands for the assembled `URL`. The iteration order of a Swift dictionary is unspecified,
    so every iteration over `params` or `headers` takes the order as a parameter: any enumeration
    of the keys. */
module Request {
  import opened Wrappers
  import opened FetchTypes
  import B = Builder

  /** `URLQueryItem`. */
  datatype QueryItem = QueryItem(name: string, value: string)

  /** The `URLComponents` value that `doRequest` fills in. */
  datatype UrlComponents = UrlComponents(scheme: string, host: string, path: string, queryItems: seq<QueryItem>)

  /** The `URLRequest` handed to the session. */
  datatype Descriptor<+U> = Descriptor(url: U, httpMethod: string, headers: map<string, string>, body: Option<Bytes>)

  /** What `doRequest` does: completes at once with `invalidURL` for the attempted URL's description and
      submits nothing, or submits one descriptor. */
  datatype Dispatch<+U> =
    | Rejected(attemptedUrl: string)
    | Submitted(request: Descriptor<U>)

  /** `order` lists every key of `keys` exactly once. */
  ghost predicate Enumerates(order: seq<string>, keys: set<string>) {
    && (forall i, j :: 0 <= i < j < |order| ==> order[i] != order[j])
    && (forall i :: 0 <= i < |order| ==> order[i] in keys)
    && (forall k :: k in keys ==> k in order)
  }

  /** The URL scheme chosen by the ssl flag. */
  function Scheme(ssl: bool): (s: string)
    ensures s == "https" <==> ssl
    ensures s == "http" <==> !ssl
  {
    if ssl then "https" else "http"
  }

  /** The wire method: only `.GET` is sent as "GET"; every other case is sent as "POST". */
  function WireMethod(m: HttpMethod): (s: string)
    ensures s == "GET" <==> m == GET
    ensures s == "POST" <==> m != GET
  {
    if m == GET then "GET" else "POST"
  }

  /** The wire method agrees with the enum's own raw value exactly for GET and POST:
      PUT and DELETE are declared but both go out as "POST". */
  lemma WireMethodMatchesRawValueOnlyForGetAndPost(m: HttpMethod)
    ensures WireMethod(m) == RawValue(m) <==> (m == GET || m == POST)
    ensures m == PUT || m == DELETE ==> WireMethod(m) == "POST"
  {
  }

  /** `params.map(URLQueryItem.init)`, visiting the keys in `order`: one item per key, carrying that
      key's value, in the visiting order. */
  function QueryItems(params: map<string, string>, order: seq<string>): (items: seq<QueryItem>)
    requires forall i :: 0 <= i < |order| ==> order[i] in params
    ensures |items| == |order|
    ensures forall q :: q in items <==> q.name in order && q.name in params && params[q.name] == q.value
    ensures forall i :: 0 <= i < |items| ==> items[i].name == order[i]
    decreases |order|
  {
    if |order| == 0 then []
    else [QueryItem(order[0], params[order[0]])] + QueryItems(params, order[1..])
  }

  /** Whatever the iteration order, the query items are exactly the parameter entries, each once. */
  lemma QueryItemsAreParamEntries(params: map<string, string>, order: seq<string>)
    requires Enumerates(order, params.Keys)
    ensures forall q :: q in QueryItems(params, order) <==> q.name in params && params[q.name] == q.value
    ensures forall i, j :: 0 <= i < j < |QueryItems(params, order)| ==>
              QueryItems(params, order)[i].name != QueryItems(params, order)[j].name
  {
  }

  /** The components `doRequest` sets: host, path, the scheme from ssl, and the query items. */
  function Components(f: B.Fetch, paramOrder: seq<string>): (c: UrlComponents)
    requires Enumerates(paramOrder, f.params.Keys)
    ensures c.host == f.host && c.path == f.path
    ensures c.scheme == (if f.ssl then "https" else "http")
    ensures forall q :: q in c.queryItems <==> q.name in f.params && f.params[q.name] == q.value
    ensures |c.queryItems| == |paramOrder|
  {
    QueryItemsAreParamEntries(f.params, paramOrder);
    UrlComponents(Scheme(f.ssl), f.host, f.path, QueryItems(f.params, paramOrder))
  }

  /** `headers.forEach { addValue($1, forHTTPHeaderField: $0) }` on a request whose headers are
      `acc`, visiting the keys in `order`. Each visit stores one entry. */
  function AddValues(acc: map<string, string>, headers: map<string, string>, order: seq<string>): (r: map<string, string>)
    requires forall i :: 0 <= i < |order| ==> order[i] in headers
    ensures forall k :: k in r <==> k in acc || k in order
    ensures forall k :: k in order ==> r[k] == headers[k]
    ensures forall k :: k in acc && k !in order ==> r[k] == acc[k]
    decreases |order|
  {
    if |order| == 0 then acc
    else AddValues(acc[order[0] := headers[order[0]]], headers, order[1..])
  }

  /** Starting from a request with no headers, visiting every header key once copies the builder's map,
      whatever the order. */
  lemma AddValuesCopiesHeaders(headers: map<string, string>, order: seq<string>)
    requires Enumerates(order, headers.Keys)
    ensures AddValues(map[], headers, order) == headers
  {
  }

  /** `doRequest` up to the submission of the task. */
  function DoRequest<U>(f: B.Fetch, m: HttpMethod,
                              assemble: UrlComponents -> Option<U>, describe: UrlComponents -> string,
                              paramOrder: seq<string>, headerOrder: seq<string>): (d: Dispatch<U>)
    requires Enumerates(paramOrder, f.params.Keys)
    requires Enumerates(headerOrder, f.headers.Keys)
    ensures d.Rejected? <==> assemble(Components(f, paramOrder)).None?
    ensures d.Rejected? ==> d.attemptedUrl == describe(Components(f, paramOrder))
    ensures d.Submitted? ==>
      && d.request.url == assemble(Components(f, paramOrder)).value
      && d.request.body == f.body
      && d.request.headers == f.headers
      && (d.request.httpMethod == "GET" <==> m == GET)
      && (d.request.httpMethod == "POST" <==> m != GET)
  {
    var c := Components(f, paramOrder);
    match assemble(c)
    case None => Rejected(describe(c))
    case Some(endpoint) =>
      AddValuesCopiesHeaders(f.headers, headerOrder);
      Submitted(Descriptor(endpoint, WireMethod(m), AddValues(map[], f.headers, headerOrder), f.body))
  }
}
