# JSONFetch — a Dafny model of the `Fetch` request builder

JSONFetch is a small Swift library. It has one class, `Fetch`, which builds an HTTP request in a fluent
chain: `Fetch.new(host:ssl:)`, then `set(path:)`, `set(body:)`, `add(param:withValue:)`,
`add(header:withValue:)` and `makeFormURLEncoded()`, and finally `fetch(with:completionHandler:)`.
That last call assembles a URL, builds a `URLRequest`, hands it to a `URLSession`, and passes the
outcome to the completion handler as a `FetchResult`: `ok(data, response)` or `error(FetchError, response)`.

The model covers the pure logic around that plumbing:

- `wrappers.dfy` (`Wrappers`): the `Option` type that stands for Swift optionals.
- `fetch_types.dfy` (`FetchTypes`): `FetchHttpMethod`, `FetchError` and `FetchResult`.
  - The transport's `Error` becomes the type parameter `E`.
  - `URLResponse` becomes the type parameter `R`.
  - `Data` becomes a byte sequence.
- `builder.dfy` (`Builder`): the builder state as an immutable record, with one pure function per chained call.
  - Each function states its frame: which field changes and that nothing else does.
  - Its lemmas cover last-write-wins, idempotence, case-sensitive header keys, and how
    `makeFormURLEncoded()` and an explicit `Content-Type` header interact.
- `chain.dfy` (`Chain`): arbitrary chains of calls.
  - The state after any chain is characterised independently of the step-by-step fold: host and ssl never
    change; path and body come from the last call that set them; each map is its initial contents
    overridden key by key by the last write.
  - Every call is idempotent at the end of any chain.
- `request.dfy` (`Request`): the derivation in `doRequest`.
  - The scheme comes from `ssl`, and the wire method is "GET" only for `.GET`, "POST" otherwise.
  - Query items come from the parameters. The header loop copies the builder's headers.
  - The dispatch decision: an immediate `invalidURL` result with no response when URL assembly fails,
    otherwise a request descriptor.
- `completion.dfy` (`Completion`): the classification of the transport's `(data, response, error)`
  triple (data wins, then error, otherwise `invalidResponse`, response always passed through), and the
  result the handler finally receives.

Three foreign pieces enter as parameters:

- `URLComponents.url`, which may fail, is the function `assemble: UrlComponents -> Option<U>`.
- The `"\(url)"` description carried by `invalidURL` is `describe: UrlComponents -> string`.
- Swift dictionaries iterate in an unspecified order, so `params.map` and `headers.forEach` take that
  order as an explicit sequence. The sequence must list every key exactly once (`Request.Enumerates`).
  The model proves that the query-item set and the copied headers do not depend on the order.

The code sends every non-GET method as "POST", so `.PUT` and `.DELETE` are never sent with their own
verbs. The model keeps that behaviour as written (`Request.WireMethod`). It also proves exactly where
the wire method differs from the enum's raw value (`Request.WireMethodMatchesRawValueOnlyForGetAndPost`).

Two further behaviours of the code that the model keeps:

- The completion closure also handles the fourth shape of the triple, data and an error both present.
  Data wins there too.
- Whether an empty host makes URL assembly fail is up to `URLComponents`, which is not modelled.
  The model states only what happens in each of the two cases.

## Model

| member | source | states |
|---|---|---|
| Builder.New | Sources/JSONFetch/JSONFetch.swift:26-47 | a new builder has the given host and ssl (default true), empty path, no body, no params, and exactly the two default headers `accept-encoding: gzip, deflate, br` and `accept: application/json` |
| Builder.SetPath | Sources/JSONFetch/JSONFetch.swift:49-52 | `set(path:)` gives the new path; host, ssl, body, params and headers are unchanged |
| Builder.SetBody | Sources/JSONFetch/JSONFetch.swift:59-62 | `set(body:)` makes the body present with the given bytes; every other field is unchanged |
| Builder.AddParam | Sources/JSONFetch/JSONFetch.swift:64-67 | `add(param:withValue:)` upserts one parameter: the key set grows by that key only, the key maps to the value, other keys keep their values; headers and all other fields unchanged |
| Builder.AddHeader | Sources/JSONFetch/JSONFetch.swift:69-72 | `add(header:withValue:)` upserts one header in the same sense; params and all other fields unchanged |
| Builder.MakeFormURLEncoded | Sources/JSONFetch/JSONFetch.swift:54-56 | `makeFormURLEncoded()` upserts `Content-Type: application/x-www-form-urlencoded` and changes nothing else |
| Builder.SetPathLastWins | Sources/JSONFetch/JSONFetch.swift:49-52 | of two `set(path:)` calls only the second has any effect |
| Builder.SetBodyLastWins | Sources/JSONFetch/JSONFetch.swift:59-62 | of two `set(body:)` calls only the second has any effect |
| Builder.AddParamIdempotent | Sources/JSONFetch/JSONFetch.swift:64-67 | re-adding a parameter overrides the earlier value; adding the same pair twice equals adding it once |
| Builder.AddHeaderIdempotent | Sources/JSONFetch/JSONFetch.swift:69-72 | re-adding a header overrides the earlier value; adding the same pair twice equals adding it once |
| Builder.HeaderKeysCaseSensitive | Sources/JSONFetch/JSONFetch.swift:31-72 | adding `Accept` to a new builder leaves the default `accept` in place and yields three headers |
| Builder.MakeFormURLEncodedIdempotent | Sources/JSONFetch/JSONFetch.swift:54-56 | calling `makeFormURLEncoded()` twice equals calling it once |
| Builder.ContentTypeOrderDecides | Sources/JSONFetch/JSONFetch.swift:54-72 | the later of `makeFormURLEncoded()` and `add(header: "Content-Type", …)` decides the content type, and the earlier one leaves no trace |
| Chain.RunKeepsHostAndSsl | Sources/JSONFetch/JSONFetch.swift:41-72 | no chain of calls after `new` changes the host or the ssl flag |
| Chain.RunPathAndBody | Sources/JSONFetch/JSONFetch.swift:49-62 | after any chain, path and body are those of the last `set(path:)` / `set(body:)` call, or the initial ones if none |
| Chain.RunHeaders | Sources/JSONFetch/JSONFetch.swift:31-72 | after any chain, the headers are the initial headers overridden key by key by the last `add(header:)` or `makeFormURLEncoded()` writing that key |
| Chain.RunParams | Sources/JSONFetch/JSONFetch.swift:64-67 | after any chain, the params are the initial params overridden key by key by the last `add(param:)` writing that key |
| Chain.ChainCallIdempotent | Sources/JSONFetch/JSONFetch.swift:49-72 | repeating the last call of any chain leaves the state unchanged |
| FetchTypes.RawValue | Sources/JSONFetch/JSONFetch.swift:4-9 | each method's raw value is its own verb: "GET", "POST", "PUT", "DELETE" exactly for GET, POST, PUT, DELETE, so no two cases share one |
| Request.Scheme | Sources/JSONFetch/JSONFetch.swift:85 | the scheme is "https" exactly when ssl is set, "http" exactly when it is not |
| Request.WireMethod | Sources/JSONFetch/JSONFetch.swift:109 | the wire method is "GET" exactly for `.GET` and "POST" for every other method |
| Request.WireMethodMatchesRawValueOnlyForGetAndPost | Sources/JSONFetch/JSONFetch.swift:109 | the wire method equals the enum's raw value exactly for GET and POST; PUT and DELETE both go out as "POST" |
| Request.QueryItems | Sources/JSONFetch/JSONFetch.swift:88 | mapping the params in a given key order gives one item per visited key, carrying that key's value, and no other items |
| Request.QueryItemsAreParamEntries | Sources/JSONFetch/JSONFetch.swift:88 | for any enumeration of the keys, the items are exactly the parameter entries, each name once |
| Request.Components | Sources/JSONFetch/JSONFetch.swift:82-88 | the URL components carry the builder's host and path, the ssl-chosen scheme and exactly the parameter entries as query items |
| Request.AddValues | Sources/JSONFetch/JSONFetch.swift:104-106 | the header loop stores every visited header with the builder's value and keeps headers it did not visit |
| Request.AddValuesCopiesHeaders | Sources/JSONFetch/JSONFetch.swift:104-106 | visiting every header key once, in any order, from an empty request gives exactly the builder's header map |
| Request.DoRequest | Sources/JSONFetch/JSONFetch.swift:80-109 | the request is rejected exactly when URL assembly fails, carrying the description of the attempted components and submitting nothing; otherwise the descriptor carries the assembled URL, the body, every header and the GET/POST wire method |
| Completion.Classify | Sources/JSONFetch/JSONFetch.swift:112-126 | data present gives `ok` with that data even when an error is present; otherwise an error gives `customError`; otherwise `invalidResponse`; never `invalidURL`; the response always passes through |
| Completion.Outcome | Sources/JSONFetch/JSONFetch.swift:91-126 | a rejected dispatch delivers `invalidURL` with the attempted URL's description and no response; a submitted one delivers the classification of the transport's reply, keeping its response |
| Completion.ClassifyShapes | Sources/JSONFetch/JSONFetch.swift:114-125 | the four shapes of the triple give `ok`, `ok`, `customError` and `invalidResponse` respectively |
| Completion.InvalidUrlExactlyWhenAssemblyFails | Sources/JSONFetch/JSONFetch.swift:91-126 | whatever the transport replies, the handler sees `invalidURL` exactly when URL assembly fails, then with no response; otherwise it sees the classification of the reply |
| Completion.NewBuilderWithPathDispatch | Sources/JSONFetch/JSONFetch.swift:26-126 | a new builder with a path submits exactly the default headers and no body, and a reply with data reaches the handler as `ok` |

## Left out

- The `URLSession`: the builder's `session` field, `dataTask(with:)`, `task.resume()` and the asynchronous,
  escaping completion handler (Sources/JSONFetch/JSONFetch.swift:25, 37-39, 112-127). They are network I/O
  on a foreign client. Only the classification the closure performs is modelled.
- `fetch(with:completionHandler:)` (Sources/JSONFetch/JSONFetch.swift:75-77) only forwards to `doRequest`,
  so `Request.DoRequest` stands for both.
- The internals of `URLComponents` and `URLQueryItem`: percent-encoding, host and path validity, and the
  text of `"\(url)"`. These are foreign library rules, abstracted as the parameters `assemble` and `describe`.
- The order of the query items. It follows `Dictionary` iteration order, which Swift leaves unspecified, so
  it is a parameter. Only order-independent facts are stated.
- `URLRequest.addValue` merging. Foundation matches header names case-insensitively and appends values
  for repeated names. The model treats each `addValue` as storing one entry under the exact key, so
  builder headers that differ only in case (`accept` and `Accept`) are not merged in the descriptor.
- `Fetch` is a `final class` whose mutators change `self` and return it (Sources/JSONFetch/JSONFetch.swift:23, 49-72).
  The model treats it as a value, with each mutator returning the new state. `Chain.Run` covers any
  sequence of calls on one instance, so nothing observable is lost.
- Builder.AddParam, Builder.AddHeader and Request.Components compare map keys as Dafny strings, character
  by character. Swift compares `String` keys by Unicode canonical equivalence, and updating a dictionary
  keeps the key it already holds. So keys that differ only in normalisation (`"caf\u{E9}"` and
  `"cafe\u{301}"`) are one entry and one query item in Swift but two in the model. The model is exact
  when all keys share one normalisation form, as ASCII header names and the default headers do.
- The test target (Tests/JSONFetchTests/JSONFetchTests.swift) needs a live network. It also calls a
  `contentType` method that the library does not define. Package.swift is a build manifest only.
