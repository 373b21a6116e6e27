/** The public enumerations of JSONFetch: the HTTP method, the error kinds and the two-way result. */
module FetchTypes {
  import opened Wrappers

  /** `Data`: an opaque byte buffer. */
  type Bytes = seq<bv8>

  /** `FetchHttpMethod`, a String-backed enum. */
  datatype HttpMethod = GET | POST | PUT | DELETE

  /** The enum's raw value (`FetchHttpMethod.rawValue`): each case is named by its own HTTP verb. */
  function RawValue(m: HttpMethod): (r: string)
    ensures r == "GET" <==> m == GET
    ensures r == "POST" <==> m == POST
    ensures r == "PUT" <==> m == PUT
    ensures r == "DELETE" <==> m == DELETE
  {
    match m
    case GET => "GET"
    case POST => "POST"
    case PUT => "PUT"
    case DELETE => "DELETE"
  }

  /** `FetchError`; `E` stands for the transport's opaque `Error` value. */
  datatype FetchError<+E> =
    | InvalidURL(url: string)
    | InvalidResponse
    | CustomError(error: E)

  /** `FetchResult`; `R` stands for the opaque `URLResponse`. Both cases carry the optional response. */
  datatype FetchResult<+R, +E> =
    | Error(error: FetchError<E>, response: Option<R>)
    | Ok(data: Bytes, response: Option<R>)
}
