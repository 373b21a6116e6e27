/** The completion side of `doRequest`: the closure given to `dataTask` turns the transport's
    (data, response, error) triple into one `FetchResult`, and the handler receives either that or the
    immediate `invalidURL` result. */
module Completion {
  import opened Wrappers
  import opened FetchTypes
  import B = Builder
  import Rq = Request

  /** What the transport hands the closure. */
  datatype Reply<+R, +E> = Reply(data: Option<Bytes>, response: Option<R>, error: Option<E>)

  /** The closure's classification: data wins over an error, an error over nothing, and the response is
      passed through in every case. */
  function Classify<R, E>(reply: Reply<R, E>): (r: FetchResult<R, E>)
    ensures r.response == reply.response
    ensures r.Ok? <==> reply.data.Some?
    ensures r.Ok? ==> r.data == reply.data.value
    ensures r.Error? && r.error.CustomError? <==> reply.data.None? && reply.error.Some?
    ensures r.Error? && r.error.CustomError? ==> r.error.error == reply.error.value
    ensures r.Error? && r.error.InvalidResponse? <==> reply.data.None? && reply.error.None?
    ensures !(r.Error? && r.error.InvalidURL?)
  {
    if reply.data.Some? then Ok(reply.data.value, reply.response)
    else if reply.error.Some? then Error(CustomError(reply.error.value), reply.response)
    else Error(InvalidResponse, reply.response)
  }

  /** The result the completion handler receives for a dispatch; the reply is used only when a request
      was submitted. */
  function Outcome<U, R, E>(d: Rq.Dispatch<U>, reply: Reply<R, E>): (r: FetchResult<R, E>)
    ensures d.Rejected? ==> r == Error(InvalidURL(d.attemptedUrl), None)
    ensures d.Submitted? ==> r == Classify(reply)
    ensures d.Submitted? ==> r.response == reply.response
  {
    match d
    case Rejected(url) => Error(InvalidURL(url), None)
    case Submitted(_) => Classify(reply)
  }

  /** Over the four shapes of the triple, the classification is exactly one of three results. */
  lemma ClassifyShapes<R, E>(d: Bytes, resp: Option<R>, e: E)
    ensures Classify<R, E>(Reply(Some(d), resp, None)) == Ok(d, resp)
    ensures Classify<R, E>(Reply(Some(d), resp, Some(e))) == Ok(d, resp)
    ensures Classify<R, E>(Reply(None, resp, Some(e))) == Error(CustomError(e), resp)
    ensures Classify<R, E>(Reply(None, resp, None)) == Error(InvalidResponse, resp)
  {
  }

  /** The handler sees `invalidURL` exactly when URL assembly fails, whatever the transport would have
      replied, and then with no response; otherwise it sees the classification of the reply. */
  lemma InvalidUrlExactlyWhenAssemblyFails<U, R, E>(
    f: B.Fetch, m: HttpMethod,
    assemble: Rq.UrlComponents -> Option<U>, describe: Rq.UrlComponents -> string,
    paramOrder: seq<string>, headerOrder: seq<string>, reply: Reply<R, E>)
    requires Rq.Enumerates(paramOrder, f.params.Keys)
    requires Rq.Enumerates(headerOrder, f.headers.Keys)
    ensures var r := Outcome(Rq.DoRequest(f, m, assemble, describe, paramOrder, headerOrder), reply);
      && (r.Error? && r.error.InvalidURL? <==> assemble(Rq.Components(f, paramOrder)).None?)
      && (r.Error? && r.error.InvalidURL? ==> r.response.None?)
      && (assemble(Rq.Components(f, paramOrder)).Some? ==> r == Classify(reply))
  {
  }

  /** A new builder with only a path set: a successful assembly submits exactly the default headers and
      no body, and a reply carrying data reaches the handler as `ok` with that data and response. */
  lemma NewBuilderWithPathDispatch<U, R, E>(
    host: string, path: string, m: HttpMethod,
    assemble: Rq.UrlComponents -> Option<U>, describe: Rq.UrlComponents -> string,
    data: Bytes, resp: Option<R>)
    ensures var f := B.SetPath(B.New(host), path);
      var d := Rq.DoRequest(f, m, assemble, describe, [], ["accept-encoding", "accept"]);
      && (d.Submitted? ==> d.request.headers == B.DefaultHeaders && d.request.body.None?)
      && (d.Submitted? ==> Outcome<U, R, E>(d, Reply(Some(data), resp, None)) == Ok(data, resp))
  {
  }
}
