/** The HTTP surface the adapters see. The transport itself is an oracle:
    a function from the request the adapter builds to either the response or
    the exception the client threw (a connection failure, a timeout). */
module Http {
  import opened Php

  datatype Encoding = AsJson | AsForm

  /** One outgoing request. `query` is sent as the query string and `body`
      in the given encoding; the verb is always GET or POST, because the
      adapters refuse any other before sending. */
  datatype Request = Request(
    verb: string,
    url: string,
    headers: seq<(string, Json)>,
    basicAuth: Option<(string, string)>,
    query: Json,
    body: Json,
    encoding: Encoding)

  /** A response: its status code and its body as decoded JSON (null when
      the body is empty or not JSON). */
  datatype Response = Response(status: int, json: Json)

  /** `$response->successful()`: a 2xx status. */
  predicate Successful(r: Response) { 200 <= r.status <= 299 }

  type Transport = Request -> Result<Response>

  /** The `['ok' => ..., 'status' => ..., 'json' => ...]` record the
      adapters' request helpers return. */
  datatype Reply = Reply(ok: bool, status: int, json: Json)

  /** The reply for a response that arrived. */
  function ReplyOf(r: Response): (reply: Reply)
    ensures reply.ok <==> 200 <= r.status <= 299
    ensures reply.status == r.status && reply.json == r.json
  {
    Reply(Successful(r), r.status, r.json)
  }
}
