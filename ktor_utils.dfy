/**
 * KtorUtils: `postRequest` and `getRequest`, the choke point through which
 * the wrapped endpoints reach the network.  Each sends one request through
 * the client and turns the outcome into a `Response`, catching any
 * exception.  The client call itself, sending and decoding included, is a
 * parameter `send`: a total function from the request to its outcome.
 */
module KtorUtils {
  import opened Wrappers
  import opened Json
  import opened Responses

  datatype HttpMethod = Get | Post

  datatype Request = Request(verb: HttpMethod, url: string, body: Option<Json>)

  /** A wrapped call: the requests it sent and the response it returned. */
  datatype Exchange<T> = Exchange(sent: seq<Request>, response: Response<T>)

  /** The try/catch: a value becomes the body, an exception the error. */
  function Capture<T>(o: Outcome<T>): (r: Response<T>)
    ensures OneSided(r)
    ensures ToOutcome(r) == o
  {
    match o
    case Ok(v) => Response(Some(v), None)
    case Exn(c) => Response(None, Some(c))
  }

  /** `postRequest(url) { body = .. }`: one POST to `url`, its outcome captured. */
  function PostRequest<T>(send: Request -> Outcome<T>, url: string, body: Option<Json>): (x: Exchange<T>)
    ensures x.sent == [Request(Post, url, body)]
    ensures OneSided(x.response)
    ensures ToOutcome(x.response) == send(Request(Post, url, body))
  {
    var req := Request(Post, url, body);
    Exchange([req], Capture(send(req)))
  }

  /** `getRequest(url) { .. }`: one GET to `url`, its outcome captured. */
  function GetRequest<T>(send: Request -> Outcome<T>, url: string, body: Option<Json>): (x: Exchange<T>)
    ensures x.sent == [Request(Get, url, body)]
    ensures OneSided(x.response)
    ensures ToOutcome(x.response) == send(Request(Get, url, body))
  {
    var req := Request(Get, url, body);
    Exchange([req], Capture(send(req)))
  }

  /** Capturing loses nothing: one-sided responses and outcomes correspond one to one. */
  lemma CaptureBijective<T>(o: Outcome<T>, r: Response<T>)
    ensures ToOutcome(Capture(o)) == o
    ensures OneSided(r) ==> Capture(ToOutcome(r)) == r
  {
  }

  /** A value comes back as the body with no error; an exception as the error, verbatim, with no body. */
  lemma PostRequestSides<T>(send: Request -> Outcome<T>, url: string, body: Option<Json>)
    ensures send(Request(Post, url, body)).Ok? ==>
              PostRequest(send, url, body).response == Response(Some(send(Request(Post, url, body)).value), None)
    ensures send(Request(Post, url, body)).Exn? ==>
              PostRequest(send, url, body).response == Response(None, Some(send(Request(Post, url, body)).cause))
  {
    var r := PostRequest(send, url, body).response;
    CaptureBijective(send(Request(Post, url, body)), r);
  }

  /** `getRequest` behaves as `postRequest` does, with a GET in place of the POST. */
  lemma GetMirrorsPost<T>(send: Request -> Outcome<T>, url: string, body: Option<Json>)
    ensures GetRequest(send, url, body).response ==
              PostRequest((req: Request) => send(req.(verb := Get)), url, body).response
  {
  }
}
