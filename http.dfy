/** The HTTP exchanges of the core, taken as inputs, and the trace of what the core sends and logs. */
module Http {
  import opened Wrappers
  import opened Errors
  import opened Json
  import opened OrderedDicts

  /** session.get / session.request("GET"), session.post, and session.stream("GET"). */
  datatype Method = Get | Post | GetStreaming

  /** A request as the core issues it: method, URL, query parameters and JSON payload. */
  datatype Request = Request(verb: Method, url: string, params: seq<(string, string)>, payload: Option<Json>)

  /** What httpx hands back for one request: a RequestError, or a response with its status, body
      text and headers. */
  datatype Reply = TransportFailure | Response(status: int, text: string, headers: map<string, string>)

  /** What a streaming GET hands back: a RequestError before any response, or a response whose body
      arrives as text chunks; broken is a RequestError raised after the last chunk received. */
  datatype StreamReply =
    | StreamFailure
    | Streamed(status: int, headers: map<string, string>, chunks: seq<string>, broken: bool)

  /** Which logger.info call wrote a line. */
  datatype Label = GetRulesLog | DeleteRulesLog | SetRulesLog | StreamRecord | UsersIdLog | ErrorDataLog | TweetsLog

  /** A time.sleep argument that does not raise: a non-negative number of seconds. */
  type Duration = x: real | 0.0 <= x

  /** One observable effect: a request sent, a JSON value or a dict logged, a time.sleep call. */
  datatype Event =
    | Sent(req: Request)
    | Logged(kind: Label, body: Json)
    | LoggedDict(dictKind: Label, dict: ODict<Json, Json>)
    | Slept(seconds: Duration)

  type Trace = seq<Event>

  /** What one step of the core did and how it ended. */
  datatype Step<T> = Step(trace: Trace, result: Result<T, Error>)

  /** The requests of a trace, in the order they were sent. */
  function Requests(t: Trace): (rs: seq<Request>)
    ensures |rs| <= |t|
  {
    if t == [] then [] else (if t[0].Sent? then [t[0].req] else []) + Requests(t[1..])
  }

  lemma {:induction false} RequestsAppend(a: Trace, b: Trace)
    ensures Requests(a + b) == Requests(a) + Requests(b)
  {
    if a == [] {
      assert a + b == b;
    } else {
      assert (a + b)[0] == a[0] && (a + b)[1..] == a[1..] + b;
      RequestsAppend(a[1..], b);
    }
  }

  /** The seconds of every time.sleep call of a trace, added up. */
  function Waited(t: Trace): Duration {
    if t == [] then 0.0 else (if t[0].Slept? then t[0].seconds else 0.0) + Waited(t[1..])
  }

  lemma {:induction false} WaitedAppend(a: Trace, b: Trace)
    ensures Waited(a + b) == Waited(a) + Waited(b)
  {
    if a == [] {
      assert a + b == b;
    } else {
      assert (a + b)[0] == a[0] && (a + b)[1..] == a[1..] + b;
      WaitedAppend(a[1..], b);
    }
  }

  /** Send req, accept the reply only with the expected status, and parse its body: RequestError
      when the transport fails, HTTPStatusError with the reply's status and headers for any other
      status, JSONDecodeError for a body that is not JSON, otherwise the parsed body. */
  function Call(serve: Request -> Reply, parse: string -> Option<Json>, req: Request, expected: int): (r: Result<Json, Error>)
    ensures r.Ok? <==> serve(req).Response? && serve(req).status == expected && parse(serve(req).text).Some?
    ensures r.Ok? ==> r.value == parse(serve(req).text).value
    ensures serve(req).TransportFailure? ==> r == Err(RequestError)
    ensures serve(req).Response? && serve(req).status != expected
      ==> r == Err(HTTPStatusError(serve(req).status, serve(req).headers))
    ensures serve(req).Response? && serve(req).status == expected && parse(serve(req).text).None?
      ==> r == Err(JSONDecodeError)
  {
    match serve(req)
    case TransportFailure => Err(RequestError)
    case Response(status, text, headers) =>
      if status != expected then Err(HTTPStatusError(status, headers))
      else match parse(text)
        case None => Err(JSONDecodeError)
        case Some(body) => Ok(body)
  }

  /** Call, with the request recorded before it and the parsed body logged after a success. */
  function Exchange(serve: Request -> Reply, parse: string -> Option<Json>, req: Request, expected: int, kind: Label): (s: Step<Json>)
    ensures Requests(s.trace) == [req]
    ensures s.result == Call(serve, parse, req, expected)
    ensures s.trace == [Sent(req)] + (if s.result.Ok? then [Logged(kind, s.result.value)] else [])
  {
    var r := Call(serve, parse, req, expected);
    var t := [Sent(req)] + (if r.Ok? then [Logged(kind, r.value)] else []);
    assert Requests(t) == [req] by {
      if r.Ok? {
        assert t[1..] == [Logged(kind, r.value)];
        assert t[1..][1..] == [];
      } else {
        assert t[1..] == [];
      }
    }
    Step(t, r)
  }
}
