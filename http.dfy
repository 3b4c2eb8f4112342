/** The program's view of its HTTP session: what it asks for and the three ways a
    call can end. The session's retrying is urllib3's business and is kept only as
    the configuration the program passes in.
 */
module Http {
  import opened Outcomes
  import opened Json

  /** `TIMEOUT`: seconds allowed per request. */
  const RequestTimeout: int := 10

  /** A GET with its query parameters, in the order the program writes them. */
  datatype Request = Request(url: string, params: seq<(string, Json)>, timeout: int)

  /** How `session.get` ends, after the session has done its own retrying: it raises
      a timeout, raises some other transport error, or returns a response whose
      body Python may or may not be able to decode as JSON. */
  datatype Response =
    | Timeout
    | TransportError(detail: string)
    | Reply(status: int, body: Option<Json>)

  /** The `Retry` settings `build_session` installs (recorded, not interpreted). */
  datatype RetryPolicy = RetryPolicy(
    total: nat, connect: nat, read: nat, status: nat,
    backoffFactor: real,
    statusForcelist: set<int>,
    allowedMethods: set<string>,
    raiseOnStatus: bool)

  const SessionRetry: RetryPolicy := RetryPolicy(
    3, 3, 3, 3, 0.5, {429, 500, 502, 503, 504}, {"GET"}, false)

  /** The value of query parameter `key`, if the request has one. */
  function Param(params: seq<(string, Json)>, key: string): (r: Option<Json>)
    ensures r.Some? <==> exists k :: 0 <= k < |params| && params[k].0 == key
  {
    if params == [] then None
    else if params[0].0 == key then Some(params[0].1)
    else Param(params[1..], key)
  }

  /** The value of a parameter is the one paired with its first occurrence. */
  lemma {:induction false} ParamAt(params: seq<(string, Json)>, k: nat, key: string)
    requires k < |params| && params[k].0 == key
    requires forall j :: 0 <= j < k ==> params[j].0 != key
    ensures Param(params, key) == Some(params[k].1)
  {
    if k > 0 {
      ParamAt(params[1..], k - 1, key);
    }
  }

  /** The handling both request steps share once `session.get` has ended: a timeout
      and other transport errors are reported separately, any status but 200 is
      reported with its code, and a 200 yields the decoded body (`r.json()`, which
      raises when the body is not JSON). */
  function Receive(resp: Response): (r: Result<Json>)
    ensures r.Ok? <==> resp.Reply? && resp.status == 200 && resp.body.Some?
    ensures r.Ok? ==> r.value == resp.body.value
    ensures r.Crash? ==> r.fault == JSONDecodeError
  {
    match resp
    case Timeout => Fail(TimedOut)
    case TransportError(d) => Fail(NetworkError(d))
    case Reply(status, body) =>
      if status != 200 then Fail(HttpStatus(status))
      else if body.None? then Crash(JSONDecodeError)
      else Ok(body.value)
  }

  /** A call yields a payload exactly when the status is 200 and the body decodes,
      and the payload is then the decoded body itself. */
  lemma ReceiveOkIff(resp: Response, payload: Json)
    ensures Receive(resp) == Ok(payload) <==> resp == Reply(200, Some(payload))
  {
  }

  /** Every status other than 200 is a failure carrying that status, whatever the body. */
  lemma ReceiveNon200(status: int, body: Option<Json>)
    requires status != 200
    ensures Receive(Reply(status, body)) == Fail(HttpStatus(status))
  {
  }

  /** A timeout and any other transport error are told apart, and neither is
      confused with an HTTP status. */
  lemma ReceiveTransportFailures(detail: string)
    ensures Receive(Timeout) == Fail(TimedOut)
    ensures Receive(TransportError(detail)) == Fail(NetworkError(detail))
    ensures Receive(Timeout) != Receive(TransportError(detail))
  {
  }
}
