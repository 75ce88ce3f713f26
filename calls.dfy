/**
 The endpoint methods of `HTTPClient` taken together: one constructor per
 method call, the single request each call sends, and the rules that hold
 across all of them (pyrabbit/http.py).
 */
module Calls {
  import opened Templates
  import opened Http
  import Paths

  /** A call of one of the client's endpoint methods, with its arguments. */
  datatype Call =
    | Alive(vhost: string)
    | Whoami
    | Users
    | Overview
    | AllVhosts
    | Queues(vhostOpt: Option<string>)
    | Queue(vhost: string, name: string)
    | Purge(vhost: string, name: string)
    | Exchanges(vhostOpt: Option<string>)
    | Exchange(vhost: string, name: string)
    | Connections(nameOpt: Option<string>)
    | Channels

  /** What a method returns: a decoded body, or the flag of `is_alive` and `purge_queue`. */
  datatype Value = Json(body: Bytes) | Flag(b: bool)

  function JsonOf(r: Result<Bytes>): Result<Value>
  {
    match r
    case Ok(body) => Ok(Json(body))
    case Err(e) => Err(e)
  }

  function FlagOf(r: Result<bool>): Result<Value>
  {
    match r
    case Ok(b) => Ok(Flag(b))
    case Err(e) => Err(e)
  }

  /** Runs the method the call names. */
  function Invoke(c: HTTPClient, net: Network, call: Call): Result<Value>
  {
    match call
    case Alive(v) => FlagOf(IsAlive(c, net, v))
    case Whoami => JsonOf(GetWhoami(c, net))
    case Users => JsonOf(GetUsers(c, net))
    case Overview => JsonOf(GetOverview(c, net))
    case AllVhosts => JsonOf(GetAllVhosts(c, net))
    case Queues(v) => JsonOf(GetQueues(c, net, v))
    case Queue(v, n) => JsonOf(GetQueue(c, net, v, n))
    case Purge(v, n) => FlagOf(PurgeQueue(c, net, v, n))
    case Exchanges(v) => JsonOf(GetExchanges(c, net, v))
    case Exchange(v, n) => JsonOf(GetExchange(c, net, v, n))
    case Connections(n) => JsonOf(GetConnections(c, net, n))
    case Channels => JsonOf(GetChannels(c, net))
  }

  /** The path below `/api/` that each call requests, written out. */
  function PathOf(call: Call): string
  {
    match call
    case Alive(v) => "aliveness-test/" + v
    case Whoami => "whoami"
    case Users => "users"
    case Overview => "overview"
    case AllVhosts => "vhosts"
    case Queues(v) => if Paths.Truthy(v) then "queues/" + v.value else "queues"
    case Queue(v, n) => "queues/" + v + "/" + n
    case Purge(v, n) => "queues/" + v + "/" + n + "/contents"
    case Exchanges(v) => if Paths.Truthy(v) then "exchanges/" + v.value else "exchanges"
    case Exchange(v, n) => "exchanges/" + v + "/" + n
    case Connections(n) => if Paths.Truthy(n) then "connections/%s" else "connections"
    case Channels => "channels"
  }

  /** The one request a call sends: DELETE for `purge_queue`, GET for every other method. */
  function RequestOf(c: HTTPClient, call: Call): Request
  {
    Request(Paths.ApiUri(c.server, PathOf(call)), if call.Purge? then DELETE else GET)
  }

  /** The statuses a call treats as success. */
  predicate Accepted(call: Call, status: int)
  {
    status == 200 || (call.Purge? && status == 204)
  }

  /** The statuses a call turns into an `APIError`. */
  predicate Rewritten(call: Call, status: int)
  {
    (call.Alive? && status == 404) || (call.Users? && status == 401)
  }

  /** The message of the `APIError` a call raises on a rewritten status. */
  function RewriteMessage(call: Call): string
  {
    if call.Alive? then "No vhost named '" + call.vhost + "'" else AdminOnlyMessage
  }

  /**
   The outcome rules of all methods, as a function of the one reply a call
   receives: the transport's exception becomes `NetworkError`; an accepted
   status returns (`True` for the two flag methods, otherwise the body); a
   rewritten status becomes `APIError`; every other status is `do_call`'s
   `HTTPError` carrying the request URI.
   */
  function Translate(call: Call, reply: Reply, uri: string): Result<Value>
  {
    match reply
    case TransportFailure(m) => Err(NetworkError(m))
    case Received(resp) =>
      if Accepted(call, resp.status) then
        Ok(if call.Alive? || call.Purge? then Flag(true) else Json(resp.content))
      else if Rewritten(call, resp.status) then Err(APIError(RewriteMessage(call)))
      else Err(HTTPError(resp.status, resp.reason, uri))
  }

  /**
   The three methods that rewrite `do_call`'s outcome (`is_alive`,
   `get_users`, `purge_queue`) follow `Translate`.
   */
  lemma RewritingCallsTranslate(c: HTTPClient, net: Network, call: Call)
    requires call.Alive? || call.Users? || call.Purge?
    ensures var req := RequestOf(c, call);
      Invoke(c, net, call) == Translate(call, net(req), req.uri)
  {
    match call
    case Alive(_) =>
    case Users =>
    case Purge(_, _) =>
  }

  /** The methods that return `do_call`'s outcome unchanged follow `Translate`. */
  lemma PlainCallsTranslate(c: HTTPClient, net: Network, call: Call)
    requires !(call.Alive? || call.Users? || call.Purge?)
    ensures var req := RequestOf(c, call);
      Invoke(c, net, call) == Translate(call, net(req), req.uri)
  {
    match call
    case Whoami =>
    case Overview =>
    case AllVhosts =>
    case Queues(_) =>
    case Queue(_, _) =>
    case Exchanges(_) =>
    case Exchange(_, _) =>
    case Connections(_) =>
    case Channels =>
  }

  /** Every method sends exactly `RequestOf(c, call)` and translates the reply by `Translate`. */
  lemma InvokeIsTranslate(c: HTTPClient, net: Network, call: Call)
    ensures var req := RequestOf(c, call);
      Invoke(c, net, call) == Translate(call, net(req), req.uri)
  {
    if call.Alive? || call.Users? || call.Purge? {
      RewritingCallsTranslate(c, net, call);
    } else {
      PlainCallsTranslate(c, net, call);
    }
  }

  /** No path starts with `/`, so `os.path.join` never discards the base URL. */
  lemma PathsAreRelative(call: Call)
    ensures |PathOf(call)| > 0 && PathOf(call)[0] != '/'
  {
  }

  /** A call depends on the transport only through the answer to its own request. */
  lemma OnlyItsRequest(c: HTTPClient, net1: Network, net2: Network, call: Call)
    requires net1(RequestOf(c, call)) == net2(RequestOf(c, call))
    ensures Invoke(c, net1, call) == Invoke(c, net2, call)
  {
    InvokeIsTranslate(c, net1, call);
    InvokeIsTranslate(c, net2, call);
  }

  /**
   A transport exception surfaces as `NetworkError` with its message, in
   every method; and a `NetworkError` only ever comes from the transport.
   */
  lemma TransportFailureIsNetworkError(c: HTTPClient, net: Network, call: Call)
    ensures var reply := net(RequestOf(c, call));
      reply.TransportFailure? ==> Invoke(c, net, call) == Err(NetworkError(reply.msg))
    ensures var r := Invoke(c, net, call);
      r.Err? && r.error.NetworkError? ==> net(RequestOf(c, call)).TransportFailure?
  {
    InvokeIsTranslate(c, net, call);
  }

  /**
   The status rules of all methods together: a call succeeds exactly on its
   accepted statuses, raises `APIError` exactly on its rewritten ones, and
   raises `HTTPError` with the status, reason and full request URI on every
   other status.
   */
  lemma StatusRules(c: HTTPClient, net: Network, call: Call)
    ensures var reply, r := net(RequestOf(c, call)), Invoke(c, net, call);
      && (r.Ok? <==> reply.Received? && Accepted(call, reply.response.status))
      && (r.Err? && r.error.APIError? <==> reply.Received? && Rewritten(call, reply.response.status))
      && (reply.Received? && !Accepted(call, reply.response.status) && !Rewritten(call, reply.response.status) ==>
            r == Err(HTTPError(reply.response.status, reply.response.reason, RequestOf(c, call).uri)))
  {
    InvokeIsTranslate(c, net, call);
  }

  /**
   What a successful call returns: `True` for `is_alive` and `purge_queue`
   (never `False`), the response body for every other method.
   */
  lemma SuccessValues(c: HTTPClient, net: Network, call: Call)
    requires Invoke(c, net, call).Ok?
    ensures call.Alive? || call.Purge? ==> Invoke(c, net, call).value == Flag(true)
    ensures !(call.Alive? || call.Purge?) ==>
      Invoke(c, net, call).value == Json(net(RequestOf(c, call)).response.content)
  {
    InvokeIsTranslate(c, net, call);
  }
}
