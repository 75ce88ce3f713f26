/**
 The request/response layer of the management API client (pyrabbit/http.py):
 `do_call`'s status rule, the error values it raises, and every endpoint
 method of `HTTPClient` as a function of the client, the transport and the
 method's arguments.

 The httplib2 transport is a parameter `net`: given the request (URI and
 HTTP method) it either fails (any exception) or answers with a status,
 reason and body. The body is kept as opaque bytes; what an endpoint
 returns on success is the body that `decode_json_content` would decode.
 */
module Http {
  import opened Templates
  import Decimal
  import Paths

  type Bytes = seq<bv8>

  datatype Method = GET | DELETE

  datatype Request = Request(uri: string, reqtype: Method)

  datatype Response = Response(status: int, reason: string, content: Bytes)

  /** What `self.client.request(path, reqtype)` does: raise, or return a response. */
  datatype Reply = TransportFailure(msg: string) | Received(response: Response)

  /** The httplib2 client, with its credentials, seen as a function of the request. */
  type Network = Request -> Reply

  /** The three exception classes the module raises. */
  datatype Error =
    | HTTPError(status: int, reason: string, path: string)
    | NetworkError(msg: string)
    | APIError(msg: string)

  /** A method either returns a value or raises one of the errors. */
  datatype Result<T> = Ok(value: T) | Err(error: Error)

  /** `HTTPClient(server, uname, passwd)`; the credentials only reach the transport. */
  datatype HTTPClient = HTTPClient(server: string, uname: string, passwd: string)

  /** The literal `"%s - %s (%s)"` that `HTTPError.output` is formatted from. */
  const OutputTemplate: Template := [Hole, Lit(" - "), Hole, Lit(" ("), Hole, Lit(")")]

  lemma OutputShape(a: string, b: string, c: string)
    ensures Holes(OutputTemplate) == 3
    ensures Render(OutputTemplate, [a, b, c]) == a + " - " + b + " (" + c + ")"
  {
    var t5 := [Lit(")")];
    var t4 := [Hole] + t5;
    var t3 := [Lit(" (")] + t4;
    var t2 := [Hole] + t3;
    var t1 := [Lit(" - ")] + t2;
    assert OutputTemplate == [Hole] + t1;
    LitCons(")", [], []);
    assert [Lit(")")] + [] == t5;
    HoleCons(c, t5, []);
    assert [c] + [] == [c];
    LitCons(" (", t4, [c]);
    HoleCons(b, t3, [c]);
    assert [b] + [c] == [b, c];
    LitCons(" - ", t2, [b, c]);
    HoleCons(a, t1, [b, c]);
    assert [a] + [b, c] == [a, b, c];
  }

  /** `str(HTTPError(status, reason, path))`, i.e. its `output` attribute. */
  function Output(e: Error): (s: string)
    requires e.HTTPError?
    ensures s == Decimal.Str(e.status) + " - " + e.reason + " (" + e.path + ")"
  {
    OutputShape(Decimal.Str(e.status), e.reason, e.path);
    Render(OutputTemplate, [Decimal.Str(e.status), e.reason, e.path])
  }

  /** Python's `%` on the literal `"%s - %s (%s)"` gives the same text. */
  lemma OutputAsPython(e: Error)
    requires e.HTTPError?
    ensures Format("%s - %s (%s)", [Decimal.Str(e.status), e.reason, e.path]) == Some(Output(e))
  {
    OutputShape(Decimal.Str(e.status), e.reason, e.path);
    assert Text(OutputTemplate) == "%s - %s (%s)";
    assert PlainLits(OutputTemplate) by {
      assert Plain(" - ") && Plain(" (") && Plain(")");
    }
    FormatText(OutputTemplate, [Decimal.Str(e.status), e.reason, e.path]);
  }

  /** In an error's output, the status text is followed by the first space. */
  lemma StatusTextEndsAtSpace(e: Error)
    requires e.HTTPError?
    ensures var n := |Decimal.Str(e.status)|;
      n < |Output(e)| && Output(e)[n] == ' ' && forall i :: 0 <= i < n ==> Output(e)[i] != ' '
  {
    var s := Decimal.Str(e.status);
    Decimal.NoSpaceInStr(e.status);
    forall i | 0 <= i < |s| ensures Output(e)[i] != ' ' {
      assert Output(e)[i] == s[i];
    }
  }

  /**
   Two errors with the same output have the same status: the status text
   holds no space, so it is exactly the output up to the first `" - "`.
   */
  lemma OutputDeterminesStatus(e1: Error, e2: Error)
    requires e1.HTTPError? && e2.HTTPError?
    requires Output(e1) == Output(e2)
    ensures e1.status == e2.status
  {
    var s1, s2 := Decimal.Str(e1.status), Decimal.Str(e2.status);
    StatusTextEndsAtSpace(e1);
    StatusTextEndsAtSpace(e2);
    assert |s1| == |s2|;
    assert s1 == Output(e1)[..|s1|];
    assert s2 == Output(e2)[..|s2|];
    Decimal.StrInjective(e1.status, e2.status);
  }

  /**
   `do_call(path, reqtype)`: a transport exception becomes `NetworkError`
   and no status rule applies; a response succeeds exactly when its status
   is 200, and any other status raises `HTTPError` with that status, that
   reason and the request path.
   */
  function DoCall(net: Network, path: string, reqtype: Method): (r: Result<Response>)
    ensures var reply := net(Request(path, reqtype));
      && (r.Ok? <==> reply.Received? && reply.response.status == 200)
      && (r.Ok? ==> reply == Received(r.value))
      && (reply.TransportFailure? <==> r.Err? && r.error.NetworkError?)
      && (reply.TransportFailure? ==> r.error == NetworkError(reply.msg))
      && (reply.Received? && reply.response.status != 200 ==>
            r == Err(HTTPError(reply.response.status, reply.response.reason, path)))
      && (r.Err? ==> !r.error.APIError?)
  {
    match net(Request(path, reqtype))
    case TransportFailure(msg) => Err(NetworkError(msg))
    case Received(resp) =>
      if resp.status != 200 then Err(HTTPError(resp.status, resp.reason, path)) else Ok(resp)
  }

  /**
   `self.decode_json_content(content)` after a call: an error raised by the
   call passes through unchanged, and a successful call yields its body.
   */
  function Content(d: Result<Response>): (r: Result<Bytes>)
    ensures r.Ok? <==> d.Ok?
    ensures d.Ok? ==> r.value == d.value.content
    ensures d.Err? ==> r.error == d.error
  {
    match d
    case Ok(resp) => Ok(resp.content)
    case Err(e) => Err(e)
  }

  /**
   `do_call(os.path.join(self.base_url, path), 'GET')` followed by decoding
   the body: the body of a 200, `HTTPError` with the joined URI for any other
   status, `NetworkError` for a transport failure.
   */
  function Get(c: HTTPClient, net: Network, path: string): (r: Result<Bytes>)
    ensures var uri := Paths.Uri(c.server, path);
      match net(Request(uri, GET))
      case TransportFailure(m) => r == Err(NetworkError(m))
      case Received(resp) =>
        if resp.status == 200 then r == Ok(resp.content)
        else r == Err(HTTPError(resp.status, resp.reason, uri))
  {
    Content(DoCall(net, Paths.Uri(c.server, path), GET))
  }

  /** The literal `"No vhost named '%s'"` of the `APIError` raised for a missing vhost. */
  const NoVhostTemplate: Template := [Lit("No vhost named '"), Hole, Lit("'")]

  /** The message of the `APIError` raised for a missing vhost. */
  function NoVhostMessage(vhost: string): (m: string)
    ensures m == "No vhost named '" + vhost + "'"
  {
    assert NoVhostTemplate == [Lit("No vhost named '")] + ([Hole] + [Lit("'")]);
    LitCons("'", [], []);
    assert [Lit("'")] + [] == [Lit("'")];
    HoleCons(vhost, [Lit("'")], []);
    assert [vhost] + [] == [vhost];
    LitCons("No vhost named '", [Hole] + [Lit("'")], [vhost]);
    Render(NoVhostTemplate, [vhost])
  }

  /** Python's `"No vhost named '%s'" % vhost` gives the same message, for every vhost string. */
  /** The source literal of the message. */
  lemma NoVhostText()
    ensures Text(NoVhostTemplate) == "No vhost named '%s'"
  {
  }

  lemma NoVhostMessageAsPython(vhost: string)
    ensures Format("No vhost named '%s'", [vhost]) == Some(NoVhostMessage(vhost))
  {
    NoVhostText();
    assert PlainLits(NoVhostTemplate) by {
      assert Plain("No vhost named '") && Plain("'");
    }
    FormatText(NoVhostTemplate, [vhost]);
  }

  const AdminOnlyMessage := "Only admin can access user data"

  /** The vhost `is_alive` tests when none is given: `/`, already percent-encoded. */
  const DefaultVhost := "%2F"

  /**
   `is_alive(vhost='%2F')`: GET on the aliveness test of the vhost. A 404
   becomes `APIError` naming the vhost; every other failure propagates
   unchanged. Because `do_call` only returns on a 200, the `False` branch
   of the method is dead: whenever it returns, it returns `True`.
   */
  function IsAlive(c: HTTPClient, net: Network, vhost: string := DefaultVhost): (r: Result<bool>)
    ensures r.Ok? ==> r.value
    ensures var uri := Paths.ApiUri(c.server, "aliveness-test/" + vhost);
      match net(Request(uri, GET))
      case TransportFailure(m) => r == Err(NetworkError(m))
      case Received(resp) =>
        if resp.status == 200 then r == Ok(true)
        else if resp.status == 404 then r == Err(APIError("No vhost named '" + vhost + "'"))
        else r == Err(HTTPError(resp.status, resp.reason, uri))
  {
    var uri := Paths.Uri(c.server, Paths.AlivePath(vhost));
    match DoCall(net, uri, GET)
    case Err(e) =>
      if e.HTTPError? && e.status == 404 then Err(APIError(NoVhostMessage(vhost))) else Err(e)
    case Ok(resp) =>
      if resp.status == 200 then Ok(true) else Ok(false)
  }

  /** The default vhost is sent as it is, `%2F`, with no further encoding, and named so in the 404 message. */
  lemma IsAliveDefaultUri(c: HTTPClient, net: Network)
    ensures var reply := net(Request("http://" + c.server + "/api/aliveness-test/%2F", GET));
      && (reply.Received? && reply.response.status == 200 ==> IsAlive(c, net) == Ok(true))
      && (reply.Received? && reply.response.status == 404 ==>
            IsAlive(c, net) == Err(APIError("No vhost named '%2F'")))
  {
    assert Paths.ApiUri(c.server, "aliveness-test/" + DefaultVhost) == "http://" + c.server + "/api/aliveness-test/%2F";
    assert "No vhost named '" + DefaultVhost + "'" == "No vhost named '%2F'";
  }

  /** `get_whoami()`. */
  function GetWhoami(c: HTTPClient, net: Network): (r: Result<Bytes>)
    ensures r == Content(DoCall(net, Paths.ApiUri(c.server, "whoami"), GET))
  {
    Paths.RawEntries();
    Get(c, net, Paths.Raw(Paths.Whoami))
  }

  /**
   `get_users()`: a 401 becomes `APIError("Only admin can access user
   data")`; every other failure propagates unchanged.
   */
  function GetUsers(c: HTTPClient, net: Network): (r: Result<Bytes>)
    ensures var uri := Paths.ApiUri(c.server, "users");
      match net(Request(uri, GET))
      case TransportFailure(m) => r == Err(NetworkError(m))
      case Received(resp) =>
        if resp.status == 200 then r == Ok(resp.content)
        else if resp.status == 401 then r == Err(APIError(AdminOnlyMessage))
        else r == Err(HTTPError(resp.status, resp.reason, uri))
  {
    Paths.RawEntries();
    var uri := Paths.Uri(c.server, Paths.Raw(Paths.AllUsers));
    match DoCall(net, uri, GET)
    case Err(e) =>
      if e.HTTPError? && e.status == 401 then Err(APIError(AdminOnlyMessage)) else Err(e)
    case Ok(resp) =>
      Ok(resp.content)
  }

  /** `get_overview()`. */
  function GetOverview(c: HTTPClient, net: Network): (r: Result<Bytes>)
    ensures r == Content(DoCall(net, Paths.ApiUri(c.server, "overview"), GET))
  {
    Paths.RawEntries();
    Get(c, net, Paths.Raw(Paths.Overview))
  }

  /** `get_all_vhosts()`. */
  function GetAllVhosts(c: HTTPClient, net: Network): (r: Result<Bytes>)
    ensures r == Content(DoCall(net, Paths.ApiUri(c.server, "vhosts"), GET))
  {
    Paths.RawEntries();
    Get(c, net, Paths.Raw(Paths.AllVhosts))
  }

  /** `get_queues(vhost=None)`: one vhost's queues for a non-empty vhost, else all queues. */
  function GetQueues(c: HTTPClient, net: Network, vhost: Option<string> := None): (r: Result<Bytes>)
    ensures Paths.Truthy(vhost) ==>
      r == Content(DoCall(net, Paths.ApiUri(c.server, "queues/" + vhost.value), GET))
    ensures !Paths.Truthy(vhost) ==>
      r == Content(DoCall(net, Paths.ApiUri(c.server, "queues"), GET))
  {
    Get(c, net, Paths.QueuesPath(vhost))
  }

  /** `get_queue(vhost, name)`. */
  function GetQueue(c: HTTPClient, net: Network, vhost: string, name: string): (r: Result<Bytes>)
    ensures r == Content(DoCall(net, Paths.ApiUri(c.server, "queues/" + vhost + "/" + name), GET))
  {
    Get(c, net, Paths.QueuePath(vhost, name))
  }

  /**
   `purge_queue(vhost, name)`: DELETE on the queue's contents. A 200, and
   the 204 that `do_call` raises as an `HTTPError`, both give `True`;
   every other failure propagates unchanged. It never returns `False`.
   */
  function PurgeQueue(c: HTTPClient, net: Network, vhost: string, name: string): (r: Result<bool>)
    ensures r.Ok? ==> r.value
    ensures var uri := Paths.ApiUri(c.server, "queues/" + vhost + "/" + name + "/contents");
      match net(Request(uri, DELETE))
      case TransportFailure(m) => r == Err(NetworkError(m))
      case Received(resp) =>
        if resp.status == 200 || resp.status == 204 then r == Ok(true)
        else r == Err(HTTPError(resp.status, resp.reason, uri))
  {
    var uri := Paths.Uri(c.server, Paths.PurgePath(vhost, name));
    match DoCall(net, uri, DELETE)
    case Err(e) =>
      if e.HTTPError? && e.status == 204 then Ok(true) else Err(e)
    case Ok(_) =>
      Ok(true)
  }

  /** `get_exchanges(vhost=None)`: one vhost's exchanges for a non-empty vhost, else all. */
  function GetExchanges(c: HTTPClient, net: Network, vhost: Option<string> := None): (r: Result<Bytes>)
    ensures Paths.Truthy(vhost) ==>
      r == Content(DoCall(net, Paths.ApiUri(c.server, "exchanges/" + vhost.value), GET))
    ensures !Paths.Truthy(vhost) ==>
      r == Content(DoCall(net, Paths.ApiUri(c.server, "exchanges"), GET))
  {
    Get(c, net, Paths.ExchangesPath(vhost))
  }

  /** `get_exchange(vhost, name)`. */
  function GetExchange(c: HTTPClient, net: Network, vhost: string, name: string): (r: Result<Bytes>)
    ensures r == Content(DoCall(net, Paths.ApiUri(c.server, "exchanges/" + vhost + "/" + name), GET))
  {
    Get(c, net, Paths.ExchangePath(vhost, name))
  }

  /**
   `get_connections(name=None)`: for a non-empty name the request goes to
   the literal path `connections/%s`; the name itself is never sent.
   */
  function GetConnections(c: HTTPClient, net: Network, name: Option<string> := None): (r: Result<Bytes>)
    ensures Paths.Truthy(name) ==>
      r == Content(DoCall(net, Paths.ApiUri(c.server, "connections/%s"), GET))
    ensures !Paths.Truthy(name) ==>
      r == Content(DoCall(net, Paths.ApiUri(c.server, "connections"), GET))
  {
    Get(c, net, Paths.ConnectionsPath(name))
  }

  /** `get_channels()`. */
  function GetChannels(c: HTTPClient, net: Network): (r: Result<Bytes>)
    ensures r == Content(DoCall(net, Paths.ApiUri(c.server, "channels"), GET))
  {
    Paths.RawEntries();
    Get(c, net, Paths.Raw(Paths.AllChannels))
  }
}
