/**
 Request paths of the management API client (pyrabbit/http.py): the
 endpoint table `HTTPClient.urls`, the `base_url` built from the server
 address, `os.path.join` of the two, and the per-endpoint choice of path.
 */
module Paths {
  import opened Templates

  /** The keys of `HTTPClient.urls`, one constructor per entry. */
  datatype Url =
    | Overview          // 'overview'
    | AllQueues         // 'all_queues'
    | AllExchanges      // 'all_exchanges'
    | AllChannels       // 'all_channels'
    | AllConnections    // 'all_connections'
    | AllNodes          // 'all_nodes'
    | AllVhosts         // 'all_vhosts'
    | AllUsers          // 'all_users'
    | Whoami            // 'whoami'
    | QueuesByVhost     // 'queues_by_vhost'
    | QueuesByName      // 'queues_by_name'
    | ExchangesByVhost  // 'exchanges_by_vhost'
    | ExchangeByName    // 'exchange_by_name'
    | LiveTest          // 'live_test'
    | PurgeQueue        // 'purge_queue'
    | ConnectionsByName // 'connections_by_name'

  /**
   The value stored under each key of `HTTPClient.urls`. Each entry starts
   with a non-empty relative literal naming the resource, and literals and
   `%s` conversions alternate, so no two arguments are ever written
   side by side.
   */
  function UrlTemplate(u: Url): (t: Template)
    ensures |t| > 0 && t[0].Lit? && |t[0].text| > 0 && t[0].text[0] != '/'
    ensures forall i :: 0 <= i < |t| - 1 ==> t[i].Lit? != t[i + 1].Lit?
  {
    match u
    case Overview => [Lit("overview")]
    case AllQueues => [Lit("queues")]
    case AllExchanges => [Lit("exchanges")]
    case AllChannels => [Lit("channels")]
    case AllConnections => [Lit("connections")]
    case AllNodes => [Lit("nodes")]
    case AllVhosts => [Lit("vhosts")]
    case AllUsers => [Lit("users")]
    case Whoami => [Lit("whoami")]
    case QueuesByVhost => [Lit("queues/"), Hole]
    case QueuesByName => [Lit("queues/"), Hole, Lit("/"), Hole]
    case ExchangesByVhost => [Lit("exchanges/"), Hole]
    case ExchangeByName => [Lit("exchanges/"), Hole, Lit("/"), Hole]
    case LiveTest => [Lit("aliveness-test/"), Hole]
    case PurgeQueue => [Lit("queues/"), Hole, Lit("/"), Hole, Lit("/contents")]
    case ConnectionsByName => [Lit("connections/"), Hole]
  }

  /** The entries without arguments: one literal. */
  lemma NoHole(l1: string)
    ensures var t := [Lit(l1)];
      Holes(t) == 0 && Text(t) == l1 && Render(t, []) == l1 && (Plain(l1) ==> PlainLits(t))
  {
    LitCons(l1, [], []);
    assert [Lit(l1)] + [] == [Lit(l1)];
  }

  /** The one-argument entries: a literal, then the argument. */
  lemma OneHole(l1: string, x: string)
    ensures var t := [Lit(l1), Hole];
      Holes(t) == 1 && Text(t) == l1 + "%s" && Render(t, [x]) == l1 + x && (Plain(l1) ==> PlainLits(t))
  {
    HoleCons(x, [], []);
    assert [x] + [] == [x];
    LitCons(l1, [Hole] + [], [x]);
    assert [Lit(l1), Hole] == [Lit(l1)] + ([Hole] + []);
  }

  /** A literal followed by a hole takes one argument and puts it right after the literal. */
  lemma LitHole(l: string, t: Template, x: string, args: seq<string>)
    requires |args| == Holes(t)
    ensures Holes([Lit(l)] + ([Hole] + t)) == 1 + Holes(t)
    ensures Render([Lit(l)] + ([Hole] + t), [x] + args) == l + x + Render(t, args)
    ensures Text([Lit(l)] + ([Hole] + t)) == l + "%s" + Text(t)
  {
    HoleCons(x, t, args);
    LitCons(l, [Hole] + t, [x] + args);
  }

  /** The by-name entries: literal, argument, literal, argument. */
  lemma LitHoleLitHole(l1: string, l2: string, x: string, y: string)
    ensures var t := [Lit(l1), Hole, Lit(l2), Hole];
      Holes(t) == 2 && Render(t, [x, y]) == l1 + x + l2 + y && Text(t) == l1 + "%s" + l2 + "%s"
  {
    OneHole(l2, y);
    var inner := [Lit(l2), Hole];
    LitHole(l1, inner, x, [y]);
    assert [Lit(l1), Hole, Lit(l2), Hole] == [Lit(l1)] + ([Hole] + inner);
    assert [x, y] == [x] + [y];
  }

  /** The purge entry: literal, argument, literal, argument, literal. */
  lemma LitHoleLitHoleLit(l1: string, l2: string, l3: string, x: string, y: string)
    ensures var t := [Lit(l1), Hole, Lit(l2), Hole, Lit(l3)];
      Holes(t) == 2 && Render(t, [x, y]) == l1 + x + l2 + y + l3 && Text(t) == l1 + "%s" + l2 + "%s" + l3
  {
    NoHole(l3);
    LitHole(l2, [Lit(l3)], y, []);
    var inner := [Lit(l2), Hole, Lit(l3)];
    assert inner == [Lit(l2)] + ([Hole] + [Lit(l3)]);
    assert [y] == [y] + [];
    LitHole(l1, inner, x, [y]);
    assert [Lit(l1), Hole, Lit(l2), Hole, Lit(l3)] == [Lit(l1)] + ([Hole] + inner);
    assert [x, y] == [x] + [y];
  }

  lemma QueuesByNameShape(x: string, y: string)
    ensures var t := UrlTemplate(QueuesByName);
      Holes(t) == 2 && Render(t, [x, y]) == "queues/" + x + "/" + y
  {
    LitHoleLitHole("queues/", "/", x, y);
  }

  lemma ExchangeByNameShape(x: string, y: string)
    ensures var t := UrlTemplate(ExchangeByName);
      Holes(t) == 2 && Render(t, [x, y]) == "exchanges/" + x + "/" + y
  {
    LitHoleLitHole("exchanges/", "/", x, y);
  }

  lemma PurgeQueueShape(x: string, y: string)
    ensures var t := UrlTemplate(PurgeQueue);
      Holes(t) == 2 && Render(t, [x, y]) == "queues/" + x + "/" + y + "/contents"
  {
    LitHoleLitHoleLit("queues/", "/", "/contents", x, y);
  }

  /** How many positional arguments each entry is written to take. */
  function Arity(u: Url): nat
  {
    match u
    case QueuesByName | ExchangeByName | PurgeQueue => 2
    case QueuesByVhost | ExchangesByVhost | LiveTest | ConnectionsByName => 1
    case _ => 0
  }

  /** The entry used as it stands, without `%` (the source text of the literal). */
  function Raw(u: Url): string
  {
    Text(UrlTemplate(u))
  }

  /** `HTTPClient.urls[k] % args` for an entry and the right number of arguments. */
  function Fill(u: Url, args: seq<string>): string
    requires |args| == Arity(u)
  {
    TableArity(u);
    Render(UrlTemplate(u), args)
  }

  /** The facts `TableArity` states, for one entry. */
  predicate WellShaped(u: Url)
  {
    var t := UrlTemplate(u);
    && Holes(t) == Arity(u)
    && PlainLits(t)
    && t[0].Lit? && |t[0].text| > 0 && t[0].text[0] != '/'
  }

  /*
   The seven lemmas below split `TableArity` by groups of entries, each named
   after the entries it covers, only to keep each proof small for the solver.
   */

  lemma OverviewQueuesExchangesEntries(u: Url)
    requires u in {Overview, AllQueues, AllExchanges}
    ensures WellShaped(u)
  {
    match u
    case Overview => NoHole("overview");
    case AllQueues => NoHole("queues");
    case AllExchanges => NoHole("exchanges");
  }

  lemma ChannelsConnectionsEntries(u: Url)
    requires u in {AllChannels, AllConnections}
    ensures WellShaped(u)
  {
    match u
    case AllChannels => NoHole("channels");
    case AllConnections => NoHole("connections");
  }

  lemma NodesVhostsUsersWhoamiEntries(u: Url)
    requires u in {AllNodes, AllVhosts, AllUsers, Whoami}
    ensures WellShaped(u)
  {
    match u
    case AllNodes => NoHole("nodes");
    case AllVhosts => NoHole("vhosts");
    case AllUsers => NoHole("users");
    case Whoami => NoHole("whoami");
  }

  lemma QueuesExchangesByVhostEntries(u: Url)
    requires u in {QueuesByVhost, ExchangesByVhost}
    ensures WellShaped(u)
  {
    match u
    case QueuesByVhost => OneHole("queues/", "");
    case ExchangesByVhost => OneHole("exchanges/", "");
  }

  lemma LiveTestConnectionsByNameEntries(u: Url)
    requires u in {LiveTest, ConnectionsByName}
    ensures WellShaped(u)
  {
    match u
    case LiveTest => OneHole("aliveness-test/", "");
    case ConnectionsByName => OneHole("connections/", "");
  }

  lemma ByNameEntries(u: Url)
    requires u in {QueuesByName, ExchangeByName}
    ensures WellShaped(u)
  {
  }

  lemma PurgeQueueEntry()
    ensures WellShaped(PurgeQueue)
  {
  }

  /**
   Every entry takes `Arity(u)` arguments, its literals contain no `%`, and
   it starts with a non-empty literal that does not start with `/`.
   */
  lemma TableArity(u: Url)
    ensures WellShaped(u)
  {
    match u
    case Overview | AllQueues | AllExchanges => OverviewQueuesExchangesEntries(u);
    case AllChannels | AllConnections => ChannelsConnectionsEntries(u);
    case AllNodes | AllVhosts | AllUsers | Whoami => NodesVhostsUsersWhoamiEntries(u);
    case QueuesByVhost | ExchangesByVhost => QueuesExchangesByVhostEntries(u);
    case LiveTest | ConnectionsByName => LiveTestConnectionsByNameEntries(u);
    case QueuesByName | ExchangeByName => ByNameEntries(u);
    case PurgeQueue => PurgeQueueEntry();
  }

  /** The entries the client uses without `%`, as the strings it sends. */
  lemma RawEntries()
    ensures Raw(Overview) == "overview" && Raw(AllQueues) == "queues"
    ensures Raw(AllExchanges) == "exchanges" && Raw(AllChannels) == "channels"
    ensures Raw(AllConnections) == "connections" && Raw(AllVhosts) == "vhosts"
    ensures Raw(AllUsers) == "users" && Raw(Whoami) == "whoami"
    ensures Raw(ConnectionsByName) == "connections/%s"
  {
    NoHole("overview");
    NoHole("queues");
    NoHole("exchanges");
    NoHole("channels");
    NoHole("connections");
    NoHole("vhosts");
    NoHole("users");
    NoHole("whoami");
    OneHole("connections/", "");
  }

  /**
   The entries the client formats with `%`, and `nodes`, as the source
   literals they are; with `RawEntries` this gives every string of the table.
   */
  lemma TableText()
    ensures Raw(AllNodes) == "nodes"
    ensures Raw(QueuesByVhost) == "queues/%s" && Raw(ExchangesByVhost) == "exchanges/%s"
    ensures Raw(LiveTest) == "aliveness-test/%s"
    ensures Raw(QueuesByName) == "queues/%s/%s" && Raw(ExchangeByName) == "exchanges/%s/%s"
    ensures Raw(PurgeQueue) == "queues/%s/%s/contents"
  {
    OneArgumentText();
    ByNameText();
    PurgeQueueText();
  }

  /*
   `TableText` in three parts, so that the solver spells out the text of
   only a few entries at a time.
   */

  lemma OneArgumentText()
    ensures Raw(AllNodes) == "nodes"
    ensures Raw(QueuesByVhost) == "queues/%s" && Raw(ExchangesByVhost) == "exchanges/%s"
    ensures Raw(LiveTest) == "aliveness-test/%s"
  {
  }

  lemma ByNameText()
    ensures Raw(QueuesByName) == "queues/%s/%s" && Raw(ExchangeByName) == "exchanges/%s/%s"
  {
    LitHoleLitHole("queues/", "/", "", "");
    assert "queues/" + "%s" + "/" + "%s" == "queues/%s/%s";
    LitHoleLitHole("exchanges/", "/", "", "");
    assert "exchanges/" + "%s" + "/" + "%s" == "exchanges/%s/%s";
  }

  lemma PurgeQueueText()
    ensures Raw(PurgeQueue) == "queues/%s/%s/contents"
  {
    LitHoleLitHoleLit("queues/", "/", "/contents", "", "");
    assert "queues/" + "%s" + "/" + "%s" + "/contents" == "queues/%s/%s/contents";
  }

  /** Python's `%` on the table entry does what `Fill` says, and fails on a wrong argument count. */
  lemma TableFormatsAsPython(u: Url, args: seq<string>)
    ensures Format(Raw(u), args) == if |args| == Arity(u) then Some(Fill(u, args)) else None
  {
    TableArity(u);
    FormatText(UrlTemplate(u), args);
  }

  /** A rendered path starts with the entry's first literal, so never with `/`. */
  lemma RenderedStartsWithLiteral(u: Url, args: seq<string>)
    requires |args| == Arity(u)
    ensures var p := Fill(u, args); |p| > 0 && p[0] != '/' && p[0] == UrlTemplate(u)[0].text[0]
  {
    TableArity(u);
    var t := UrlTemplate(u);
    assert Render(t, args) == t[0].text + Render(t[1..], args);
  }

  /** The same for the entry used raw. */
  lemma RawStartsWithLiteral(u: Url)
    ensures |Raw(u)| > 0 && Raw(u)[0] != '/'
  {
    TableArity(u);
    var t := UrlTemplate(u);
    assert Text(t) == t[0].text + Text(t[1..]);
  }

  /**
   Python's two-argument `os.path.join(a, b)` on POSIX: an absolute `b`
   replaces `a`; otherwise a `/` separates them unless `a` is empty or
   already ends with one.
   */
  function Join(a: string, b: string): (r: string)
    ensures |b| > 0 && b[0] == '/' ==> r == b
    ensures (|b| == 0 || b[0] != '/') && |a| > 0 && a[|a| - 1] != '/' ==> r == a + "/" + b
    ensures (|b| == 0 || b[0] != '/') && (|a| == 0 || a[|a| - 1] == '/') ==> r == a + b
  {
    if |b| > 0 && b[0] == '/' then b
    else if |a| == 0 || a[|a| - 1] == '/' then a + b
    else a + "/" + b
  }

  /** The literal `'http://%s/api'` that `base_url` is formatted from. */
  const BaseTemplate: Template := [Lit("http://"), Hole, Lit("/api")]

  /** `HTTPClient(server, ...).base_url`. */
  function BaseUrl(server: string): (r: string)
    ensures r == "http://" + server + "/api"
  {
    Render(BaseTemplate, [server])
  }

  /** Python's `'http://%s/api' % server` is `BaseUrl(server)` for every server string. */
  lemma BaseUrlAsPython(server: string)
    ensures Format("http://%s/api", [server]) == Some(BaseUrl(server))
  {
    assert Text(BaseTemplate) == "http://%s/api";
    assert PlainLits(BaseTemplate) by {
      assert Plain("http://") && Plain("/api");
    }
    FormatText(BaseTemplate, [server]);
  }

  /** The reference form of every request URI the client sends. */
  function ApiUri(server: string, path: string): string
  {
    "http://" + server + "/api/" + path
  }

  /**
   `os.path.join(self.base_url, path)`. `base_url` ends in `api`, never in
   `/`, so a relative path is appended after one `/`; an absolute path
   (which no endpoint produces) would replace the base.
   */
  function Uri(server: string, path: string): (r: string)
    ensures |path| == 0 || path[0] != '/' ==> r == ApiUri(server, path)
    ensures |path| > 0 && path[0] == '/' ==> r == path
  {
    var base := BaseUrl(server);
    assert base[|base| - 1] == 'i';
    Join(base, path)
  }

  /** Python truthiness of an optional string argument: `None` and `""` are false. */
  predicate Truthy(o: Option<string>)
  {
    o.Some? && o.value != ""
  }

  /** `get_queues`: the by-vhost entry for a truthy `vhost`, else the raw "all" entry. */
  function QueuesPath(vhost: Option<string>): (p: string)
    ensures Truthy(vhost) ==> p == "queues/" + vhost.value
    ensures !Truthy(vhost) ==> p == "queues"
  {
    if Truthy(vhost) then OneHole("queues/", vhost.value); Fill(QueuesByVhost, [vhost.value])
    else NoHole("queues"); Raw(AllQueues)
  }

  /** `get_queue`. */
  function QueuePath(vhost: string, name: string): (p: string)
    ensures p == "queues/" + vhost + "/" + name
  {
    QueuesByNameShape(vhost, name);
    Fill(QueuesByName, [vhost, name])
  }

  /** `purge_queue`. */
  function PurgePath(vhost: string, name: string): (p: string)
    ensures p == "queues/" + vhost + "/" + name + "/contents"
  {
    PurgeQueueShape(vhost, name);
    Fill(PurgeQueue, [vhost, name])
  }

  /** `get_exchanges`: the by-vhost entry for a truthy `vhost`, else the raw "all" entry. */
  function ExchangesPath(vhost: Option<string>): (p: string)
    ensures Truthy(vhost) ==> p == "exchanges/" + vhost.value
    ensures !Truthy(vhost) ==> p == "exchanges"
  {
    if Truthy(vhost) then OneHole("exchanges/", vhost.value); Fill(ExchangesByVhost, [vhost.value])
    else NoHole("exchanges"); Raw(AllExchanges)
  }

  /** `get_exchange`. */
  function ExchangePath(vhost: string, name: string): (p: string)
    ensures p == "exchanges/" + vhost + "/" + name
  {
    ExchangeByNameShape(vhost, name);
    Fill(ExchangeByName, [vhost, name])
  }

  /**
   `get_connections`: for a truthy `name` the by-name entry is used RAW,
   without `% name`, so the path is the literal `connections/%s`.
   */
  function ConnectionsPath(name: Option<string>): (p: string)
    ensures Truthy(name) ==> p == "connections/%s"
    ensures !Truthy(name) ==> p == "connections"
  {
    if Truthy(name) then Raw(ConnectionsByName) else Raw(AllConnections)
  }

  /** `is_alive`. */
  function AlivePath(vhost: string): (p: string)
    ensures p == "aliveness-test/" + vhost
  {
    OneHole("aliveness-test/", vhost);
    Fill(LiveTest, [vhost])
  }

  /** The name given to `get_connections` never reaches the path. */
  lemma ConnectionsPathIgnoresName(a: string, b: string)
    requires a != "" && b != ""
    ensures ConnectionsPath(Some(a)) == ConnectionsPath(Some(b))
    ensures ConnectionsPath(Some(a)) == "connections/" + a <==> a == "%s"
  {
    var p := "connections/%s";
    if p == "connections/" + a {
      assert a == p[12..];
    }
  }

  /** In a queue path, the vhost's characters follow `queues/`, then comes a `/`. */
  lemma VhostInQueuePath(v: string, n: string)
    ensures forall i :: 0 <= i < |v| ==> QueuePath(v, n)[7 + i] == v[i]
    ensures QueuePath(v, n)[7 + |v|] == '/'
  {
  }

  /**
   A queue path names one queue as long as the vhost holds no `/`: the
   first `/` after `queues/` then ends the vhost. `QueuePathsCollide` shows
   what goes wrong when it does hold one.
   */
  lemma QueuePathInjective(v1: string, n1: string, v2: string, n2: string)
    requires '/' !in v1 && '/' !in v2
    ensures QueuePath(v1, n1) == QueuePath(v2, n2) <==> v1 == v2 && n1 == n2
  {
    if QueuePath(v1, n1) == QueuePath(v2, n2) {
      var p := QueuePath(v1, n1);
      VhostInQueuePath(v1, n1);
      VhostInQueuePath(v2, n2);
      if |v1| != |v2| {
        // position `7 + min(|v1|, |v2|)` holds `/` and a vhost character
        assert false;
      }
      assert v1 == p[7..7 + |v1|];
      assert v2 == p[7..7 + |v2|];
      assert n1 == p[8 + |v1|..];
      assert n2 == p[8 + |v2|..];
    }
  }

  /**
   `%s` inserts the vhost and the name verbatim, with no URL encoding, so a
   `/` inside either one moves the boundary between them: two different
   queues can share one path.
   */
  lemma QueuePathsCollide(v: string, m: string, n: string)
    ensures QueuePath(v + "/" + m, n) == QueuePath(v, m + "/" + n)
  {
  }

  /** The same holds for the contents path that `purge_queue` deletes. */
  lemma PurgePathsCollide(v: string, m: string, n: string)
    ensures PurgePath(v + "/" + m, n) == PurgePath(v, m + "/" + n)
  {
  }

  /** And for the by-name exchange path. */
  lemma ExchangePathsCollide(v: string, m: string, n: string)
    ensures ExchangePath(v + "/" + m, n) == ExchangePath(v, m + "/" + n)
  {
  }

  /** Concretely: the queue `c` in vhost `a/b` and the queue `b/c` in vhost `a`. */
  lemma QueuePathCollisionExample()
    ensures ("a/b", "c") != ("a", "b/c")
    ensures QueuePath("a/b", "c") == QueuePath("a", "b/c")
  {
    QueuePathsCollide("a", "b", "c");
  }
}
