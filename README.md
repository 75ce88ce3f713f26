# pyrabbit HTTP client core, modelled in Dafny

This project models the decision logic of the management-API client in
`pyrabbit/http.py`. That logic has two parts:

* **Request-path construction.** `HTTPClient.urls` is a table of path
  templates. Holes are filled with Python's `%` operator. That gives a path,
  which `os.path.join` appends to `base_url = 'http://<server>/api'`. Some
  endpoints pick their template by the truthiness of an optional argument.
* **Outcome and error translation.** `do_call` returns only on status 200.
  Any other status raises `HTTPError(status, reason, path)`, and a transport
  exception raises `NetworkError`. `is_alive` turns a 404 into `APIError`,
  `get_users` turns a 401 into `APIError`, and `purge_queue` treats a 204 as
  success.

The code has no loops and no state that changes after construction, so
everything is pure functions and lemmas:

* `templates.dfy` (module `Templates`): a template is a sequence of literal
  pieces and holes. `Text` gives the Python string literal and `Render`
  fills the holes. `Format` is Python's `%` operator on strings, restricted
  to the `%s` and `%%` conversions. The lemma `FormatText` ties them
  together: `%` on the literal succeeds exactly when the number of arguments
  equals the number of holes, and its result is `Render`. Arguments go in
  verbatim and in order, with no URL encoding.
* `decimal.dfy` (module `Decimal`): `str(int)`, used for the status in an
  `HTTPError` message, plus its inverse and a round-trip proof.
* `paths.dfy` (module `Paths`): the `urls` table, `base_url`,
  `os.path.join`, and the path chosen by each endpoint.
* `http.dfy` (module `Http`): the error datatype, `do_call`, and every
  endpoint method.
* `calls.dfy` (module `Calls`): all endpoint methods as one `Call` datatype.
  `Translate` states the outcome rules of every method as a function of the
  reply alone, and the lemmas prove the rules that hold across all methods.

The transport (`httplib2.Http().request`) is a function parameter
`net: Request -> Reply`. A `Reply` is either `TransportFailure(msg)` (any
exception) or `Received(Response(status, reason, content))`. An endpoint
that returns decoded JSON is modelled as returning the response body that
`decode_json_content` would decode.

Two quirks of the code are reproduced and proved:

* The `False` branch of `is_alive` is dead. `do_call` returns only on a 200,
  so whenever `is_alive` returns, it returns `True`.
* `get_connections(name)` uses the entry `'connections/%s'` without `% name`.
  The request therefore goes to the literal path `connections/%s` whatever
  the name is.
* The docstring of `is_alive` (pyrabbit/http.py:111) says a missing vhost
  raises `HTTPError`, but the code (pyrabbit/http.py:119-121) raises
  `APIError` on a 404. The model follows the code.

Arguments are inserted without URL encoding, so a `/` inside a vhost or a
name moves the boundary between the two: the queue `c` in vhost `a/b` and
the queue `b/c` in vhost `a` share one path. The lemmas `*PathsCollide`
state this.

## Model

| member | source | states |
|---|---|---|
| `Templates.Render` | pyrabbit/http.py:50-56 | a template without holes renders to its own literal text |
| `Templates.Format` | pyrabbit/http.py:50-56 | Python's `%` restricted to `%s` and `%%`: a format string without `%` comes back unchanged when given no arguments, and raises ("not all arguments converted") when given some |
| `Templates.FormatPlainPrefix` | pyrabbit/http.py:41-56 | Python's `%` copies `%`-free text in front of the format string unchanged |
| `Templates.FormatText` | pyrabbit/http.py:50-56 | `%` on a template's literal succeeds iff the argument count equals the hole count, and then inserts the arguments verbatim and in order |
| `Decimal.NatStr` | pyrabbit/http.py:16 | the digits of a natural number are a non-empty run of decimal digits with no leading zero |
| `Decimal.Str` | pyrabbit/http.py:16 | `str(n)` is non-empty and starts with `-` exactly for negative `n` |
| `Decimal.NatStrRoundTrip` | pyrabbit/http.py:16 | reading the digits of `n` back gives `n` |
| `Decimal.StrRoundTrip` | pyrabbit/http.py:16 | parsing `str(n)` gives `n` for every integer, negative ones included |
| `Decimal.StrInjective` | pyrabbit/http.py:16 | two statuses have the same text iff they are equal |
| `Decimal.NoSpaceInStr` | pyrabbit/http.py:16 | the text of a status never contains a space |
| `Paths.UrlTemplate` | pyrabbit/http.py:41-56 | each entry of `HTTPClient.urls` starts with a non-empty literal not beginning with `/`, and its literals and `%s` conversions alternate; the exact strings of all sixteen entries are pinned by `RawEntries` and `TableText` |
| `Paths.TableArity` | pyrabbit/http.py:41-56 | each table entry takes the documented number of arguments, has no `%` in its literals, and starts with a non-empty literal not beginning with `/` |
| `Paths.RawEntries` | pyrabbit/http.py:41-56 | the entries used without `%` are exactly the strings `overview`, `queues`, …, `whoami` and `connections/%s` |
| `Paths.TableText` | pyrabbit/http.py:46-56 | the entries formatted with `%`, and `nodes`, are exactly `nodes`, `queues/%s`, `queues/%s/%s`, `exchanges/%s`, `exchanges/%s/%s`, `aliveness-test/%s` and `queues/%s/%s/contents` |
| `Paths.QueuesByNameShape` | pyrabbit/http.py:51 | the `queues_by_name` entry filled with `(v, n)` is `"queues/" + v + "/" + n` and takes two arguments |
| `Paths.ExchangeByNameShape` | pyrabbit/http.py:53 | the `exchange_by_name` entry filled with `(v, n)` is `"exchanges/" + v + "/" + n` and takes two arguments |
| `Paths.PurgeQueueShape` | pyrabbit/http.py:55 | the `purge_queue` entry filled with `(v, n)` is `"queues/" + v + "/" + n + "/contents"` and takes two arguments |
| `Paths.TableFormatsAsPython` | pyrabbit/http.py:41-56 | Python's `%` on any entry equals `Fill` when given the right number of arguments, and raises otherwise |
| `Paths.RenderedStartsWithLiteral` | pyrabbit/http.py:41-56 | a filled entry is non-empty and never starts with `/`, whatever the arguments |
| `Paths.RawStartsWithLiteral` | pyrabbit/http.py:41-56 | an entry used raw is non-empty and never starts with `/` |
| `Paths.Join` | pyrabbit/http.py:114-115 | `os.path.join(a, b)`: an absolute `b` replaces `a`; otherwise one `/` separates them unless `a` is empty or ends in `/` |
| `Paths.BaseUrl` | pyrabbit/http.py:69 | `base_url` is `"http://" + server + "/api"` |
| `Paths.BaseUrlAsPython` | pyrabbit/http.py:69 | `'http://%s/api' % server` succeeds and equals `BaseUrl(server)` for every server string |
| `Paths.Uri` | pyrabbit/http.py:114-115 | joining `base_url` with a relative path gives `"http://" + server + "/api/" + path`; an absolute path would replace it |
| `Paths.QueuesPath` | pyrabbit/http.py:197-200 | a non-empty vhost gives `"queues/" + vhost`; `None` or `""` gives `"queues"` |
| `Paths.QueuePath` | pyrabbit/http.py:214 | the path is `"queues/" + vhost + "/" + name` |
| `Paths.PurgePath` | pyrabbit/http.py:227 | the path is `"queues/" + vhost + "/" + name + "/contents"` |
| `Paths.ExchangesPath` | pyrabbit/http.py:244-247 | a non-empty vhost gives `"exchanges/" + vhost`; `None` or `""` gives `"exchanges"` |
| `Paths.ExchangePath` | pyrabbit/http.py:262 | the path is `"exchanges/" + vhost + "/" + name` |
| `Paths.ConnectionsPath` | pyrabbit/http.py:273-276 | a non-empty name gives the literal `"connections/%s"`; `None` or `""` gives `"connections"` |
| `Paths.AlivePath` | pyrabbit/http.py:114-115 | the path is `"aliveness-test/" + vhost` |
| `Paths.ConnectionsPathIgnoresName` | pyrabbit/http.py:273-274 | any two non-empty names give the same path, and the path names the connection only when the name is `%s` itself |
| `Paths.QueuePathInjective` | pyrabbit/http.py:214 | when neither vhost contains `/`, two queue paths are equal iff the vhosts and the names are equal |
| `Paths.QueuePathsCollide` | pyrabbit/http.py:214 | arguments go in without URL encoding, so `get_queue(v + "/" + m, n)` and `get_queue(v, m + "/" + n)` request the same path |
| `Paths.PurgePathsCollide` | pyrabbit/http.py:227 | the same collision for the path `purge_queue` deletes |
| `Paths.ExchangePathsCollide` | pyrabbit/http.py:262 | the same collision for `get_exchange` |
| `Paths.QueuePathCollisionExample` | pyrabbit/http.py:214 | the queue `c` in vhost `a/b` and the queue `b/c` in vhost `a` have one path |
| `Http.Output` | pyrabbit/http.py:16 | `str(HTTPError)` is `str(status) + " - " + reason + " (" + path + ")"` |
| `Http.OutputAsPython` | pyrabbit/http.py:16 | Python's `"%s - %s (%s)" % (...)` succeeds and gives `Output` |
| `Http.StatusTextEndsAtSpace` | pyrabbit/http.py:16 | in an error's output, the status text is followed by the first space |
| `Http.OutputDeterminesStatus` | pyrabbit/http.py:13-16 | two errors with the same output have the same status |
| `Http.DoCall` | pyrabbit/http.py:91-100 | success iff the response status is 200, returning that response; any other status gives `HTTPError` with that status, reason and path; a transport failure gives `NetworkError` with its message and nothing else does; `do_call` never raises `APIError` |
| `Http.Content` | pyrabbit/http.py:136 | decoding after a call keeps a raised error unchanged and yields the body of a successful call |
| `Http.Get` | pyrabbit/http.py:134-137 | a GET on `os.path.join(base_url, path)`: a 200 gives the body, any other status gives `HTTPError` with the joined URI, a transport failure gives `NetworkError` |
| `Http.NoVhostMessage` | pyrabbit/http.py:121 | the message is `"No vhost named '" + vhost + "'"` |
| `Http.NoVhostMessageAsPython` | pyrabbit/http.py:121 | Python's `"No vhost named '%s'" % vhost` succeeds and gives `NoVhostMessage(vhost)` for every vhost string |
| `Http.IsAlive` | pyrabbit/http.py:114-127 | GET on `.../api/aliveness-test/<vhost>`: 200 gives `True`; 404 gives `APIError` naming the vhost; any other status gives `HTTPError` with the full URI; a transport failure gives `NetworkError`; it never returns `False` |
| `Http.IsAliveDefaultUri` | pyrabbit/http.py:102 | with no vhost given, the request goes to `.../api/aliveness-test/%2F` with `%2F` sent unchanged; a 200 gives `True` and a 404 gives `APIError("No vhost named '%2F'")` |
| `Http.GetWhoami` | pyrabbit/http.py:134-137 | GET on `.../api/whoami` under `do_call`'s rule, unchanged; returns the body |
| `Http.GetUsers` | pyrabbit/http.py:150-161 | GET on `.../api/users`: 200 gives the body; 401 gives `APIError("Only admin can access user data")`; any other status gives `HTTPError` unchanged; a transport failure gives `NetworkError` |
| `Http.GetOverview` | pyrabbit/http.py:169-174 | GET on `.../api/overview` under `do_call`'s rule, unchanged |
| `Http.GetAllVhosts` | pyrabbit/http.py:181-186 | GET on `.../api/vhosts` under `do_call`'s rule, unchanged |
| `Http.GetQueues` | pyrabbit/http.py:197-204 | GET on `.../api/queues/<vhost>` for a non-empty vhost, else on `.../api/queues`, under `do_call`'s rule |
| `Http.GetQueue` | pyrabbit/http.py:214-217 | GET on `.../api/queues/<vhost>/<name>` under `do_call`'s rule |
| `Http.PurgeQueue` | pyrabbit/http.py:227-235 | DELETE on `.../api/queues/<vhost>/<name>/contents`: 200 and 204 give `True`; any other status gives `HTTPError` unchanged; a transport failure gives `NetworkError`; it never returns `False` |
| `Http.GetExchanges` | pyrabbit/http.py:244-251 | GET on `.../api/exchanges/<vhost>` for a non-empty vhost, else on `.../api/exchanges`, under `do_call`'s rule |
| `Http.GetExchange` | pyrabbit/http.py:262-265 | GET on `.../api/exchanges/<vhost>/<name>` under `do_call`'s rule |
| `Http.GetConnections` | pyrabbit/http.py:273-279 | GET on the literal `.../api/connections/%s` for a non-empty name, else on `.../api/connections`, under `do_call`'s rule |
| `Http.GetChannels` | pyrabbit/http.py:286-289 | GET on `.../api/channels` under `do_call`'s rule, unchanged |
| `Calls.InvokeIsTranslate` | pyrabbit/http.py:91-289 | every endpoint method sends exactly one request, to `"http://" + server + "/api/" + PathOf(call)` (DELETE for `purge_queue`, GET otherwise), and its outcome is the function `Translate` of the reply alone |
| `Calls.RewritingCallsTranslate` | pyrabbit/http.py:114-235 | `is_alive`, `get_users` and `purge_queue`, which rewrite `do_call`'s outcome, follow `Translate` |
| `Calls.PlainCallsTranslate` | pyrabbit/http.py:134-289 | the nine methods that return `do_call`'s outcome unchanged follow `Translate` |
| `Calls.PathsAreRelative` | pyrabbit/http.py:41-56 | no endpoint's path starts with `/`, so `os.path.join` always keeps `base_url` |
| `Calls.OnlyItsRequest` | pyrabbit/http.py:91-92 | each method sends one request, DELETE for `purge_queue` and GET otherwise, and its outcome depends only on the reply to that request |
| `Calls.TransportFailureIsNetworkError` | pyrabbit/http.py:91-95 | in every method a transport exception becomes `NetworkError` with its message, and a `NetworkError` arises only from one |
| `Calls.StatusRules` | pyrabbit/http.py:97-100 | across all methods: success iff the status is accepted (200, and 204 for `purge_queue`); `APIError` iff the status is rewritten (404 for `is_alive`, 401 for `get_users`); every other status gives `HTTPError` with that status, reason and the full request URI |
| `Calls.SuccessValues` | pyrabbit/http.py:124-127 | a successful `is_alive` or `purge_queue` returns `True`; every other method returns the response body |

## Left out

- The httplib2 transport, connection handling and `add_credentials` (pyrabbit/http.py:67-68, 92) are foreign calls. They appear only as the `net` parameter. The credentials are kept in `HTTPClient` and reach nothing else.
- `decode_json_content` (UTF-8 decoding and `json.loads`, pyrabbit/http.py:71-80) is not modelled. Endpoints return the undecoded body. The `UnicodeDecodeError` or `ValueError` a bad body would raise is not modelled either.
- The text of a `NetworkError` is the transport's own message. The `"Error: <type> <exception>"` wrapper built from Python's `type()` repr is not modelled.
- `Paths.Join`: models `posixpath.join`, which is `os.path.join` on POSIX systems. On Windows `os.path.join` is `ntpath.join`, which would join with `\` (`http://h/api\queues`); that case is not modelled.
- `Templates.Format`: Python `%` conversions other than `%s` and `%%` are treated as errors. The table uses none of them.
- Only strings are modelled as arguments. Python truthiness of other values (`0`, `[]`) and `%s` applied to non-strings are not modelled.
- `HTTPError`'s default `None` fields (pyrabbit/http.py:12) are not modelled, because the client always builds it with three values.
- The exception class hierarchy is replaced by the constructors of one `Error` datatype.
