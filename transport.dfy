/** The HTTP transport of client.go: the option defaults of NewTransport, the request
    and response values it handles, and the User-Agent rule of RoundTrip. */
module Transport {
  import opened Outcomes

  /** time.Duration counts nanoseconds. */
  const Millisecond := 1_000_000
  const DefaultTimeout := 500 * Millisecond

  const UserAgentKey := "User-Agent"

  /** An http.RoundTripper: the shared default transport or another one, told apart by identity. */
  datatype RoundTripper = DefaultTransport | CustomTransport(id: nat)

  /** A middleware.Middleware value, told apart by identity. */
  datatype Middleware = Middleware(id: nat)

  /** The ClientOption values the With... functions return. */
  datatype ClientOption =
    | WithTimeout(d: int)
    | WithUserAgent(ua: string)
    | WithTransport(rt: RoundTripper)
    | WithMiddleware(m: Option<Middleware>)

  /** The fields of clientOptions that reach the transport. */
  datatype ClientOptions = ClientOptions(
    timeout: int,
    userAgent: string,
    transport: RoundTripper,
    middleware: Option<Middleware>)

  /** baseTransport */
  datatype BaseTransport = BaseTransport(
    userAgent: string,
    timeout: int,
    base: RoundTripper,
    middleware: Option<Middleware>)

  function TimeoutOf(o: ClientOption): Option<int> {
    if o.WithTimeout? then Some(o.d) else None
  }

  function UserAgentOf(o: ClientOption): Option<string> {
    if o.WithUserAgent? then Some(o.ua) else None
  }

  function TransportOf(o: ClientOption): Option<RoundTripper> {
    if o.WithTransport? then Some(o.rt) else None
  }

  function MiddlewareOf(o: ClientOption): Option<Option<Middleware>> {
    if o.WithMiddleware? then Some(o.m) else None
  }

  /** The value the last option that sets a field gives it, or the default when none does. */
  function LastSet<T>(opts: seq<ClientOption>, pick: ClientOption -> Option<T>, default: T): T
    decreases |opts|
  {
    if opts == [] then default
    else match pick(opts[|opts| - 1])
      case Some(v) => v
      case None => LastSet(opts[..|opts| - 1], pick, default)
  }

  /** A field no option sets keeps its default. */
  lemma {:induction false} LastSetDefault<T>(opts: seq<ClientOption>, pick: ClientOption -> Option<T>, default: T)
    requires forall i :: 0 <= i < |opts| ==> pick(opts[i]).None?
    ensures LastSet(opts, pick, default) == default
    decreases |opts|
  {
    if opts != [] {
      LastSetDefault(opts[..|opts| - 1], pick, default);
    }
  }

  /** Options apply in order, so the last one that sets a field wins. */
  lemma {:induction false} LastSetWins<T>(opts: seq<ClientOption>, pick: ClientOption -> Option<T>, default: T, k: nat)
    requires k < |opts| && pick(opts[k]).Some?
    requires forall i :: k < i < |opts| ==> pick(opts[i]).None?
    ensures LastSet(opts, pick, default) == pick(opts[k]).value
    decreases |opts|
  {
    if k < |opts| - 1 {
      LastSetWins(opts[..|opts| - 1], pick, default, k);
    }
  }

  /** The options in effect after applying opts, in order, to the defaults. */
  function Effective(opts: seq<ClientOption>): ClientOptions {
    ClientOptions(
      LastSet(opts, TimeoutOf, DefaultTimeout),
      LastSet(opts, UserAgentOf, ""),
      LastSet(opts, TransportOf, DefaultTransport),
      LastSet(opts, MiddlewareOf, None))
  }

  /** NewTransport: applies the options one by one to the defaults (a 500 ms timeout, the
      default transport, no User-Agent, no middleware). It never fails. */
  method NewTransport(opts: seq<ClientOption>) returns (t: BaseTransport)
    ensures var e := Effective(opts);
            t == BaseTransport(e.userAgent, e.timeout, e.transport, e.middleware)
  {
    var options := ClientOptions(DefaultTimeout, "", DefaultTransport, None);
    for i := 0 to |opts|
      invariant options == Effective(opts[..i])
    {
      assert opts[..i + 1][..i] == opts[..i];
      match opts[i]
      case WithTimeout(d) => options := options.(timeout := d);
      case WithUserAgent(ua) => options := options.(userAgent := ua);
      case WithTransport(rt) => options := options.(transport := rt);
      case WithMiddleware(m) => options := options.(middleware := m);
    }
    assert opts[..|opts|] == opts;
    t := BaseTransport(options.userAgent, options.timeout, options.transport, options.middleware);
  }

  /** http.Header: each key with its list of values. */
  type Header = map<string, seq<string>>

  /** Header.Get: the first value of key, or "". */
  function HeaderGet(h: Header, key: string): string {
    if key in h && |h[key]| > 0 then h[key][0] else ""
  }

  /** The header after RoundTrip's rule: the configured User-Agent is set only when one
      is configured and the request has none; every other key is left as it was. */
  function DefaultUserAgent(h: Header, ua: string): (r: Header)
    ensures HeaderGet(r, UserAgentKey) ==
              if HeaderGet(h, UserAgentKey) != "" then HeaderGet(h, UserAgentKey) else ua
    ensures forall k :: k != UserAgentKey ==> (k in r <==> k in h) && (k in h ==> r[k] == h[k])
    ensures (ua == "" || HeaderGet(h, UserAgentKey) != "") ==> r == h
  {
    if ua != "" && HeaderGet(h, UserAgentKey) == "" then h[UserAgentKey := [ua]] else h
  }

  /** An outgoing request; only its header changes after it is made. */
  class Request {
    const httpMethod: string
    const url: string
    const body: seq<bv8>
    var header: Header

    /** The request http.NewRequest builds: an empty method means GET, and the header is empty. */
    constructor (httpMethod: string, url: string, body: seq<bv8>)
      ensures this.httpMethod == (if httpMethod == "" then "GET" else httpMethod)
      ensures this.url == url && this.body == body && header == map[]
    {
      this.httpMethod := if httpMethod == "" then "GET" else httpMethod;
      this.url := url;
      this.body := body;
      header := map[];
    }
  }

  /** A response: its status code, its header, and what reading its body gives. */
  datatype Response = Response(statusCode: int, header: Header, body: Result<seq<bv8>, Error>)

  /** The handler a round trip goes through: the base transport, or the middleware around it. */
  datatype Handler = Direct(base: RoundTripper) | Wrapped(m: Middleware, base: RoundTripper)

  function HandlerOf(t: BaseTransport): (h: Handler)
    ensures h.base == t.base
    ensures h.Wrapped? <==> t.middleware.Some?
    ensures h.Wrapped? ==> h.m == t.middleware.value
  {
    match t.middleware
    case Some(m) => Wrapped(m, t.base)
    case None => Direct(t.base)
  }

  /** baseTransport.RoundTrip: applies the User-Agent rule to the request in place, then
      hands it to the handler; exchange stands for what that handler, run under a
      deadline of t.timeout, returns. */
  method RoundTrip(t: BaseTransport, req: Request, exchange: Handler -> Result<Response, Error>)
    returns (res: Result<Response, Error>)
    modifies req
    ensures req.header == DefaultUserAgent(old(req.header), t.userAgent)
    ensures res == exchange(HandlerOf(t))
  {
    if t.userAgent != "" && HeaderGet(req.header, UserAgentKey) == "" {
      req.header := req.header[UserAgentKey := [t.userAgent]];
    }
    res := exchange(HandlerOf(t));
  }
}
