/** The client of client.go: content-type parsing and codec choice, target parsing,
    status classification, and the Client that keeps one resolver per service name. */
module HttpClient {
  import opened Outcomes
  import opened Strings
  import opened Urls
  import opened Resolver
  import opened Transport

  const BaseContentType := "application"
  const ContentTypeKey := "Content-Type"
  const JsonCodec := "json"

  /** contentSubtype as written. None stands for the run-time panic of the slice
      contentType[12:i] when the first ';' is at i = 11, that is for every value
      that starts with "application;". */
  function ContentSubtypeAsWritten(ct: string): (r: Option<string>)
    ensures r.None? <==> HasPrefix(ct, BaseContentType + ";")
    ensures r.Some? && !HasPrefix(ct, BaseContentType + "/") ==> r.value == ""
  {
    if ct == BaseContentType then Some("")
    else if !HasPrefix(ct, BaseContentType) then Some("")
    else
      var n := |BaseContentType|;
      var c := ct[n];
      assert ct == BaseContentType + ct[n..];
      assert ct[..n + 1] == BaseContentType + [c];
      assert ';' !in BaseContentType;
      IndexOfCharAfter(BaseContentType, ct[n..], ';');
      IndexOfChar(ct[n..], ';');
      if c == '/' || c == ';' then
        var i := Index(ct, ";");
        if i != -1 then
          if n + 1 <= i then Some(ct[n + 1..i]) else None
        else Some(ct[n + 1..])
      else Some("")
  }

  /** contentSubtype, corrected: the subtype of an "application/..." content type, up to
      the first ';'; "" for anything else, including "application;..." where the source
      panics. */
  function ContentSubtype(ct: string): (r: string)
    ensures !HasPrefix(ct, BaseContentType + "/") ==> r == ""
    ensures ';' !in r
  {
    if ct == BaseContentType || !HasPrefix(ct, BaseContentType) then ""
    else
      if ct[|BaseContentType|] == '/' then
        assert ct[..|BaseContentType| + 1] == BaseContentType + "/";
        var i := Index(ct, ";");
        IndexOfChar(ct, ';');
        if i != -1 then
          assert forall j :: 0 <= j <= |BaseContentType| ==> ct[j] != ';' by {
            forall j | 0 <= j <= |BaseContentType| ensures ct[j] != ';' {
              assert ct[j] == (BaseContentType + "/")[j];
            }
          }
          assert ct[|BaseContentType| + 1..i] == ct[..i][|BaseContentType| + 1..];
          ct[|BaseContentType| + 1..i]
        else ct[|BaseContentType| + 1..]
      else ""
  }

  /** After "application/", the subtype is everything up to the first ';', or everything. */
  lemma ContentSubtypeOfApplication(s: string)
    ensures ContentSubtype(BaseContentType + "/" + s) == Before(s, ";")
  {
    var p := BaseContentType + "/";
    var ct := p + s;
    assert ';' !in p;
    IndexOfCharAfter(p, s, ';');
    assert ct[..|BaseContentType|] == BaseContentType;
    assert ct[|BaseContentType|] == '/';
    var i := Index(s, ";");
    IndexOfChar(s, ';');
    if i != -1 {
      assert ct[|p|..|p| + i] == s[..i];
    } else {
      assert ct[|p|..] == s;
    }
  }

  /** Parameters after a subtype are dropped: "application/json; charset=utf-8" gives "json". */
  lemma ContentSubtypeDropsParameters(sub: string, params: string)
    requires ';' !in sub
    ensures ContentSubtype(BaseContentType + "/" + sub + ";" + params) == sub
  {
    assert BaseContentType + "/" + sub + ";" + params == BaseContentType + "/" + (sub + ";" + params);
    ContentSubtypeOfApplication(sub + ";" + params);
    var s := sub + ";" + params;
    IndexOfChar(s, ';');
    var i := Index(s, ";");
    assert s[|sub|] == ';';
    assert s[..|sub|] == sub;
  }

  /** The source panics on every content type that starts with "application;". */
  lemma ContentSubtypeAsWrittenPanics(params: string)
    ensures ContentSubtypeAsWritten(BaseContentType + ";" + params) == None
  {
    var ct := BaseContentType + (";" + params);
    assert BaseContentType + ";" + params == ct;
    assert ct[..|BaseContentType|] == BaseContentType;
    assert ct[|BaseContentType|] == ';';
    assert ';' !in BaseContentType;
    IndexOfCharAfter(BaseContentType, ";" + params, ';');
    assert Index(";" + params, ";") == 0;
  }

  /** Everywhere else the source and the corrected function agree. */
  lemma ContentSubtypeAsWrittenAgrees(ct: string)
    requires !HasPrefix(ct, BaseContentType + ";")
    ensures ContentSubtypeAsWritten(ct) == Some(ContentSubtype(ct))
  {
    var n := |BaseContentType|;
    if ct != BaseContentType && HasPrefix(ct, BaseContentType) {
      assert |ct| > n;
      assert ct[..n + 1] == BaseContentType + [ct[n]];
      if ct[n] == '/' {
        var p := ct[..n + 1];
        assert p == BaseContentType + "/";
        assert ';' !in p;
        assert ct == p + ct[n + 1..];
        IndexOfCharAfter(p, ct[n + 1..], ';');
      }
    }
  }

  /** parseTarget: splits "scheme://rest" at the first "://", lower-casing the scheme. */
  function ParseTarget(target: string): (r: (string, string, bool))
    ensures !r.2 <==> !Contains(target, "://")
    ensures !r.2 ==> r.0 == "" && r.1 == ""
  {
    var i := Index(target, "://");
    if i == -1 then ("", "", false) else (Lower(target[..i]), target[i + 3..], true)
  }

  /** A scheme without "://" and any rest, joined by "://", split back into the two. */
  lemma ParseTargetRoundTrip(scheme: string, rest: string)
    requires !Contains(scheme, "://")
    ensures ParseTarget(scheme + "://" + rest) == (Lower(scheme), rest, true)
  {
    var t := scheme + "://" + rest;
    var n := |scheme|;
    assert OccursAt(t, "://", n) by { assert t[n..n + 3] == "://"; }
    assert forall j: nat :: j < n ==> !OccursAt(t, "://", j) by {
      forall j: nat | j < n ensures !OccursAt(t, "://", j) {
        if j + 3 <= n {
          assert t[j..j + 3] == scheme[j..j + 3];
          assert !OccursAt(scheme, "://", j);
        } else if j + 3 <= |t| {
          assert t[n] == ':';
          assert t[j..j + 3][n - j] == t[n];
        }
      }
    }
    var i := Index(t, "://");
    assert i == n;
    assert t[..n] == scheme;
    assert t[n + 3..] == rest;
  }

  /** The codec decodeResponse uses: the one registered under the subtype, else "json". */
  function CodecFor(subtype: string, codecs: set<string>): (c: string)
    ensures subtype in codecs ==> c == subtype
    ensures c != subtype ==> c == JsonCodec && subtype !in codecs
    ensures JsonCodec in codecs ==> c in codecs
  {
    if subtype in codecs then subtype else JsonCodec
  }

  /** Where a response body is decoded: into the caller's target, or into the status error value. */
  datatype Sink = IntoTarget | IntoStatusError

  /** One call of a codec's Unmarshal: the codec's name, the bytes, and where they go. */
  datatype Decoding = Decoding(codec: string, data: seq<bv8>, sink: Sink)

  /** The Unmarshal call made, if any, and the error returned, if any. */
  datatype DoResult = DoResult(decoded: Option<Decoding>, err: Option<Error>)

  /** decodeResponse: reads the body and unmarshals it with the codec of the response's
      content type. unmarshal stands for what that codec's Unmarshal returns. */
  function DecodeResponse(res: Response, sink: Sink, codecs: set<string>,
                          unmarshal: Decoding -> Option<Error>): (r: DoResult)
    ensures r.decoded.Some? <==> res.body.Success?
    ensures res.body.Failure? ==> r.err == Some(res.body.error)
    ensures r.decoded.Some? ==>
              && r.decoded.value.sink == sink
              && r.decoded.value.data == res.body.value
              && r.decoded.value.codec == CodecFor(ContentSubtype(HeaderGet(res.header, ContentTypeKey)), codecs)
              && r.err == unmarshal(r.decoded.value)
  {
    var codec := CodecFor(ContentSubtype(HeaderGet(res.header, ContentTypeKey)), codecs);
    match res.body
    case Failure(e) => DoResult(None, Some(e))
    case Success(data) =>
      var d := Decoding(codec, data, sink);
      DoResult(Some(d), unmarshal(d))
  }

  /** Client.Do once the HTTP client has answered: exchange is what c.hc.Do returned. A
      2xx response is decoded into the caller's target; any other is decoded into an
      error value with code 2, which is returned unless decoding it failed. */
  function Do(exchange: Result<Response, Error>, codecs: set<string>,
              unmarshal: Decoding -> Option<Error>): (r: DoResult)
    ensures exchange.Failure? ==> r == DoResult(None, Some(exchange.error))
    ensures r.decoded.Some? ==>
              exchange.Success? &&
              (r.decoded.value.sink == IntoTarget <==> 200 <= exchange.value.statusCode <= 299)
    ensures exchange.Success? && exchange.value.body.Success? ==>
              r.decoded.Some? && r.decoded.value.data == exchange.value.body.value
    ensures JsonCodec in codecs && r.decoded.Some? ==> r.decoded.value.codec in codecs
    ensures exchange.Success? && r.decoded.Some? ==>
              r.decoded.value.codec == CodecFor(ContentSubtype(HeaderGet(exchange.value.header, ContentTypeKey)), codecs)
    ensures exchange.Success? && !(200 <= exchange.value.statusCode <= 299) ==>
              r.err == (if r.decoded.None? then Some(exchange.value.body.error)
                        else if unmarshal(r.decoded.value).Some? then unmarshal(r.decoded.value)
                        else Some(StatusError(2)))
    ensures exchange.Success? && 200 <= exchange.value.statusCode <= 299 ==>
              r.err == (if r.decoded.Some? then unmarshal(r.decoded.value) else Some(exchange.value.body.error))
  {
    match exchange
    case Failure(e) => DoResult(None, Some(e))
    case Success(res) =>
      if res.statusCode < 200 || res.statusCode > 299 then
        var o := DecodeResponse(res, IntoStatusError, codecs, unmarshal);
        if o.err.Some? then o else DoResult(o.decoded, Some(StatusError(2)))
      else DecodeResponse(res, IntoTarget, codecs, unmarshal)
  }

  /** An HTTP client that routes requests for a service name to one of its addresses. */
  class Client {
    const transport: BaseTransport
    var resolvers: map<string, Builder>

    /** Every registered resolver resolves the name it is registered under. */
    ghost predicate Valid()
      reads this
    {
      forall k :: k in resolvers ==> resolvers[k].target == k
    }

    /** NewClient: a client with the transport the options configure and no resolvers.
        NewTransport never fails, so neither does this. */
    constructor (opts: seq<ClientOption>)
      ensures Valid() && resolvers == map[]
      ensures var e := Effective(opts);
              transport == BaseTransport(e.userAgent, e.timeout, e.transport, e.middleware)
    {
      var t := NewTransport(opts);
      transport := t;
      resolvers := map[];
    }

    /** AddDiscovery: builds a resolver for target and registers it only if the build
        succeeded, replacing any earlier resolver for target and no other. */
    method AddDiscovery(target: string, fetched: Result<seq<ServiceInstance>, Error>, watched: Option<Error>)
      returns (err: Option<Error>)
      requires Valid()
      modifies this
      ensures Valid()
      ensures err == (if fetched.Failure? then Some(GetServiceError(target, fetched.error)) else watched)
      ensures err.Some? ==> resolvers == old(resolvers)
      ensures err.None? ==>
                && target in resolvers
                && fresh(resolvers[target])
                && resolvers[target].state == State(AddressesOf(fetched.value))
                && resolvers == old(resolvers)[target := resolvers[target]]
    {
      var b := new Builder(target);
      var e := b.Build(fetched, watched);
      if e.Some? {
        return e;
      }
      resolvers := resolvers[target := b];
      return None;
    }

    /** getAddr: one address of target's current state, taken from the resolver built
        for target, or none when target has no resolver or its state has no address. roll stands for rand.Intn(n), taken
        modulo n, so every address can be picked. */
    method GetAddr(target: string, roll: nat) returns (a: Option<Address>)
      requires Valid()
      ensures a.Some? ==> target in resolvers && resolvers[target].target == target
      ensures a.None? <==> target !in resolvers || resolvers[target].state.addresses == []
      ensures a.Some? ==> a.value in resolvers[target].state.addresses
      ensures a.Some? && roll < |resolvers[target].state.addresses| ==>
                a.value == resolvers[target].state.addresses[roll]
    {
      if target !in resolvers {
        return None;
      }
      var state := resolvers[target].GetState();
      if |state.addresses| == 0 {
        return None;
      }
      a := Some(state.addresses[roll % |state.addresses|]);
    }

    /** NewRequest: a request to "http://" + the picked address + path; the same
        "notfound" error whether target has no resolver or no address. */
    method NewRequest(httpMethod: string, target: string, path: string, body: seq<bv8>, roll: nat)
      returns (r: Result<Request, Error>)
      requires Valid()
      ensures r.Success? ==> target in resolvers && resolvers[target].target == target
      ensures r.Failure? <==> target !in resolvers || resolvers[target].state.addresses == []
      ensures r.Failure? ==> r.error == ResolverNotFound(target)
      ensures r.Success? ==>
                exists a :: a in resolvers[target].state.addresses && r.value.url == "http://" + a.addr + path
      ensures r.Success? && roll < |resolvers[target].state.addresses| ==>
                r.value.url == "http://" + resolvers[target].state.addresses[roll].addr + path
      ensures r.Success? ==>
                && r.value.httpMethod == (if httpMethod == "" then "GET" else httpMethod)
                && r.value.header == map[]
                && r.value.body == body
    {
      var a := GetAddr(target, roll);
      if a.None? {
        return Failure(ResolverNotFound(target));
      }
      var req := new Request(httpMethod, "http://" + a.value.addr + path, body);
      return Success(req);
    }
  }

  /** The flow of the repository's integration test, against a registry that reports
      one instance at host: the request goes to that host. */
  method RequestToResolvedHost(name: string, host: string, md: map<string, string>) returns (url: string)
    requires host != "" && IsPlainHost(host)
    ensures url == "http://" + host + "/api/v1/aaa"
  {
    var c := new Client([]);
    ResolveHttpInstance(name, host, md);
    var err := c.AddDiscovery(name, Success([ServiceInstance(name, ["http://" + host], md)]), None);
    var r := c.NewRequest("POST", name, "/api/v1/aaa", [], 0);
    url := r.value.url;
  }

  /** A service whose only instance has no "http" endpoint resolves to no address, and a
      request for it fails with the "notfound" error. */
  method RequestWithoutHttpInstance(name: string, host: string, md: map<string, string>)
    returns (r: Result<Request, Error>)
    requires IsPlainHost(host)
    ensures r == Failure(ResolverNotFound(name))
  {
    var c := new Client([]);
    SkipNonHttpInstance(name, "grpc", host, md);
    var err := c.AddDiscovery(name, Success([ServiceInstance(name, ["grpc" + "://" + host], md)]), None);
    r := c.NewRequest("GET", name, "/x", [], 0);
  }
}
