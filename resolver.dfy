/** The registry-backed resolver of builder.go: it turns the instances a registry
    reports for one service name into the ordered address list it stores. */
module Resolver {
  import opened Outcomes
  import opened Strings
  import opened Urls

  /** The scheme name the resolver reports (the package constant `name`). */
  const SchemeName := "discovery"

  /** One running instance, as the registry reports it. */
  datatype ServiceInstance = ServiceInstance(
    name: string,
    endpoints: seq<string>,
    metadata: map<string, string>)

  /** The attribute set of an address: each key mapped to its value. */
  type Attributes = map<string, string>

  /** A resolved address: host:port, the instance's name, and its attributes. */
  datatype Address = Address(addr: string, serverName: string, attributes: Attributes)

  /** The resolver state: the address list, replaced as a whole on every update. */
  datatype State = State(addresses: seq<Address>)

  /** parseEndpoint: the host of the first endpoint whose scheme is "http"; "" when
      there is none; the parse error of the first endpoint url.Parse rejects before that. */
  function ParseEndpoint(endpoints: seq<string>): (r: Result<string, Error>)
    ensures r.Success? && r.value != "" ==>
              exists e :: e in endpoints && ParseUrl(e) == Success(Url("http", r.value))
    ensures r.Failure? ==> exists e :: e in endpoints && ParseUrl(e) == Failure(r.error)
  {
    if endpoints == [] then Success("")
    else match ParseUrl(endpoints[0])
      case Failure(e) => Failure(e)
      case Success(u) =>
        if u.scheme == "http" then Success(u.host)
        else
          var r := ParseEndpoint(endpoints[1..]);
          assert forall e :: e in endpoints[1..] ==> e in endpoints;
          r
  }

  /** An endpoint parseEndpoint passes over: it parses, and its scheme is not "http". */
  predicate Skipped(endpoint: string) {
    ParseUrl(endpoint).Success? && ParseUrl(endpoint).value.scheme != "http"
  }

  lemma {:induction false} ParseEndpointSkips(endpoints: seq<string>, k: nat)
    requires k <= |endpoints|
    requires forall j :: 0 <= j < k ==> Skipped(endpoints[j])
    ensures ParseEndpoint(endpoints) == ParseEndpoint(endpoints[k..])
  {
    if k > 0 {
      ParseEndpointSkips(endpoints[1..], k - 1);
      assert endpoints[1..][k - 1..] == endpoints[k..];
    }
  }

  /** The first endpoint that is not passed over decides: an "http" one gives its host,
      whatever comes after it. */
  lemma ParseEndpointFirstHttp(endpoints: seq<string>, k: nat)
    requires k < |endpoints|
    requires forall j :: 0 <= j < k ==> Skipped(endpoints[j])
    requires ParseUrl(endpoints[k]).Success? && ParseUrl(endpoints[k]).value.scheme == "http"
    ensures ParseEndpoint(endpoints) == Success(ParseUrl(endpoints[k]).value.host)
  {
    ParseEndpointSkips(endpoints, k);
  }

  /** An endpoint that does not parse, before any "http" one, fails the whole search,
      even when a valid "http" endpoint follows it. */
  lemma ParseEndpointStopsAtError(endpoints: seq<string>, k: nat)
    requires k < |endpoints|
    requires forall j :: 0 <= j < k ==> Skipped(endpoints[j])
    requires ParseUrl(endpoints[k]).Failure?
    ensures ParseEndpoint(endpoints) == Failure(ParseUrl(endpoints[k]).error)
  {
    ParseEndpointSkips(endpoints, k);
  }

  /** Without any "http" endpoint, and for no endpoints at all, the result is "" and no error. */
  lemma ParseEndpointNoHttp(endpoints: seq<string>)
    requires forall j :: 0 <= j < |endpoints| ==> Skipped(endpoints[j])
    ensures ParseEndpoint(endpoints) == Success("")
  {
    ParseEndpointSkips(endpoints, |endpoints|);
  }

  /** attributes.New: the attribute set of a flat key, value, key, value, ... list; a
      later pair overwrites an earlier one with the same key. It panics on an odd count. */
  function NewAttributes(kvs: seq<string>): Attributes
    requires |kvs| % 2 == 0
    decreases |kvs|
  {
    if kvs == [] then map[]
    else NewAttributes(kvs[..|kvs| - 2])[kvs[|kvs| - 2] := kvs[|kvs| - 1]]
  }

  /** parseAttributes: lists the metadata as key, value pairs, in whatever order the map
      is visited, and builds the attribute set from them. */
  method ParseAttributes(md: map<string, string>) returns (attrs: Attributes)
    ensures attrs == md
  {
    var pairs: seq<string> := [];
    var pending := md.Keys;
    while pending != {}
      invariant pending <= md.Keys
      invariant |pairs| % 2 == 0
      invariant NewAttributes(pairs) == map k | k in md.Keys - pending :: md[k]
      decreases pending
    {
      var k :| k in pending;
      ghost var before := pairs;
      pairs := pairs + [k, md[k]];
      assert pairs[..|pairs| - 2] == before;
      pending := pending - {k};
    }
    attrs := NewAttributes(pairs);
  }

  /** The address one instance contributes, if its endpoints give a non-empty host. */
  function AddressOf(inst: ServiceInstance): Option<Address> {
    match ParseEndpoint(inst.endpoints)
    case Failure(_) => None
    case Success(host) =>
      if host == "" then None else Some(Address(host, inst.name, inst.metadata))
  }

  /** The values f gives for the elements of xs, in order, leaving out the elements
      f gives nothing for. */
  function Collect<T, U>(xs: seq<T>, f: T -> Option<U>): (ys: seq<U>)
    ensures |ys| <= |xs|
    decreases |xs|
  {
    if xs == [] then []
    else
      var last := f(xs[|xs| - 1]);
      Collect(xs[..|xs| - 1], f) + (if last.Some? then [last.value] else [])
  }

  lemma {:induction false} CollectAppend<T, U>(a: seq<T>, b: seq<T>, f: T -> Option<U>)
    ensures Collect(a + b, f) == Collect(a, f) + Collect(b, f)
    decreases |b|
  {
    if b == [] {
      assert a + b == a;
    } else {
      var b' := b[..|b| - 1];
      CollectAppend(a, b', f);
      assert (a + b)[..|a + b| - 1] == a + b';
    }
  }

  lemma CollectCons<T, U>(x: T, rest: seq<T>, f: T -> Option<U>)
    ensures Collect([x] + rest, f) == (if f(x).Some? then [f(x).value] else []) + Collect(rest, f)
  {
    CollectAppend([x], rest, f);
    assert [x][..0] == [];
  }

  lemma {:induction false} CollectMembers<T, U>(xs: seq<T>, f: T -> Option<U>, y: U)
    ensures y in Collect(xs, f) <==> exists i :: 0 <= i < |xs| && f(xs[i]) == Some(y)
    decreases |xs|
  {
    if xs != [] {
      var init := xs[..|xs| - 1];
      CollectMembers(init, f, y);
      if exists i :: 0 <= i < |init| && f(init[i]) == Some(y) {
        var i :| 0 <= i < |init| && f(init[i]) == Some(y);
        assert xs[i] == init[i];
      }
    }
  }

  /** The address list updateStates computes for a list of instances. */
  function AddressesOf(ins: seq<ServiceInstance>): seq<Address> {
    Collect(ins, AddressOf)
  }

  /** The addresses of two lists of instances are those of the first, then those of the second. */
  lemma AddressesOfAppend(a: seq<ServiceInstance>, b: seq<ServiceInstance>)
    ensures AddressesOf(a + b) == AddressesOf(a) + AddressesOf(b)
  {
    CollectAppend(a, b, AddressOf);
  }

  /** In input order, each instance contributes its one address or nothing. */
  lemma AddressesOfCons(inst: ServiceInstance, rest: seq<ServiceInstance>)
    ensures AddressesOf([inst] + rest) ==
              (if AddressOf(inst).Some? then [AddressOf(inst).value] else []) + AddressesOf(rest)
  {
    CollectCons(inst, rest, AddressOf);
  }

  /** An address is in the list exactly when some instance resolves to it; every such
      address has a non-empty host, the instance's name and exactly its metadata. */
  lemma AddressesOfMembers(ins: seq<ServiceInstance>, a: Address)
    ensures a in AddressesOf(ins) <==> exists i :: 0 <= i < |ins| && AddressOf(ins[i]) == Some(a)
    ensures a in AddressesOf(ins) ==>
              a.addr != "" &&
              exists i :: 0 <= i < |ins| && ins[i].name == a.serverName &&
                ins[i].metadata == a.attributes && ParseEndpoint(ins[i].endpoints) == Success(a.addr)
  {
    CollectMembers(ins, AddressOf, a);
  }

  /** An instance with a single endpoint contributes the host of that endpoint when it
      parses with scheme "http" to a non-empty host, and nothing otherwise. */
  lemma AddressesOfOne(name: string, endpoint: string, md: map<string, string>)
    ensures AddressesOf([ServiceInstance(name, [endpoint], md)]) ==
              match ParseUrl(endpoint)
              case Success(u) => if u.scheme == "http" && u.host != "" then [Address(u.host, name, md)] else []
              case Failure(_) => []
  {
    var inst := ServiceInstance(name, [endpoint], md);
    assert inst.endpoints[1..] == [];
    CollectCons(inst, [], AddressOf);
    assert [inst] + [] == [inst];
  }

  /** An instance whose single endpoint does not parse contributes no address. */
  lemma AddressesOfOneRejected(name: string, endpoint: string, md: map<string, string>)
    requires ParseUrl(endpoint).Failure?
    ensures AddressesOf([ServiceInstance(name, [endpoint], md)]) == []
  {
    AddressesOfOne(name, endpoint, md);
  }

  /** An instance with one "http" endpoint resolves to that endpoint's host:port, with
      the instance's name and metadata. */
  lemma ResolveHttpInstance(name: string, host: string, md: map<string, string>)
    requires host != "" && IsPlainHost(host)
    ensures AddressesOf([ServiceInstance(name, ["http://" + host], md)]) == [Address(host, name, md)]
  {
    ParseUrlRoundTrip(Url("http", host));
    assert FormatUrl(Url("http", host)) == "http://" + host;
    AddressesOfOne(name, "http://" + host, md);
  }

  /** An instance whose only endpoint has another scheme contributes no address. */
  lemma SkipNonHttpInstance(name: string, scheme: string, host: string, md: map<string, string>)
    requires |scheme| > 0 && IsLowerWord(scheme) && scheme != "http" && IsPlainHost(host)
    ensures AddressesOf([ServiceInstance(name, [scheme + "://" + host], md)]) == []
  {
    ParseUrlRoundTrip(Url(scheme, host));
    AddressesOfOne(name, scheme + "://" + host, md);
  }

  /** An instance whose one endpoint names a host that url.Parse refuses, such as one
      with a space in it, is dropped whatever its scheme, "http" included:
      updateStates logs the error and goes on. */
  lemma SkipInvalidHostInstance(name: string, scheme: string, host: string, md: map<string, string>, i: nat)
    requires |scheme| > 0 && IsLowerWord(scheme)
    requires IsAuthorityText(host) && i < |host| && IsInvalidHostChar(host[i])
    ensures AddressesOf([ServiceInstance(name, [scheme + "://" + host], md)]) == []
  {
    InvalidHostCharRejected(Url(scheme, host), i);
    AddressesOfOneRejected(name, FormatUrl(Url(scheme, host)), md);
  }

  /** A resolver for one service name, holding the state of its last update. */
  class Builder {
    const target: string
    var state: State

    /** NewBuilder: a resolver for target, with an empty state until it is built. */
    constructor (target: string)
      ensures this.target == target && state == State([])
    {
      this.target := target;
      state := State([]);
    }

    /** updateStates: recomputes the address list from the instances and replaces the
        stored state with it; the old state plays no part. */
    method UpdateStates(ins: seq<ServiceInstance>)
      modifies this`state
      ensures state == State(AddressesOf(ins))
    {
      var addrs: seq<Address> := [];
      for i := 0 to |ins|
        invariant addrs == Collect(ins[..i], AddressOf)
      {
        assert ins[..i + 1][..i] == ins[..i];
        var inst := ins[i];
        var endpoint := ParseEndpoint(inst.endpoints);
        if endpoint.Failure? {
          continue;  // the source logs the parse failure and skips the instance
        }
        if endpoint.value == "" {
          continue;
        }
        var attrs := ParseAttributes(inst.metadata);
        addrs := addrs + [Address(endpoint.value, inst.name, attrs)];
      }
      assert ins[..|ins|] == ins;
      state := State(addrs);
    }

    /** GetState: the stored state, as it is. */
    method GetState() returns (s: State)
      ensures s == state
    {
      s := state;
    }

    /** Schema: the scheme name of this kind of resolver. */
    method Schema() returns (s: string)
      ensures s == SchemeName
    {
      s := SchemeName;
    }

    /** Build: the synchronous first resolution. fetched is what the registry's
        GetService returned for target, watched the error (if any) its Watch returned.
        A failed fetch is wrapped and leaves the state alone; otherwise the state is
        replaced first, so a failed Watch is returned with the state already updated.
        After a successful Watch the source starts a goroutine that waits once for a
        change and, inverted, recomputes the state only when that wait reports an
        error; the goroutine is not part of this model. */
    method Build(fetched: Result<seq<ServiceInstance>, Error>, watched: Option<Error>)
      returns (err: Option<Error>)
      modifies this`state
      ensures fetched.Failure? ==>
                err == Some(GetServiceError(target, fetched.error)) && state == old(state)
      ensures fetched.Success? ==> err == watched && state == State(AddressesOf(fetched.value))
    {
      if fetched.Failure? {
        return Some(GetServiceError(target, fetched.error));
      }
      UpdateStates(fetched.value);
      if watched.Some? {
        return watched;
      }
      return None;
    }
  }
}
