# kratosv2httpresolver, modelled in Dafny

A model of a small Go HTTP client that resolves a logical service name, through a
service registry, to the `host:port` addresses of the live instances of that service,
and sends each request to one of them.

- **Resolver** (`builder.go`, module `Resolver`). A `Builder` holds one service name
  (`target`) and its `state`, an ordered address list. `Build` fetches the instances
  once and replaces the state. `updateStates` keeps one address per instance whose
  endpoints all parse, in order, up to a first `http` one with a non-empty host; an
  endpoint that fails to parse drops the instance. Each address carries that host, the
  instance's name and its metadata as attributes. Endpoint parsing goes through a
  simplified `url.Parse` (module `Urls`), and `Strings` supplies the string helpers.
- **Transport** (`client.go`, module `Transport`). `NewTransport` applies the client
  options in order over the defaults: a 500 ms timeout, the default round tripper, no
  User-Agent and no middleware. `RoundTrip` sets the configured User-Agent only on a
  request that has none, then hands the request to the middleware chain or to the base
  transport.
- **Client** (`client.go`, module `HttpClient`). `AddDiscovery` registers a built
  resolver under its service name. `NewRequest` picks one address of the current state
  and targets `http://<addr><path>`. `Do` decodes a 2xx response into the caller's
  target and any other response into an error value with code 2. It picks the codec from
  the `Content-Type` subtype and falls back to `json`. `parseTarget` splits
  `scheme://rest`.

What the registry, the network, the clock and the codecs return becomes a parameter:
`fetched` and `watched` for `GetService` and `Watch`, `exchange` for the HTTP exchange,
`unmarshal` for a codec's `Unmarshal`, a response body given as already read (or as
the read error), and `roll` for `rand.Intn`.

## Model

| member | source | states |
|---|---|---|
| `Strings.Index` | client.go:237 | the result is -1 exactly when the separator does not occur; otherwise it is an occurrence with none before it |
| `Urls.ScanScheme` | builder.go:98 | getScheme fails only for a leading ':'; a non-empty scheme is a letter followed by letters, digits, '+', '-' or '.', and the text is scheme + ":" + rest; an empty scheme leaves the text whole and means no prefix before a ':' is a scheme |
| `Urls.ParseUrl` | builder.go:98-101 | a failure is a url error naming the text before '#'; a control character always fails; the scheme comes back lower-cased |
| `Urls.FirstInvalidHostChar` | builder.go:98-101 | finds a character that a host name cannot hold exactly when the text has one, and it is one of the text's own characters |
| `Urls.ParseHost` | builder.go:98-101 | a host parses exactly when its port (for a host that is not bracketed) is all digits and it holds none of space, backslash, ^, backquote, {, vertical bar and }; a parsed host comes back unchanged |
| `Urls.ParseAuthorityAfterScheme` | builder.go:98-103 | after a scheme, "//" + authority text gives that scheme with the host when parseHost accepts it, and parseHost's error otherwise |
| `Urls.ParseSchemeAuthority` | builder.go:98-103 | url.Parse of scheme + "://" + authority text gives that URL when the host parses, and otherwise a url error with parseHost's reason |
| `Urls.ParseUrlRoundTrip` | builder.go:98-103 | parsing scheme + "://" + host (lower-case scheme; a plain host:port with no character a host name cannot hold and no escape) gives back that scheme and host |
| `Urls.InvalidHostCharRejected` | builder.go:98-101 | an endpoint whose host holds a character a host name cannot hold, such as a space, is a parse error |
| `Urls.BareHostPortRejected` | builder.go:98-101 | a bare host:port that starts with a digit, such as 10.0.0.1:8080, has no scheme and is a parse error |
| `Resolver.ParseEndpoint` | builder.go:96-108 | a non-empty result is the host of some listed endpoint with scheme "http"; an error is the parse error of some listed endpoint |
| `Resolver.ParseEndpointSkips` | builder.go:97-105 | endpoints that parse with another scheme are passed over: the result is that of the rest of the list |
| `Resolver.ParseEndpointFirstHttp` | builder.go:97-104 | the first "http" endpoint, with only non-http ones before it, gives its host, whatever follows it |
| `Resolver.ParseEndpointStopsAtError` | builder.go:98-101 | an unparsable endpoint before any "http" one fails the search, even when a valid "http" endpoint follows |
| `Resolver.ParseEndpointNoHttp` | builder.go:106-107 | with no "http" endpoint, including for an empty list, the result is "" and no error |
| `Resolver.ParseAttributes` | builder.go:110-116 | the attribute set holds exactly the metadata's key/value pairs, whatever order the map is visited in |
| `Resolver.Collect` | builder.go:68-84 | the filtered list is never longer than its input |
| `Resolver.CollectAppend` | builder.go:69-84 | filtering is done element by element in order, so it distributes over concatenation |
| `Resolver.CollectCons` | builder.go:69-84 | the first element contributes its one value or nothing, ahead of the rest |
| `Resolver.CollectMembers` | builder.go:69-84 | a value is in the filtered list exactly when some element gives it |
| `Resolver.AddressesOfAppend` | builder.go:69-84 | the addresses of two instance lists are those of the first followed by those of the second (input order kept) |
| `Resolver.AddressesOfCons` | builder.go:69-84 | in input order, each instance contributes exactly one address when it resolves, and none otherwise |
| `Resolver.AddressesOfMembers` | builder.go:69-84 | an address is listed exactly when some instance resolves to it; it has a non-empty host, the instance's name and exactly its metadata |
| `Resolver.ResolveHttpInstance` | builder.go:69-85 | an instance with endpoint "http://" + host yields exactly one address: that host, the instance name, its metadata |
| `Resolver.SkipNonHttpInstance` | builder.go:69-77 | an instance whose only endpoint has another scheme (for example grpc) contributes no address |
| `Resolver.SkipInvalidHostInstance` | builder.go:69-74 | an instance whose one endpoint names a host url.Parse refuses (for example one with a space) contributes no address, whatever the scheme, "http" included |
| `Resolver.Builder.constructor` | builder.go:33-43 | a new resolver is bound to its target and starts with an empty state |
| `Resolver.Builder.UpdateStates` | builder.go:67-86 | the new state is the address list computed from the instances alone; the old state plays no part |
| `Resolver.Builder.GetState` | builder.go:88-90 | returns exactly the stored state |
| `Resolver.Builder.Schema` | builder.go:92-94 | reports the scheme name "discovery" |
| `Resolver.Builder.Build` | builder.go:45-65 | a failed fetch returns the wrapped GetService error and leaves the state unchanged; otherwise the state is replaced, and a Watch error is still returned after that |
| `Transport.LastSetDefault` | client.go:113-117 | a field that no option sets keeps its default |
| `Transport.LastSetWins` | client.go:118-120 | options apply in order, so the last option that sets a field decides it |
| `Transport.NewTransport` | client.go:112-127 | the transport carries the options in effect: the last value set for each field, else 500 ms, the default round tripper, no User-Agent, no middleware |
| `Transport.DefaultUserAgent` | client.go:137-139 | afterwards the request's own User-Agent is kept when it has one, else the configured one is used; no other header key changes, and nothing changes when none is configured |
| `Transport.HandlerOf` | client.go:145-150 | the request goes through the middleware exactly when one is configured, always ending at the base transport |
| `Transport.RoundTrip` | client.go:136-156 | the request header is updated in place by the User-Agent rule, and the handler's result is returned unchanged |
| `Transport.Request.constructor` | client.go:163 | a new request has the given URL and body, an empty header, and method GET when none is given |
| `HttpClient.ContentSubtype` | client.go:228-244 | a subtype only comes from an "application/" content type, and it never contains ';' |
| `HttpClient.ContentSubtypeOfApplication` | client.go:236-240 | for "application/" + s the subtype is s up to its first ';', or all of s |
| `HttpClient.ContentSubtypeDropsParameters` | client.go:237-238 | parameters after the subtype are dropped: "application/json; charset=utf-8" gives "json" |
| `HttpClient.ContentSubtypeAsWritten` | client.go:228-244 | contentSubtype as written: it reaches the out-of-range slice (None) exactly on content types starting with "application;", and gives "" for anything that does not start with "application/" |
| `HttpClient.ContentSubtypeAsWrittenPanics` | client.go:235-238 | as written, every content type starting with "application;" reaches the out-of-range slice [12:11] |
| `HttpClient.ContentSubtypeAsWrittenAgrees` | client.go:228-244 | on every other input the code as written and the corrected function give the same subtype |
| `HttpClient.ParseTarget` | client.go:103-109 | the split fails exactly when "://" does not occur, and then gives two empty strings |
| `HttpClient.ParseTargetRoundTrip` | client.go:103-109 | scheme + "://" + rest splits into the lower-cased scheme and rest unchanged, when the scheme has no "://" |
| `HttpClient.CodecFor` | client.go:203-207 | the codec registered under the subtype is used; any other subtype falls back to "json", which is then a registered codec whenever json is registered |
| `HttpClient.DecodeResponse` | client.go:202-213 | the body is decoded only when it was read, with the content type's codec, into the given target; a read error or the codec's error is returned |
| `HttpClient.Do` | client.go:182-196 | a transport error is returned with nothing decoded; the caller's target is decoded into only for statuses 200..299, with the content type's codec; any other status returns the read error, else the codec's error, else the code-2 status error |
| `HttpClient.Client.constructor` | client.go:82-91 | a new client has no resolvers and the transport its options configure |
| `HttpClient.Client.AddDiscovery` | client.go:93-101 | on a failed build the resolver map is unchanged; on success only target's entry changes, to a fresh resolver holding the fetched addresses, overwriting any earlier one |
| `HttpClient.Client.GetAddr` | client.go:166-178 | nothing for an unregistered target or an empty address list; otherwise an address of the current state of the resolver built for target, and the rolled index when it is in range |
| `HttpClient.Client.NewRequest` | client.go:158-164 | fails with the same "notfound" error for both failure cases of getAddr; otherwise targets "http://" + one current address of target's own resolver + path |
| `HttpClient.RequestToResolvedHost` | tests/nacos_http_cli_test.go:52-62 | after registering a service whose one instance is at host, a request is sent to "http://" + host + path |
| `HttpClient.RequestWithoutHttpInstance` | client.go:158-177 | a service whose only instance has no "http" endpoint resolves to no address, so NewRequest fails with "notfound" |

## Left out

- The watch goroutine of `Build` (builder.go:57-62) is not modelled. It waits for a change once, and it updates the state only when `w.Next()` reports an error, the opposite of what it should do.
- `Resolver.Builder.Build`: the discoverer is not a field. What `GetService` and `Watch` return is passed in as `fetched` and `watched`.
- The logger, the `WithLogger` option and the log line for an endpoint that fails to parse are not modelled.
- `HttpClient.Client.GetAddr`: `rand.Seed(time.Now().Unix())` and `rand.Intn(n)` are replaced by a caller-supplied `roll`, taken modulo n.
- `Urls.ParseUrl` is a simplified `url.Parse`. It does not model bracketed IPv6 host validation, percent-escape decoding and validation, user-information validation, fragment validation, or any URL fields other than scheme and host.
- `Urls.ParseHost`: a '%' in a host is neither validated nor decoded, so such a host comes back unchanged where Go decodes it or fails. The round-trip and scenario lemmas exclude '%' from their hosts.
- `Strings.Lower` folds ASCII letters only, where `strings.ToLower` folds all of Unicode. Strings are sequences of characters, where Go works on bytes.
- `HttpClient.Client.NewRequest`: the checks inside `http.NewRequest` are not modelled: the method-token check, the re-parse of the URL and the removal of an empty port. The request always succeeds once an address is picked.
- `Transport.RoundTrip` does not model the request context markers, the timeout context and its cancellation, what the middleware does, or the `*http.Response` type assertion. What the chosen handler returns is the parameter `exchange`.
- `HttpClient.DecodeResponse` and `HttpClient.Do` use the corrected `HttpClient.ContentSubtype`. For a `Content-Type` starting with `application;` they pick the json codec and read the body, where the source panics before reading it (see Findings).
- `HttpClient.Do`: the fields the codec writes into the code-2 status error value are not modelled. `c.hc.Do`, `ioutil.ReadAll` and `Unmarshal` are parameters. `Send` is a bare network call and is left out.
- `HttpClient.CodecFor` always names a codec. When neither the subtype nor `json` is registered, the source calls a nil codec and panics.
- `WithTransport(nil)` and the unused `ctx` and `endpoint` fields of `clientOptions` are not modelled. Header keys are taken as already canonical.
- Concurrency is not modelled: the atomic replacement of the state, and the race between `AddDiscovery` and readers of the resolver map.
- The demo wiring (demo/http_resolver/client.go) only calls `NewClient` and `AddDiscovery`. The integration test needs a live registry and is modelled only by `HttpClient.RequestToResolvedHost`.
- `getAddr` fails the same way for an unregistered name and for an empty address list, so `NewRequest` reports both as `getResolver <target> notfound`; the model keeps them the same.

## Findings

| source | as written | input that shows it | evidently intended | confidence | as-written member | corrected member |
|---|---|---|---|---|---|---|
| client.go:235-238 | for a `Content-Type` starting with `application;` the first `;` is at index 11, so `contentType[12:11]` is out of range and Go panics | `application;charset=utf-8` | no subtype, so `""`, which falls back to the json codec | high; not executed | `HttpClient.ContentSubtypeAsWritten`, `HttpClient.ContentSubtypeAsWrittenPanics` | `HttpClient.ContentSubtype` |
