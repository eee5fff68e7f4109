# Geo-aware DNS forwarding proxy — a Dafny model

This project models the decision and state-update logic of a small DNS
forwarding proxy written in Rust. The proxy receives a DNS query over UDP and
geolocates the client's IP to a country code. It picks an upstream resolver
for that country, forwards the query and relays the answer or a synthesized
error. The repository holds three programs:

- `DNS/src/main.rs` picks from a per-country list with one round-robin
  `ServerSelector` that every request shares (modules `RoundRobin` and
  `RoundRobinProxy`).
- `Dns/src/main.rs` maps each country to a single fixed upstream
  (module `FixedRouteProxy`). Its `utils.rs` holds a response cache keyed by
  (request bytes, country) with TTL-derived expiry (module `ResponseCache`)
  and a periodic upstream health checker (module `HealthChecker`).
- `GR/src/main.rs` is a TCP service that answers with a redirect text chosen
  by country through its `GeoRouting` table (module `GeoRouter`).

The DNS codec (`trust_dns_proto`) and the GeoIP database (`maxminddb`) are
foreign libraries. They enter the model as function-valued parameters:
`Parser`, `Serializer`, `Forwarder`, the raw forwarder, the probe and the
GeoIP lookup. Every result holds for any behaviour of these parameters,
unless a lemma states an assumption about them. The one such assumption is
`HeaderLossless`: whatever the codec serialises parses back with the same
header. A DNS message is its header `{id, messageType, responseCode}` plus the
TTLs of its answer records (`DnsMessage`). Time is a natural number of
seconds.

Where the code departs from what a DNS forwarder is expected to do, the model
follows the code:

- An unparsable request gets no reply, although DNS provides the FORMERR code
  (section 4.1.1 of RFC 1035) for exactly this case. `send_error_response` parses the same bytes again, fails again and skips
  its body, so the FORMERR branch never sends anything
  (`RoundRobinProxy.UnparsableRequestDropped`).
- There is one round-robin cursor for all countries, not one per country, and
  selection never filters by health (`RoundRobinProxy.SharedCursorAcrossCountries`).
- `Dns/src/main.rs` forwards directly and does not use the cache. The cache is
  modelled on its own, as `utils.rs` defines it.

## Model

| member | source | states |
|---|---|---|
| `DnsMessage.CountryOf` | DNS/src/main.rs:100 | no geolocation result gives `DEFAULT`; a geolocated code is kept as it is |
| `DnsMessage.ErrorResponse` | DNS/src/main.rs:154-175 | nothing is sent when the request does not re-parse or the error message does not serialise; otherwise the datagram is the serialisation of a message with the request's ID, type Response and the given code |
| `DnsMessage.ErrorResponseEchoesId` | DNS/src/main.rs:160-164 | with a header-lossless codec, a client parsing the error response reads back its own transaction ID, Response and the code |
| `DnsMessage.Relay` | DNS/src/main.rs:121-137 | a forward success always produces a datagram; on a forward failure the reply is the SERVFAIL error response, and any reply sent then implies the request parsed |
| `DnsMessage.RelayAnswers` | DNS/src/main.rs:121-137 | after a successful parse, a forward success always sends the re-serialised answer (empty if serialisation fails); a forward failure sends a reply exactly when the SERVFAIL message serialises |
| `RoundRobin.ServerSelector.constructor` | DNS/src/main.rs:17-19 | a new selector's cursor is 0 |
| `RoundRobin.ServerSelector.NextServer` | DNS/src/main.rs:21-25 | for a non-empty list, returns the entry at cursor mod length and sets the cursor to (cursor + 1) mod length, which is below the length |
| `RoundRobin.SelectionAt` | DNS/src/main.rs:21-25 | the k-th of n consecutive selections from cursor c is the entry at (c + k) mod length |
| `RoundRobin.CursorAfterValue` | DNS/src/main.rs:23 | after n > 0 calls the cursor is (c + n) mod length, hence below the length |
| `RoundRobin.SelectionsSplit` | DNS/src/main.rs:21-25 | the selections of m + n calls are those of m calls followed by those of n calls from where the first m left the cursor |
| `RoundRobin.FullCycleIsRotation` | DNS/src/main.rs:21-25 | length-many calls from any cursor return the list rotated to start at cursor mod length |
| `RoundRobin.FullCycleVisitsEachOnce` | DNS/src/main.rs:21-25 | length-many calls from any cursor return a permutation of the list: every server, each as often as it is listed |
| `RoundRobin.FreshSelectorFollowsListOrder` | DNS/src/main.rs:17-25 | from a fresh selector the first length-many calls return the list in order |
| `RoundRobin.SelectionsPeriodic` | DNS/src/main.rs:21-25 | selections repeat with period equal to the list length |
| `RoundRobinProxy.DnsServersValid` | DNS/src/main.rs:37-41 | the fixed table has a `DEFAULT` entry and no empty list, so neither the `unwrap` nor the `%` can panic |
| `RoundRobinProxy.ServersFor` | DNS/src/main.rs:116 | a non-empty list: the country's own list if it has one, else the `DEFAULT` list |
| `RoundRobinProxy.DnsServersLookup` | DNS/src/main.rs:37-41 | with the fixed table: US gives [8.8.8.8:53, 8.8.4.4:53], DE gives [1.1.1.1:53, 1.0.0.1:53], anything else [0.0.0.0:53] |
| `RoundRobinProxy.Dispatch` | DNS/src/main.rs:99-137 | an unparsable request sends nothing and keeps the cursor; a parsed one leaves the cursor below its list's length; only parsed requests are ever answered |
| `RoundRobinProxy.HandleClientRequest` | DNS/src/main.rs:91-138 | the datagram sent and the new cursor are those of `Dispatch` for the old cursor |
| `RoundRobinProxy.UnparsableRequestDropped` | DNS/src/main.rs:104-110 | an unparsable request sends nothing and leaves the cursor where it was, whatever the country and the upstreams |
| `RoundRobinProxy.ParsedRequestAdvancesCursor` | DNS/src/main.rs:113-118 | a parsed request is forwarded to the selected server, a member of its country's (or the `DEFAULT`) list; the cursor advances one step and stays below that list's length |
| `RoundRobinProxy.ForwardFailureRepliesServFail` | DNS/src/main.rs:133-136 | when the selected upstream fails, a reply is sent exactly when the SERVFAIL message serialises, and it carries the request's ID, Response and SERVFAIL |
| `RoundRobinProxy.ForwardSuccessRelays` | DNS/src/main.rs:122-131 | when the selected upstream answers, its message is re-serialised and sent, or an empty payload if that fails |
| `RoundRobinProxy.ChosenServersFollowDispatch` | DNS/src/main.rs:113-121 | the first chosen server is the one `Dispatch` forwards the request to, and the rest are chosen from the cursor `Dispatch` leaves |
| `RoundRobinProxy.OneCountryIsRoundRobin` | DNS/src/main.rs:114-118 | successive parsed requests from one country receive that list's servers in round-robin order |
| `RoundRobinProxy.OneCountryFullCycle` | DNS/src/main.rs:37-41 | with the fixed table, list-length many requests from one country reach every server of its list once, from any cursor |
| `RoundRobinProxy.SharedCursorAcrossCountries` | DNS/src/main.rs:46 | the cursor is shared: from a fresh selector, a US request then a DE request sends the DE request to `1.0.0.1:53`, the second DE server |
| `FixedRouteProxy.ServerFor` | Dns/src/main.rs:86-88 | US gives 192.168.1.10:53, DE gives 192.168.1.11:53, any other country gives the `DEFAULT` server 0.0.0.0:53 |
| `FixedRouteProxy.HandleClientRequest` | Dns/src/main.rs:66-106 | only a request that parses is ever answered, and a parsed request whose forward succeeds always is |
| `FixedRouteProxy.UnparsableRequestDropped` | Dns/src/main.rs:77-83 | an unparsable request gets no reply at all |
| `FixedRouteProxy.ReplyDependsOnlyOnCountryServer` | Dns/src/main.rs:86-90 | selection is stateless: two requests with the same bytes and country receive the same reply whenever the upstreams agree at that country's server |
| `FixedRouteProxy.UnknownCountryUsesDefault` | Dns/src/main.rs:74 | a client with no geolocation result is forwarded to the `DEFAULT` server |
| `FixedRouteProxy.ForwardFailureRepliesServFail` | Dns/src/main.rs:101-104 | on forward failure a reply is sent exactly when the SERVFAIL message serialises, and it echoes the request's ID with Response and SERVFAIL |
| `FixedRouteProxy.ForwardSuccessRelays` | Dns/src/main.rs:90-99 | on forward success the re-serialised answer is sent, or an empty payload if that fails |
| `ResponseCache.MinTtl` | Dns/src/utils.rs:83 | nothing exactly for no TTLs; otherwise a TTL of the list that is no larger than any other |
| `ResponseCache.ExtractMinTtl` | Dns/src/utils.rs:79-87 | nothing when the response does not parse or has no answers; otherwise the least answer TTL |
| `ResponseCache.TtlForCases` | Dns/src/utils.rs:68 | the TTL used is 60 when the response does not parse or has no answers, otherwise the least answer TTL |
| `ResponseCache.CachedForwardSpec` | Dns/src/utils.rs:59-76 | only the request's own key can be added; after a success the cache holds the returned response under that key; a failure is the forwarder's error and leaves no entry for that key |
| `ResponseCache.DnsCache.CachedForward` | Dns/src/utils.rs:53-77 | the result and the new cache are those of `CachedForwardSpec` on the old cache |
| `ResponseCache.FreshHitServesStored` | Dns/src/utils.rs:60-62 | a present, unexpired entry is returned as stored; the cache is unchanged and the upstream is not consulted |
| `ResponseCache.ExpiredEntryNeverServed` | Dns/src/utils.rs:61-64 | an entry whose expiry has been reached is never returned; if forwarding then fails, the entry is gone |
| `ResponseCache.MissStoresResponse` | Dns/src/utils.rs:67-76 | a miss whose forward succeeds returns the response and stores it under (request, country), expiring at store time plus its TTL |
| `ResponseCache.FailureInsertsNothing` | Dns/src/utils.rs:64-67 | a failed forward inserts nothing; the only possible change is removing this key's expired entry |
| `ResponseCache.OtherKeysUnchanged` | Dns/src/utils.rs:59-75 | every key other than (request, country) keeps its presence and its entry |
| `ResponseCache.CountriesDoNotShare` | Dns/src/utils.rs:59 | a call for one country neither creates nor alters the entry for the same bytes from another country |
| `ResponseCache.StoreThenLookupHits` | Dns/src/utils.rs:61-73 | after a miss stores a response, the same request at any time before expiry is served that response from the cache, whatever the upstream |
| `ResponseCache.ZeroTtlIsAlreadyExpired` | Dns/src/utils.rs:61-73 | with TTL 0 the stored entry is already expired: the next call forwards again |
| `HealthChecker.Healthy` | Dns/src/utils.rs:25-28 | healthy exactly when the probe completed before the timeout and without error |
| `HealthChecker.AfterTick` | Dns/src/utils.rs:24-29 | the same addresses, each flagged healthy exactly when its probe completed without error |
| `HealthChecker.Upstreams.HealthTick` | Dns/src/utils.rs:23-30 | the flags after the loop are `AfterTick` of the flags before it |
| `HealthChecker.TickKeepsAddresses` | Dns/src/utils.rs:24 | a tick keeps the set of upstream addresses |
| `HealthChecker.TickSetsProbeOutcome` | Dns/src/utils.rs:25-29 | after a tick each flag is true exactly when its probe completed without error, independent of the old flags |
| `HealthChecker.FailedProbeMarksUnhealthy` | Dns/src/utils.rs:25-28 | a probe that times out or fails leaves its upstream unhealthy |
| `HealthChecker.TickIdempotent` | Dns/src/utils.rs:21-30 | a second tick with the same probe outcomes changes nothing |
| `GeoRouter.NewGeoRouting` | GR/src/main.rs:21-25 | the table holds exactly IR, mapped to 8.8.8.8 |
| `GeoRouter.RouteRequest` | GR/src/main.rs:27-29 | the table's server for a present country, nothing for an absent one |
| `GeoRouter.HandleRequest` | GR/src/main.rs:32-76 | "Failed to get IP" exactly when there is no peer address; "Could not determine country" exactly when there is no country code; the welcome text exactly when a code is known but it is not IR with a table entry |
| `GeoRouter.NewRoutesOnlyIran` | GR/src/main.rs:21-29 | with the table from `new`, IR routes to 8.8.8.8 and every other code to nothing |
| `GeoRouter.HandleRequestCases` | GR/src/main.rs:40-74 | no peer address gives "Failed to get IP"; no country gives "Could not determine country"; IR with an entry gives "Redirecting to: " plus the server; any other located case gives the welcome text |
| `GeoRouter.DefaultRoutingReplies` | GR/src/main.rs:57-74 | with the table from `new`, IR clients are redirected to 8.8.8.8 and every other located client is welcomed |

## Left out

- UDP and TCP sockets, `tokio::spawn`, the receive and accept loops, and `main`. Each handled request is one call of the model; what is sent is a return value.
- Concurrency (`Mutex`, `RwLock`, `DashMap`, `Arc`). The selector, the cache and the upstream map are sequential state. So are interleavings of concurrent requests.
- The DNS wire format, `Message::from_vec` / `to_vec`, and the probe query built by `test_dns_query`. These are parameters of the model.
- The internals of `forward_dns_request`: re-serialising the request, the 512-byte receive buffer, and parsing the upstream reply. It is one parameter giving the outcome per (request, server).
- `maxminddb` lookups, including the generic `get_country_from_ip<T>`. The geolocation result is a parameter.
- `time::interval`, the two-second probe `timeout`, `Instant::now()`. The clock is a natural-number parameter, and the timeout is one of the probe's outcomes.
- Logging through `println!` / `eprintln!`, failures to send a reply (ignored by the source), and `process::exit` on startup failures.
- The process exit in DNS/src/main.rs when `recv_from` fails inside the running receive loop (DNS/src/main.rs:57-60). It is a crash after start-up, not only a start-up failure. The receive loop is not modelled.
- `forward_dns_request_raw`, which `Dns/src/utils.rs` calls, is not part of this model. It is a parameter of `CachedForward`.
- ResponseCache.MinTtl: TTLs are unbounded naturals rather than `u32`, and expiry is `storeTime + ttl` with no `Instant` overflow.
- RoundRobin.ServerSelector.NextServer: the cursor is a natural number, not a `usize`. It never exceeds the longest list, so wrap-around cannot occur.
- ResponseCache.DnsCache.CachedForward: an expired entry is removed and the request forwarded, which is the intended behaviour, not what the code does. In the source, `entry` is a `DashMap` reference holding its shard's read lock until the end of the `if let` block (Dns/src/utils.rs:60-65). `cache.remove(&key)` at line 64 needs the write lock of that same shard, so every lookup that finds an expired entry deadlocks: nothing is removed, nothing is forwarded, and no reply is sent. The removal stated by `ExpiredEntryNeverServed` and `FailureInsertsNothing` is therefore the intended one. Locks are not modelled.
- RoundRobinProxy.HandleClientRequest: the forwarder always yields an outcome. In the source, `forward_dns_request` has no timeout: its `socket.recv` (DNS/src/main.rs:150) waits forever for an upstream that never answers, and the client gets nothing.
- FixedRouteProxy.HandleClientRequest: the forwarder always yields an outcome. In the source the `socket.recv` of `forward_dns_request` (Dns/src/main.rs:116) has no timeout, so a silent upstream leaves the client unanswered forever. The model also cannot see the panic in `get_country_from_ip` (Dns/src/main.rs:58-59). There, `geo_data.unwrap()` panics for an address the GeoIP database has no record for, such as any LAN address. The spawned task then dies and no reply is sent. The model takes the geolocation result as a given `Option`.
- GR's `stream.peek` of the first 1024 bytes. It does not affect the reply.
