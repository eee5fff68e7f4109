/** Request handling of DNS/src/main.rs: geolocate, parse, pick an upstream
    from the country's list with the one shared `ServerSelector`, forward,
    and relay the answer or an error response.

    Geolocation, forwarding and the codec are parameters: `geo` is what
    `get_country_from_ip` returned, `forward(request, server)` is the outcome
    of `forward_dns_request` against that server. */
module RoundRobinProxy {
  import opened Wrappers
  import opened DnsMessage
  import opened RoundRobin

  /** Country code to the ordered list of upstream addresses. */
  type RoutingTable = map<string, seq<Address>>

  /** The table built in `main`. */
  const DnsServers: RoutingTable := map[
    "US" := ["8.8.8.8:53", "8.8.4.4:53"],
    "DE" := ["1.1.1.1:53", "1.0.0.1:53"],
    DefaultCountry := ["0.0.0.0:53"]]

  /** What `handle_client_request` relies on: a `DEFAULT` entry (it unwraps
      it) and no empty list (`next_server` divides by the length). */
  predicate ValidTable(table: RoutingTable) {
    DefaultCountry in table && forall c :: c in table ==> |table[c]| > 0
  }

  lemma DnsServersValid()
    ensures ValidTable(DnsServers)
  {
  }

  /** The country's list if it has one, else the `DEFAULT` list. */
  function ServersFor(table: RoutingTable, country: string): (servers: seq<Address>)
    requires ValidTable(table)
    ensures |servers| > 0
    ensures country in table ==> servers == table[country]
    ensures country !in table ==> servers == table[DefaultCountry]
  {
    if country in table then table[country] else table[DefaultCountry]
  }

  /** The server lists of the fixed table, by country. */
  lemma DnsServersLookup(country: string)
    ensures ServersFor(DnsServers, country) ==
      if country == "US" then ["8.8.8.8:53", "8.8.4.4:53"]
      else if country == "DE" then ["1.1.1.1:53", "1.0.0.1:53"]
      else ["0.0.0.0:53"]
  {
    DnsServersValid();
  }

  /** The reply sent (if any) and the selector's cursor afterwards, for one
      request handled while the cursor stood at `cursor`. */
  function Dispatch(table: RoutingTable, cursor: nat, request: Bytes, geo: Option<string>,
                    parse: Parser, serialize: Serializer, forward: Forwarder): (outcome: (Option<Bytes>, nat))
    requires ValidTable(table)
    ensures parse(request).Failure? ==> outcome == (None, cursor)
    ensures parse(request).Success? ==> outcome.1 < |ServersFor(table, CountryOf(geo))|
    ensures outcome.0.Some? ==> parse(request).Success?
  {
    match parse(request)
    case Failure(_) => (ErrorResponse(request, FormErr, parse, serialize), cursor)
    case Success(query) =>
      var servers := ServersFor(table, CountryOf(geo));
      var server := servers[cursor % |servers|];
      (Relay(request, forward(query, server), parse, serialize), (cursor + 1) % |servers|)
  }

  /** `handle_client_request`. */
  method HandleClientRequest(selector: ServerSelector, table: RoutingTable, request: Bytes,
                             geo: Option<string>, parse: Parser, serialize: Serializer,
                             forward: Forwarder) returns (sent: Option<Bytes>)
    requires ValidTable(table)
    modifies selector
    ensures (sent, selector.index) ==
            Dispatch(table, old(selector.index), request, geo, parse, serialize, forward)
  {
    var country := CountryOf(geo);
    match parse(request) {
      case Failure(_) =>
        sent := ErrorResponse(request, FormErr, parse, serialize);
      case Success(query) =>
        var servers := ServersFor(table, country);
        var server := selector.NextServer(servers);
        sent := Relay(request, forward(query, server), parse, serialize);
    }
  }

  /** The server chosen for a parsed request from `country` at `cursor`. */
  function Selected(table: RoutingTable, country: string, cursor: nat): (server: Address)
    requires ValidTable(table)
  {
    Selections(ServersFor(table, country), cursor, 1)[0]
  }

  /** An unparsable request is silently dropped: the FORMERR path parses the
      same bytes again, fails again, and sends nothing; the cursor does not
      move, whatever the country and the upstreams would have done. */
  lemma UnparsableRequestDropped(table: RoutingTable, cursor: nat, request: Bytes, geo: Option<string>,
                                 parse: Parser, serialize: Serializer, forward: Forwarder)
    requires ValidTable(table)
    requires parse(request).Failure?
    ensures Dispatch(table, cursor, request, geo, parse, serialize, forward) == (None, cursor)
  {
  }

  /** A parsed request is forwarded to the selected server of its country's
      list (the `DEFAULT` list when it has none), and the cursor advances to
      a position below the length of that list. */
  lemma ParsedRequestAdvancesCursor(table: RoutingTable, cursor: nat, request: Bytes, geo: Option<string>,
                                    parse: Parser, serialize: Serializer, forward: Forwarder)
    requires ValidTable(table)
    requires parse(request).Success?
    ensures var servers := ServersFor(table, CountryOf(geo));
      var (sent, cursor') := Dispatch(table, cursor, request, geo, parse, serialize, forward);
      && Selected(table, CountryOf(geo), cursor) in servers
      && sent == Relay(request, forward(parse(request).value, Selected(table, CountryOf(geo), cursor)), parse, serialize)
      && cursor' == CursorAfter(servers, cursor, 1)
      && cursor' < |servers|
  {
  }

  /** When forwarding to the selected server fails, the client gets SERVFAIL
      with its own transaction ID, unless serialising that reply fails. */
  lemma ForwardFailureRepliesServFail(table: RoutingTable, cursor: nat, request: Bytes, geo: Option<string>,
                                      parse: Parser, serialize: Serializer, forward: Forwarder)
    requires ValidTable(table)
    requires HeaderLossless(parse, serialize)
    requires parse(request).Success?
    requires forward(parse(request).value, Selected(table, CountryOf(geo), cursor)).Failure?
    ensures var sent := Dispatch(table, cursor, request, geo, parse, serialize, forward).0;
      && (sent.Some? <==> serialize(ErrorMessage(parse(request).value.header.id, ServFail)).Success?)
      && (sent.Some? ==> parse(sent.value).Success? &&
                         parse(sent.value).value.header == Header(parse(request).value.header.id, Response, ServFail))
  {
    var sent := Dispatch(table, cursor, request, geo, parse, serialize, forward).0;
    if sent.Some? {
      ErrorResponseEchoesId(request, ServFail, parse, serialize);
    }
  }

  /** When forwarding succeeds, the upstream's message is serialised again
      and sent, or an empty datagram when that serialisation fails. */
  lemma ForwardSuccessRelays(table: RoutingTable, cursor: nat, request: Bytes, geo: Option<string>,
                             parse: Parser, serialize: Serializer, forward: Forwarder, answer: Message)
    requires ValidTable(table)
    requires parse(request).Success?
    requires forward(parse(request).value, Selected(table, CountryOf(geo), cursor)) == Success(answer)
    ensures Dispatch(table, cursor, request, geo, parse, serialize, forward).0 ==
            Some(if serialize(answer).Success? then serialize(answer).value else [])
  {
  }

  /** The servers picked for a run of parsed requests from the given
      countries, handled one after another by the single shared selector. */
  function ChosenServers(table: RoutingTable, cursor: nat, countries: seq<string>): (chosen: seq<Address>)
    requires ValidTable(table)
    decreases |countries|
  {
    if countries == [] then []
    else
      [Selected(table, countries[0], cursor)] +
      ChosenServers(table, CursorAfter(ServersFor(table, countries[0]), cursor, 1), countries[1..])
  }

  /** `ChosenServers` is what handling the requests does: a parsed request
      from the first country is forwarded to the first chosen server, and
      `Dispatch` leaves the cursor from which the rest are chosen. */
  lemma ChosenServersFollowDispatch(table: RoutingTable, cursor: nat, countries: seq<string>,
                                    request: Bytes, geo: Option<string>, parse: Parser,
                                    serialize: Serializer, forward: Forwarder)
    requires ValidTable(table) && countries != []
    requires CountryOf(geo) == countries[0] && parse(request).Success?
    ensures Dispatch(table, cursor, request, geo, parse, serialize, forward).0 ==
            Relay(request, forward(parse(request).value, ChosenServers(table, cursor, countries)[0]), parse, serialize)
    ensures ChosenServers(table, cursor, countries) ==
            [Selected(table, countries[0], cursor)] +
            ChosenServers(table, Dispatch(table, cursor, request, geo, parse, serialize, forward).1, countries[1..])
  {
  }

  /** Requests that all come from one country take that country's list in
      round-robin order: the same selections as consecutive `next_server`
      calls on it. */
  lemma {:induction false} OneCountryIsRoundRobin(table: RoutingTable, cursor: nat, countries: seq<string>, country: string)
    requires ValidTable(table)
    requires forall i :: 0 <= i < |countries| ==> countries[i] == country
    ensures ChosenServers(table, cursor, countries) ==
            Selections(ServersFor(table, country), cursor, |countries|)
    decreases |countries|
  {
    if countries != [] {
      OneCountryIsRoundRobin(table, (cursor + 1) % |ServersFor(table, country)|, countries[1..], country);
    }
  }

  /** With the fixed table, |list| requests from one country starting at any
      cursor reach every server of that country's list once. */
  lemma OneCountryFullCycle(cursor: nat, countries: seq<string>, country: string)
    requires forall i :: 0 <= i < |countries| ==> countries[i] == country
    requires |countries| == |ServersFor(DnsServers, country)|
    ensures multiset(ChosenServers(DnsServers, cursor, countries)) == multiset(ServersFor(DnsServers, country))
  {
    DnsServersValid();
    OneCountryIsRoundRobin(DnsServers, cursor, countries, country);
    FullCycleVisitsEachOnce(ServersFor(DnsServers, country), cursor);
  }

  /** The cursor is shared by every country: from a fresh selector, a US
      request followed by a DE request sends the DE request to the second DE
      server, not the first. */
  lemma SharedCursorAcrossCountries()
    ensures ChosenServers(DnsServers, 0, ["US", "DE"]) == ["8.8.8.8:53", "1.0.0.1:53"]
  {
    DnsServersValid();
    DnsServersLookup("US");
    DnsServersLookup("DE");
    assert ["US", "DE"][1..] == ["DE"];
  }
}
