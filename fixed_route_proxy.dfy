/** Request handling of Dns/src/main.rs: the same pipeline as the
    round-robin proxy, but each country maps to exactly one upstream and no
    state is kept between requests. */
module FixedRouteProxy {
  import opened Wrappers
  import opened DnsMessage

  /** The table built in `main`. */
  const DnsServers: map<string, Address> := map[
    "US" := "192.168.1.10:53",
    "DE" := "192.168.1.11:53",
    DefaultCountry := "0.0.0.0:53"]

  /** `dns_servers.get(&country).unwrap_or_else(|| dns_servers.get("DEFAULT").unwrap())`. */
  function ServerFor(country: string): (server: Address)
    ensures server == if country == "US" then "192.168.1.10:53"
                      else if country == "DE" then "192.168.1.11:53"
                      else "0.0.0.0:53"
  {
    if country in DnsServers then DnsServers[country] else DnsServers[DefaultCountry]
  }

  /** `handle_client_request`: the datagram sent to the client, if any. */
  function HandleClientRequest(request: Bytes, geo: Option<string>, parse: Parser,
                               serialize: Serializer, forward: Forwarder): (sent: Option<Bytes>)
    ensures sent.Some? ==> parse(request).Success?
    ensures parse(request).Success? && forward(parse(request).value, ServerFor(CountryOf(geo))).Success? ==>
      sent.Some?
  {
    match parse(request)
    case Failure(_) => ErrorResponse(request, FormErr, parse, serialize)
    case Success(query) => Relay(request, forward(query, ServerFor(CountryOf(geo))), parse, serialize)
  }

  /** An unparsable request gets no reply at all: the FORMERR path re-parses
      the same bytes and skips its whole body. */
  lemma UnparsableRequestDropped(request: Bytes, geo: Option<string>, parse: Parser,
                                 serialize: Serializer, forward: Forwarder)
    requires parse(request).Failure?
    ensures HandleClientRequest(request, geo, parse, serialize, forward) == None
  {
  }

  /** Selection is stateless: the reply depends on the upstream only through
      its answer for the server of the request's country, so two requests
      from the same country go to the same server. */
  lemma ReplyDependsOnlyOnCountryServer(request: Bytes, geo: Option<string>, geo': Option<string>,
                                        parse: Parser, serialize: Serializer, forward: Forwarder, forward': Forwarder)
    requires CountryOf(geo) == CountryOf(geo')
    requires forall query :: forward(query, ServerFor(CountryOf(geo))) == forward'(query, ServerFor(CountryOf(geo)))
    ensures HandleClientRequest(request, geo, parse, serialize, forward) ==
            HandleClientRequest(request, geo', parse, serialize, forward')
  {
  }

  /** A client whose country geolocation cannot tell is served by the
      `DEFAULT` upstream. */
  lemma UnknownCountryUsesDefault(request: Bytes, parse: Parser, serialize: Serializer, forward: Forwarder)
    requires parse(request).Success?
    ensures HandleClientRequest(request, None, parse, serialize, forward) ==
            Relay(request, forward(parse(request).value, "0.0.0.0:53"), parse, serialize)
  {
  }

  /** Forwarding failure: SERVFAIL carrying the request's transaction ID, or
      nothing when serialising that error response fails. */
  lemma ForwardFailureRepliesServFail(request: Bytes, geo: Option<string>, parse: Parser,
                                      serialize: Serializer, forward: Forwarder)
    requires HeaderLossless(parse, serialize)
    requires parse(request).Success?
    requires forward(parse(request).value, ServerFor(CountryOf(geo))).Failure?
    ensures var sent := HandleClientRequest(request, geo, parse, serialize, forward);
      && (sent.Some? <==> serialize(ErrorMessage(parse(request).value.header.id, ServFail)).Success?)
      && (sent.Some? ==> parse(sent.value).Success? &&
                         parse(sent.value).value.header == Header(parse(request).value.header.id, Response, ServFail))
  {
    var sent := HandleClientRequest(request, geo, parse, serialize, forward);
    if sent.Some? {
      ErrorResponseEchoesId(request, ServFail, parse, serialize);
    }
  }

  /** Forwarding success: the upstream's message serialised again, or an
      empty datagram when that serialisation fails. */
  lemma ForwardSuccessRelays(request: Bytes, geo: Option<string>, parse: Parser,
                             serialize: Serializer, forward: Forwarder, answer: Message)
    requires parse(request).Success?
    requires forward(parse(request).value, ServerFor(CountryOf(geo))) == Success(answer)
    ensures HandleClientRequest(request, geo, parse, serialize, forward) ==
            Some(if serialize(answer).Success? then serialize(answer).value else [])
  {
  }
}
