/** GR/src/main.rs: a TCP service that answers each connection with a text
    chosen from the client's country, using the `GeoRouting` table.

    The peer address and the GeoIP lookup are parameters: `peer` is what
    `peer_addr()` returned and `lookup(ip)` the ISO code the database gives
    (nothing when the lookup fails or has no country or no code). */
module GeoRouter {
  import opened Wrappers

  type IpAddr = string

  datatype PeerError = PeerError(reason: string)

  /** The routing table: country code to server. */
  datatype GeoRouting = GeoRouting(geoData: map<string, string>)

  const FailedToGetIp: string := "Failed to get IP"
  const RedirectPrefix: string := "Redirecting to: "
  const Welcome: string := "Welcome! You" + "'" + "re connected to the default server."
  const CountryUnknown: string := "Could not determine country"

  /** `GeoRouting::new`: a table holding exactly IR to 8.8.8.8. */
  function NewGeoRouting(): (routing: GeoRouting)
    ensures routing.geoData.Keys == {"IR"}
    ensures routing.geoData["IR"] == "8.8.8.8"
  {
    GeoRouting(map["IR" := "8.8.8.8"])
  }

  /** `route_request`: the table's server for the country, if any. */
  function RouteRequest(routing: GeoRouting, country: string): (server: Option<string>)
    ensures server.Some? <==> country in routing.geoData
    ensures server.Some? ==> server.value == routing.geoData[country]
  {
    if country in routing.geoData then Some(routing.geoData[country]) else None
  }

  /** `handle_request`: the text written back to the client. */
  function HandleRequest(peer: Result<IpAddr, PeerError>, lookup: IpAddr -> Option<string>,
                         routing: GeoRouting): (reply: string)
    ensures reply == FailedToGetIp <==> peer.Failure?
    ensures reply == CountryUnknown <==> peer.Success? && lookup(peer.value).None?
    ensures reply == Welcome <==>
      (peer.Success? && lookup(peer.value).Some? &&
       !(lookup(peer.value).value == "IR" && "IR" in routing.geoData))
  {
    match peer
    case Failure(_) => FailedToGetIp
    case Success(ip) =>
      match lookup(ip)
      case None => CountryUnknown
      case Some(code) =>
        if code == "IR" && RouteRequest(routing, code).Some? then
          var redirect := RedirectPrefix + RouteRequest(routing, code).value;
          // The redirect starts with 'R'; the three fixed texts do not.
          assert redirect[0] == 'R' && FailedToGetIp[0] == 'F';
          assert CountryUnknown[0] == 'C' && Welcome[0] == 'W';
          redirect
        else
          Welcome
  }

  /** With the table from `new`, only IR is routed. */
  lemma NewRoutesOnlyIran(country: string)
    ensures RouteRequest(NewGeoRouting(), country) ==
            if country == "IR" then Some("8.8.8.8") else None
  {
  }

  /** The reply in each case: a redirect exactly for IR with a table entry,
      the welcome text for any other known country (and IR without an
      entry), and the unknown-country text when there is no code. */
  lemma HandleRequestCases(peer: Result<IpAddr, PeerError>, lookup: IpAddr -> Option<string>,
                           routing: GeoRouting)
    ensures peer.Failure? ==> HandleRequest(peer, lookup, routing) == FailedToGetIp
    ensures peer.Success? && lookup(peer.value).None? ==>
      HandleRequest(peer, lookup, routing) == CountryUnknown
    ensures peer.Success? && lookup(peer.value) == Some("IR") && "IR" in routing.geoData ==>
      HandleRequest(peer, lookup, routing) == RedirectPrefix + routing.geoData["IR"]
    ensures peer.Success? && lookup(peer.value).Some? &&
            (lookup(peer.value) != Some("IR") || "IR" !in routing.geoData) ==>
      HandleRequest(peer, lookup, routing) == Welcome
  {
  }

  /** With the table from `new`: IR clients are sent to 8.8.8.8, every other
      located client is welcomed, the rest are told the country is unknown. */
  lemma DefaultRoutingReplies(ip: IpAddr, lookup: IpAddr -> Option<string>)
    ensures HandleRequest(Success(ip), lookup, NewGeoRouting()) ==
      match lookup(ip)
      case None => CountryUnknown
      case Some(code) => if code == "IR" then "Redirecting to: 8.8.8.8" else Welcome
  {
  }
}
