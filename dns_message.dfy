/** The logical view of a DNS message that the proxies inspect, and the two
    reply paths on which DNS/src/main.rs and Dns/src/main.rs behave identically:
    `send_error_response` and the relay of a forwarded answer.

    The wire codec is a foreign library: parsing and serialising appear here
    only as function-valued parameters (`Parser`, `Serializer`), so every
    result below holds for whatever the codec does, unless a lemma states an
    assumption about it (`HeaderLossless`).

    The `DEFAULT` country and its fallback (`CountryOf`) live here as well:
    both proxies apply them to every request before it is parsed, and both
    routing tables are keyed by them. */
module DnsMessage {
  import opened Wrappers

  /** A raw UDP payload. */
  type Bytes = seq<bv8>

  /** A socket address such as "8.8.8.8:53", kept as the text the tables hold. */
  type Address = string

  /** The 16-bit transaction ID of a DNS header. */
  type Id = x: int | 0 <= x < 0x1_0000

  datatype MessageType = Query | Response

  datatype ResponseCode = NoError | FormErr | ServFail | OtherCode(code: nat)

  datatype Header = Header(id: Id, messageType: MessageType, responseCode: ResponseCode)

  /** A parsed message: its header and the TTL (seconds) of each answer record. */
  datatype Message = Message(header: Header, answerTtls: seq<nat>)

  /** A failure reported by the codec (`ProtoError`). */
  datatype ProtoError = ProtoError(reason: string)

  /** A failure of socket I/O, a timeout, or an upstream reply that did not parse. */
  datatype IoError = IoError(reason: string)

  /** `Message::from_vec`. */
  type Parser = Bytes -> Result<Message, ProtoError>

  /** `Message::to_vec`. */
  type Serializer = Message -> Result<Bytes, ProtoError>

  /** `forward_dns_request(&request, server)`: send the request to one
      upstream and parse its reply. */
  type Forwarder = (Message, Address) -> Result<Message, IoError>

  /** The country used when geolocation gives nothing, and the key of the
      fallback entry of every routing table. */
  const DefaultCountry: string := "DEFAULT"

  /** `get_country_from_ip(..).unwrap_or_else(|| "DEFAULT")`: the geolocated
      code is kept as it is (even an empty one), and only its absence becomes
      `DEFAULT`. */
  function CountryOf(geo: Option<string>): (country: string)
    ensures geo.None? ==> country == DefaultCountry
    ensures geo.Some? ==> country == geo.value
  {
    geo.GetOr(DefaultCountry)
  }

  /** `Message::new()` with its ID, response code and message type set. */
  function ErrorMessage(id: Id, code: ResponseCode): (message: Message) {
    Message(Header(id, Response, code), [])
  }

  /** `send_error_response`: the datagram sent to the client, if any. The
      request bytes are parsed again to recover the ID, so when they do not
      parse nothing at all is sent; nothing is sent either when the error
      message cannot be serialised. */
  function ErrorResponse(request: Bytes, code: ResponseCode, parse: Parser, serialize: Serializer)
    : (sent: Option<Bytes>)
    ensures parse(request).Failure? ==> sent == None
    ensures parse(request).Success? ==>
      (sent.Some? <==> serialize(ErrorMessage(parse(request).value.header.id, code)).Success?)
    ensures sent.Some? ==>
      exists reply :: serialize(reply) == Success(sent.value) &&
                      reply.header == Header(parse(request).value.header.id, Response, code)
  {
    match parse(request)
    case Failure(_) => None
    case Success(original) =>
      var reply := ErrorMessage(original.header.id, code);
      match serialize(reply)
      case Success(bytes) => Some(bytes)
      case Failure(_) => None
  }

  /** The branch taken once the request parsed and the upstream was asked:
      on success the upstream's message is serialised again and sent (an
      empty payload when that fails); on failure a SERVFAIL error response. */
  function Relay(request: Bytes, forwarded: Result<Message, IoError>, parse: Parser, serialize: Serializer)
    : (sent: Option<Bytes>)
    ensures forwarded.Success? ==> sent.Some?
    ensures forwarded.Failure? && sent.Some? ==> parse(request).Success?
    ensures forwarded.Failure? ==> sent == ErrorResponse(request, ServFail, parse, serialize)
  {
    match forwarded
    case Success(response) => Some(serialize(response).GetOr([]))
    case Failure(_) => ErrorResponse(request, ServFail, parse, serialize)
  }

  /** The codec keeps the header fields the proxy inspects: whatever it
      serialises parses back with the same ID, type and response code. */
  ghost predicate HeaderLossless(parse: Parser, serialize: Serializer) {
    forall m :: serialize(m).Success? ==>
      parse(serialize(m).value).Success? && parse(serialize(m).value).value.header == m.header
  }

  /** A client that parses an error response sees the transaction ID of its
      own request, the Response type and the requested code. */
  lemma ErrorResponseEchoesId(request: Bytes, code: ResponseCode, parse: Parser, serialize: Serializer)
    requires HeaderLossless(parse, serialize)
    requires ErrorResponse(request, code, parse, serialize).Some?
    ensures parse(request).Success?
    ensures var reply := ErrorResponse(request, code, parse, serialize).value;
      parse(reply).Success? &&
      parse(reply).value.header == Header(parse(request).value.header.id, Response, code)
  {
    var m := ErrorMessage(parse(request).value.header.id, code);
    assert serialize(m).Success?;
  }

  /** Once the request parsed, an upstream failure yields a SERVFAIL reply
      unless serialising it fails, and a success always yields a datagram.
      An upstream that never answers is not among these outcomes: the
      forwarder of the source has no timeout, and then nothing is sent. */
  lemma RelayAnswers(request: Bytes, forwarded: Result<Message, IoError>, parse: Parser, serialize: Serializer)
    requires parse(request).Success?
    ensures forwarded.Success? ==>
      Relay(request, forwarded, parse, serialize) ==
        Some(if serialize(forwarded.value).Success? then serialize(forwarded.value).value else [])
    ensures forwarded.Failure? ==>
      (Relay(request, forwarded, parse, serialize).Some? <==>
       serialize(ErrorMessage(parse(request).value.header.id, ServFail)).Success?)
  {
  }
}
