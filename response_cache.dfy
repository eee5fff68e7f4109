/** The response cache of Dns/src/utils.rs: `cached_forward` and
    `extract_min_ttl`.

    The cache maps (request bytes, country) to a response and an absolute
    expiry. Time is a natural number of seconds; the two readings of the
    clock in `cached_forward` (when an entry is found, and after the
    upstream answered) are the parameters `lookupTime` and `storeTime`. The raw
    forwarder (`forward_dns_request_raw`) and the codec are parameters. */
module ResponseCache {
  import opened Wrappers
  import opened DnsMessage

  /** The cache key: request bytes and country code. */
  type CacheKey = (Bytes, string)

  datatype CacheEntry = CacheEntry(response: Bytes, expiresAt: nat)

  type Entries = map<CacheKey, CacheEntry>

  /** `forward_dns_request_raw(request, upstream)`. */
  type RawForwarder = (Bytes, Address) -> Result<Bytes, IoError>

  /** The TTL used when the response has no answer or does not parse. */
  const DefaultTtl: nat := 60

  /** `iter().map(ttl).min()`: the least TTL, or nothing for no answers. */
  function MinTtl(ttls: seq<nat>): (least: Option<nat>)
    ensures least.None? <==> ttls == []
    ensures least.Some? ==> least.value in ttls
    ensures least.Some? ==> forall t :: t in ttls ==> least.value <= t
  {
    if ttls == [] then None
    else
      assert ttls == [ttls[0]] + ttls[1..];
      match MinTtl(ttls[1..])
      case None => Some(ttls[0])
      case Some(rest) => Some(if ttls[0] <= rest then ttls[0] else rest)
  }

  /** `extract_min_ttl`: the least answer TTL of the response, or nothing
      when it does not parse or has no answers. */
  function ExtractMinTtl(response: Bytes, parse: Parser): (ttl: Option<nat>)
    ensures parse(response).Failure? ==> ttl.None?
    ensures parse(response).Success? ==>
      (ttl.None? <==> parse(response).value.answerTtls == []) &&
      (ttl.Some? ==> ttl.value in parse(response).value.answerTtls &&
                     forall t :: t in parse(response).value.answerTtls ==> ttl.value <= t)
  {
    match parse(response)
    case Success(message) => MinTtl(message.answerTtls)
    case Failure(_) => None
  }

  /** The freshness lifetime `cached_forward` gives a response. */
  function TtlFor(response: Bytes, parse: Parser): (ttl: nat) {
    ExtractMinTtl(response, parse).GetOr(DefaultTtl)
  }

  /** The TTL is 60 seconds exactly when the response does not parse, has no
      answer, or its least answer TTL is 60; otherwise it is that least TTL. */
  lemma TtlForCases(response: Bytes, parse: Parser)
    ensures parse(response).Failure? ==> TtlFor(response, parse) == DefaultTtl
    ensures parse(response).Success? && parse(response).value.answerTtls == [] ==>
      TtlFor(response, parse) == DefaultTtl
    ensures parse(response).Success? && parse(response).value.answerTtls != [] ==>
      TtlFor(response, parse) in parse(response).value.answerTtls &&
      forall t :: t in parse(response).value.answerTtls ==> TtlFor(response, parse) <= t
  {
  }

  /** The result of `cached_forward` and the cache it leaves behind. */
  function CachedForwardSpec(entries: Entries, request: Bytes, country: string, upstream: Address,
                             lookupTime: nat, storeTime: nat, forward: RawForwarder, parse: Parser)
    : (outcome: (Result<Bytes, IoError>, Entries))
    ensures var (result, entries') := outcome;
      && entries'.Keys <= entries.Keys + {(request, country)}
      && (result.Success? ==> (request, country) in entries' &&
                              entries'[(request, country)].response == result.value)
      && (result.Failure? ==> result == forward(request, upstream) && (request, country) !in entries')
  {
    var key := (request, country);
    if key in entries && lookupTime < entries[key].expiresAt then
      (Success(entries[key].response), entries)
    else
      var pruned := entries - {key};
      match forward(request, upstream)
      case Failure(e) => (Failure(e), pruned)
      case Success(response) =>
        (Success(response), pruned[key := CacheEntry(response, storeTime + TtlFor(response, parse))])
  }

  /** The shared cache (a `DashMap` in the source). */
  class DnsCache {
    var entries: Entries

    constructor ()
      ensures entries == map[]
    {
      entries := map[];
    }

    /** `cached_forward`. */
    method CachedForward(request: Bytes, country: string, upstream: Address, lookupTime: nat,
                         storeTime: nat, forward: RawForwarder, parse: Parser)
      returns (result: Result<Bytes, IoError>)
      modifies this
      ensures (result, entries) ==
        CachedForwardSpec(old(entries), request, country, upstream, lookupTime, storeTime, forward, parse)
    {
      var key := (request, country);
      if key in entries {
        var entry := entries[key];
        if lookupTime < entry.expiresAt {
          return Success(entry.response);
        }
        entries := entries - {key};
      } else {
        assert entries - {key} == entries;
      }
      var forwarded := forward(request, upstream);
      if forwarded.Failure? {
        return Failure(forwarded.error);
      }
      var response := forwarded.value;
      var ttl := TtlFor(response, parse);
      entries := entries[key := CacheEntry(response, storeTime + ttl)];
      result := Success(response);
    }
  }

  /** A fresh entry is served as stored, the cache is left as it was, and
      the upstream is not consulted: any other forwarder gives the same. */
  lemma FreshHitServesStored(entries: Entries, request: Bytes, country: string, upstream: Address,
                             lookupTime: nat, storeTime: nat, forward: RawForwarder, parse: Parser,
                             upstream': Address, forward': RawForwarder)
    requires (request, country) in entries && lookupTime < entries[(request, country)].expiresAt
    ensures CachedForwardSpec(entries, request, country, upstream, lookupTime, storeTime, forward, parse) ==
            (Success(entries[(request, country)].response), entries)
    ensures CachedForwardSpec(entries, request, country, upstream, lookupTime, storeTime, forward, parse) ==
            CachedForwardSpec(entries, request, country, upstream', lookupTime, storeTime, forward', parse)
  {
  }

  /** An entry whose expiry has been reached is never served: the result is
      whatever the upstream returns now, and if that fails the stale entry
      is gone. */
  lemma ExpiredEntryNeverServed(entries: Entries, request: Bytes, country: string, upstream: Address,
                                lookupTime: nat, storeTime: nat, forward: RawForwarder, parse: Parser)
    requires (request, country) in entries && lookupTime >= entries[(request, country)].expiresAt
    ensures var (result, entries') :=
      CachedForwardSpec(entries, request, country, upstream, lookupTime, storeTime, forward, parse);
      && result == forward(request, upstream)
      && (result.Failure? ==> (request, country) !in entries')
  {
  }

  /** On a miss whose forward succeeds, the response is returned and stored
      under (request, country) until `storeTime` plus its TTL. */
  lemma MissStoresResponse(entries: Entries, request: Bytes, country: string, upstream: Address,
                           lookupTime: nat, storeTime: nat, forward: RawForwarder, parse: Parser, response: Bytes)
    requires !((request, country) in entries && lookupTime < entries[(request, country)].expiresAt)
    requires forward(request, upstream) == Success(response)
    ensures var (result, entries') :=
      CachedForwardSpec(entries, request, country, upstream, lookupTime, storeTime, forward, parse);
      && result == Success(response)
      && (request, country) in entries'
      && entries'[(request, country)] == CacheEntry(response, storeTime + TtlFor(response, parse))
  {
  }

  /** A failed forward inserts nothing: the only possible change is the
      removal of the expired entry for this key. */
  lemma FailureInsertsNothing(entries: Entries, request: Bytes, country: string, upstream: Address,
                              lookupTime: nat, storeTime: nat, forward: RawForwarder, parse: Parser)
    requires forward(request, upstream).Failure?
    ensures var (result, entries') :=
      CachedForwardSpec(entries, request, country, upstream, lookupTime, storeTime, forward, parse);
      && entries'.Keys <= entries.Keys
      && (result.Failure? ==> entries' == entries - {(request, country)})
      && (result.Success? ==> entries' == entries)
  {
  }

  /** Only the entry of the request's own key is ever removed or inserted. */
  lemma OtherKeysUnchanged(entries: Entries, request: Bytes, country: string, upstream: Address,
                           lookupTime: nat, storeTime: nat, forward: RawForwarder, parse: Parser, other: CacheKey)
    requires other != (request, country)
    ensures var entries' :=
      CachedForwardSpec(entries, request, country, upstream, lookupTime, storeTime, forward, parse).1;
      && (other in entries' <==> other in entries)
      && (other in entries ==> entries'[other] == entries[other])
  {
  }

  /** Identical requests from different countries never share an entry: a
      call for one country neither creates nor alters the other's. */
  lemma CountriesDoNotShare(entries: Entries, request: Bytes, country: string, country': string,
                            upstream: Address, lookupTime: nat, storeTime: nat, forward: RawForwarder, parse: Parser)
    requires country != country'
    ensures var entries' :=
      CachedForwardSpec(entries, request, country, upstream, lookupTime, storeTime, forward, parse).1;
      && ((request, country') in entries' <==> (request, country') in entries)
      && ((request, country') in entries ==> entries'[(request, country')] == entries[(request, country')])
  {
    OtherKeysUnchanged(entries, request, country, upstream, lookupTime, storeTime, forward, parse, (request, country'));
  }

  /** Store-then-lookup: after a miss that stored a response with a positive
      TTL, the same request from the same country, at any time before the
      expiry, is answered from the cache with that response and leaves the
      cache unchanged, whatever the upstream would say. */
  lemma StoreThenLookupHits(entries: Entries, request: Bytes, country: string, upstream: Address,
                            lookupTime: nat, storeTime: nat, forward: RawForwarder, parse: Parser,
                            response: Bytes, upstream': Address, laterLookup: nat, laterStore: nat,
                            forward': RawForwarder)
    requires !((request, country) in entries && lookupTime < entries[(request, country)].expiresAt)
    requires forward(request, upstream) == Success(response)
    requires storeTime <= laterLookup < storeTime + TtlFor(response, parse)
    ensures var entries' :=
      CachedForwardSpec(entries, request, country, upstream, lookupTime, storeTime, forward, parse).1;
      CachedForwardSpec(entries', request, country, upstream', laterLookup, laterStore, forward', parse) ==
        (Success(response), entries')
  {
    MissStoresResponse(entries, request, country, upstream, lookupTime, storeTime, forward, parse, response);
  }

  /** With a TTL of 0 the stored entry is already expired: the next lookup,
      even at the same instant, forwards again. */
  lemma ZeroTtlIsAlreadyExpired(entries: Entries, request: Bytes, country: string, upstream: Address,
                                lookupTime: nat, storeTime: nat, forward: RawForwarder, parse: Parser,
                                response: Bytes, upstream': Address, laterLookup: nat, laterStore: nat,
                                forward': RawForwarder)
    requires !((request, country) in entries && lookupTime < entries[(request, country)].expiresAt)
    requires forward(request, upstream) == Success(response)
    requires TtlFor(response, parse) == 0 && storeTime <= laterLookup
    ensures var entries' :=
      CachedForwardSpec(entries, request, country, upstream, lookupTime, storeTime, forward, parse).1;
      CachedForwardSpec(entries', request, country, upstream', laterLookup, laterStore, forward', parse).0 ==
        forward'(request, upstream')
  {
    MissStoresResponse(entries, request, country, upstream, lookupTime, storeTime, forward, parse, response);
  }
}
