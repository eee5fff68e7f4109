/** `ServerSelector` of DNS/src/main.rs: one cursor, shared by every
    request, that hands out the servers of whatever list it is given in
    cyclic order. */
module RoundRobin {
  import opened DnsMessage

  class ServerSelector {
    /** The cursor (`usize` in the source; it never exceeds the length of the
        longest list it has been given, so it cannot overflow). */
    var index: nat

    constructor ()
      ensures index == 0
    {
      index := 0;
    }

    /** `next_server`: the server at the cursor, taken modulo the length of
        this list, after which the cursor moves one place on. The source
        panics on an empty list. */
    method NextServer(servers: seq<Address>) returns (server: Address)
      requires |servers| > 0
      modifies this
      ensures server == servers[old(index) % |servers|]
      ensures index == (old(index) + 1) % |servers|
      ensures index < |servers|
      ensures [server] == Selections(servers, old(index), 1)
      ensures index == CursorAfter(servers, old(index), 1)
    {
      server := servers[index % |servers|];
      index := (index + 1) % |servers|;
    }
  }

  /** The servers returned by `n` consecutive `next_server` calls on
      `servers`, starting from cursor `cursor`. */
  function Selections(servers: seq<Address>, cursor: nat, n: nat): (picked: seq<Address>)
    requires |servers| > 0
    decreases n
  {
    if n == 0 then []
    else [servers[cursor % |servers|]] + Selections(servers, (cursor + 1) % |servers|, n - 1)
  }

  /** The cursor left behind by those `n` calls. */
  function CursorAfter(servers: seq<Address>, cursor: nat, n: nat): (cursor': nat)
    requires |servers| > 0
    decreases n
  {
    if n == 0 then cursor else CursorAfter(servers, (cursor + 1) % |servers|, n - 1)
  }

  lemma MulAtLeast(d: int, n: int)
    requires d >= 1 && n > 0
    ensures d * n >= n
  {
  }

  /** Euclidean division has one remainder: any representation
      x == q * n + r with 0 <= r < n gives x % n == r. */
  lemma ModUnique(x: int, n: int, q: int, r: int)
    requires n > 0 && 0 <= r < n && x == q * n + r
    ensures x % n == r
  {
    var q', r' := x / n, x % n;
    assert x == q' * n + r';
    assert (q - q') * n == r' - r;
    if q - q' >= 1 {
      MulAtLeast(q - q', n);
    } else if q' - q >= 1 {
      MulAtLeast(q' - q, n);
    }
  }

  lemma ModAddLeft(a: nat, b: nat, n: nat)
    requires n > 0
    ensures (a % n + b) % n == (a + b) % n
  {
    var q, r := (a % n + b) / n, (a % n + b) % n;
    assert a % n + b == q * n + r;
    assert a == (a / n) * n + a % n;
    assert a + b == (a / n + q) * n + r;
    ModUnique(a + b, n, a / n + q, r);
  }

  /** The k-th of n consecutive selections is the server k places after the
      starting cursor, cyclically. */
  lemma {:induction false} SelectionAt(servers: seq<Address>, cursor: nat, n: nat, k: nat)
    requires |servers| > 0 && k < n
    ensures |Selections(servers, cursor, n)| == n
    ensures Selections(servers, cursor, n)[k] == servers[(cursor + k) % |servers|]
    decreases n
  {
    var len := |servers|;
    if k == 0 {
      SelectionsLength(servers, cursor, n);
    } else {
      SelectionAt(servers, (cursor + 1) % len, n - 1, k - 1);
      ModAddLeft(cursor + 1, k - 1, len);
    }
  }

  lemma {:induction false} SelectionsLength(servers: seq<Address>, cursor: nat, n: nat)
    requires |servers| > 0
    ensures |Selections(servers, cursor, n)| == n
    decreases n
  {
    if n > 0 {
      SelectionsLength(servers, (cursor + 1) % |servers|, n - 1);
    }
  }

  /** After at least one call the cursor is (start + calls) modulo the length,
      hence always below the length of the list. */
  lemma {:induction false} CursorAfterValue(servers: seq<Address>, cursor: nat, n: nat)
    requires |servers| > 0 && n > 0
    ensures CursorAfter(servers, cursor, n) == (cursor + n) % |servers|
    ensures CursorAfter(servers, cursor, n) < |servers|
    decreases n
  {
    var len := |servers|;
    if n > 1 {
      CursorAfterValue(servers, (cursor + 1) % len, n - 1);
      ModAddLeft(cursor + 1, n - 1, len);
    }
  }

  /** `m + n` calls are `m` calls followed by `n` calls from where those left
      the cursor: the selections of successive requests concatenate. */
  lemma {:induction false} SelectionsSplit(servers: seq<Address>, cursor: nat, m: nat, n: nat)
    requires |servers| > 0
    ensures Selections(servers, cursor, m + n) ==
            Selections(servers, cursor, m) + Selections(servers, CursorAfter(servers, cursor, m), n)
    decreases m
  {
    if m > 0 {
      SelectionsSplit(servers, (cursor + 1) % |servers|, m - 1, n);
      assert m + n - 1 == (m - 1) + n;
    }
  }

  /** |servers| consecutive calls from any cursor hand out the list rotated
      to start at the cursor (modulo the length). */
  lemma FullCycleIsRotation(servers: seq<Address>, cursor: nat)
    requires |servers| > 0
    ensures Selections(servers, cursor, |servers|) ==
            servers[cursor % |servers|..] + servers[..cursor % |servers|]
  {
    var len := |servers|;
    var start := cursor % len;
    var rotated := servers[start..] + servers[..start];
    SelectionsLength(servers, cursor, len);
    forall k | 0 <= k < len
      ensures Selections(servers, cursor, len)[k] == rotated[k]
    {
      SelectionAt(servers, cursor, len, k);
      ModAddLeft(cursor, k, len);
      if start + k < len {
        ModUnique(start + k, len, 0, start + k);
      } else {
        ModUnique(start + k, len, 1, start + k - len);
      }
    }
  }

  /** Fairness: |servers| consecutive calls from any cursor return every
      entry of the list exactly as often as it occurs in the list, so a list
      of distinct servers is visited once each before any repeats. */
  lemma FullCycleVisitsEachOnce(servers: seq<Address>, cursor: nat)
    requires |servers| > 0
    ensures multiset(Selections(servers, cursor, |servers|)) == multiset(servers)
    ensures forall s :: s in servers <==> s in Selections(servers, cursor, |servers|)
  {
    var start := cursor % |servers|;
    FullCycleIsRotation(servers, cursor);
    assert servers == servers[..start] + servers[start..];
    assert multiset(servers) == multiset(servers[..start]) + multiset(servers[start..]);
    forall s ensures s in servers <==> s in Selections(servers, cursor, |servers|) {
      assert s in servers <==> s in multiset(servers);
    }
  }

  /** From a fresh selector the first |servers| calls follow list order. */
  lemma FreshSelectorFollowsListOrder(servers: seq<Address>)
    requires |servers| > 0
    ensures Selections(servers, 0, |servers|) == servers
  {
    FullCycleIsRotation(servers, 0);
    assert 0 % |servers| == 0;
    assert servers[0..] + servers[..0] == servers;
  }

  /** The selections repeat with period |servers|. */
  lemma SelectionsPeriodic(servers: seq<Address>, cursor: nat, n: nat, k: nat)
    requires |servers| > 0 && k + |servers| < n
    ensures |Selections(servers, cursor, n)| == n
    ensures Selections(servers, cursor, n)[k + |servers|] == Selections(servers, cursor, n)[k]
  {
    var len := |servers|;
    SelectionAt(servers, cursor, n, k);
    SelectionAt(servers, cursor, n, k + len);
    ModUnique(cursor + k + len, len, (cursor + k) / len + 1, (cursor + k) % len);
  }
}
