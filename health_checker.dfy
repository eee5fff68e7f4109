/** One tick of `spawn_health_checker` in Dns/src/utils.rs: every upstream's
    health flag is overwritten with the outcome of probing it.

    The probe (`test_dns_query` under a two-second `timeout`) is a parameter
    giving each address's outcome for this tick. */
module HealthChecker {
  import opened Wrappers
  import opened DnsMessage

  /** What `timeout(.., test_dns_query(&addr))` yields: the probe completed
      (with its own I/O result) or the timeout elapsed first. */
  datatype ProbeOutcome = Completed(result: Result<(), IoError>) | TimedOut

  /** `.map(|r| r.is_ok()).unwrap_or(false)`. */
  function Healthy(outcome: ProbeOutcome): (healthy: bool)
    ensures healthy <==> outcome.Completed? && outcome.result.Success?
  {
    match outcome
    case Completed(result) => result.Success?
    case TimedOut => false
  }

  /** The flags after one tick. */
  function AfterTick(status: map<Address, bool>, probe: Address -> ProbeOutcome): (status': map<Address, bool>)
    ensures status'.Keys == status.Keys
    ensures forall addr :: addr in status' ==>
      (status'[addr] <==> probe(addr).Completed? && probe(addr).result.Success?)
  {
    map addr | addr in status :: Healthy(probe(addr))
  }

  /** The upstream map behind its `RwLock`. */
  class Upstreams {
    var status: map<Address, bool>

    constructor (initial: map<Address, bool>)
      ensures status == initial
    {
      status := initial;
    }

    /** The body of the checker's loop: for every address, in no particular
        order, store whether its probe succeeded in time. */
    method HealthTick(probe: Address -> ProbeOutcome)
      modifies this
      ensures status == AfterTick(old(status), probe)
    {
      var pending := status.Keys;
      while pending != {}
        invariant pending <= status.Keys
        invariant status.Keys == old(status).Keys
        invariant forall addr :: addr in status && addr !in pending ==> status[addr] == Healthy(probe(addr))
        decreases pending
      {
        var addr :| addr in pending;
        status := status[addr := Healthy(probe(addr))];
        pending := pending - {addr};
      }
    }
  }

  /** A tick neither adds nor removes upstreams. */
  lemma TickKeepsAddresses(status: map<Address, bool>, probe: Address -> ProbeOutcome)
    ensures AfterTick(status, probe).Keys == status.Keys
  {
  }

  /** After a tick each flag is the probe's outcome alone: true exactly when
      the probe completed without error before the timeout, whatever the flag
      was before. */
  lemma TickSetsProbeOutcome(status: map<Address, bool>, status': map<Address, bool>,
                             probe: Address -> ProbeOutcome, addr: Address)
    requires addr in status
    requires status'.Keys == status.Keys
    ensures addr in AfterTick(status, probe)
    ensures AfterTick(status, probe)[addr] <==> probe(addr).Completed? && probe(addr).result.Success?
    ensures AfterTick(status, probe) == AfterTick(status', probe)
  {
  }

  /** An upstream whose probe times out or fails is unhealthy after the tick. */
  lemma FailedProbeMarksUnhealthy(status: map<Address, bool>, probe: Address -> ProbeOutcome, addr: Address)
    requires addr in status
    requires probe(addr) == TimedOut || probe(addr).result.Failure?
    ensures !AfterTick(status, probe)[addr]
  {
  }

  /** Two ticks with the same outcomes leave the flags as one does. */
  lemma TickIdempotent(status: map<Address, bool>, probe: Address -> ProbeOutcome)
    ensures AfterTick(AfterTick(status, probe), probe) == AfterTick(status, probe)
  {
  }
}
