/** src/pool.rs `BrokerPool`: the idle queue, the connection count and the wake-up permit
    of one broker, as values. */
module Pool {

  type ConnId = nat

  /** Where the background reaper is in one round. It keeps the idle queue locked
      until it has counted its removals and notified. */
  datatype Reaper = Asleep | Removed(n: nat) | Notifying

  datatype Pool = Pool(
    maxPerBroker: nat,
    minIdle: nat,
    idle: seq<ConnId>,
    count: nat,
    permit: bool,            // a stored `notify_one` nobody was waiting for
    reaper: Reaper)

  const USIZE_MAX: nat := 0xFFFF_FFFF_FFFF_FFFF

  /** A pool after `warmup` put `warm` connections in the idle queue, uncounted. */
  function Warmed(maxPerBroker: nat, minIdle: nat, warm: seq<ConnId>): Pool {
    Pool(maxPerBroker, minIdle, warm, 0, false, Asleep)
  }

  /** Giving a reservation back after a failed handshake: `count -= 1` on a usize. */
  function Unreserved(p: Pool): Pool {
    p.(count := if p.count == 0 then USIZE_MAX else p.count - 1)
  }

  /** A returned connection is kept unless the idle queue is full. */
  function Returned(p: Pool, conn: ConnId): Pool {
    if |p.idle| < p.maxPerBroker then p.(idle := p.idle + [conn]) else p
  }

  function Keep(idle: seq<ConnId>, expired: set<ConnId>): (r: seq<ConnId>)
    ensures |r| <= |idle|
    ensures forall k :: k in r <==> k in idle && k !in expired
  {
    if idle == [] then []
    else if idle[0] in expired then Keep(idle[1..], expired)
    else [idle[0]] + Keep(idle[1..], expired)
  }

  /** One reaper pass over the idle queue. */
  function Reaped(p: Pool, expired: set<ConnId>): Pool {
    var kept := Keep(p.idle, expired);
    p.(idle := kept, reaper := if |kept| < |p.idle| then Removed(|p.idle| - |kept|) else Asleep)
  }

  /** `count.saturating_sub(removed)`. */
  function Recounted(p: Pool): Pool
    requires p.reaper.Removed?
  {
    p.(count := if p.count >= p.reaper.n then p.count - p.reaper.n else 0, reaper := Notifying)
  }

  ghost predicate NoRepeats(s: seq<nat>) {
    forall i, j :: 0 <= i < j < |s| ==> s[i] != s[j]
  }

  lemma {:induction false} KeepNoRepeats(idle: seq<ConnId>, expired: set<ConnId>)
    requires NoRepeats(idle)
    ensures NoRepeats(Keep(idle, expired))
    decreases |idle|
  {
    if idle != [] {
      KeepNoRepeats(idle[1..], expired);
      assert idle[0] !in Keep(idle[1..], expired);
    }
  }
}
