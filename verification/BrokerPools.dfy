/** src/pool.rs `BrokerPool` as the object it is: the idle queue, the count and the wake-up permit
    changed in place, each operation against the values of module Pool. */
module BrokerPools {
  import opened Wire
  import opened Pool

  datatype PooledConn = PooledConn(connId: ConnId, alive: bool, lastUsed: nat)

  function Ids(idle: seq<PooledConn>): (r: seq<ConnId>)
    ensures |r| == |idle| && forall i :: 0 <= i < |idle| ==> r[i] == idle[i].connId
  {
    seq(|idle|, i requires 0 <= i < |idle| => idle[i].connId)
  }

  datatype Lease = Lent(conn: ConnId) | Made(conn: ConnId) | HandshakeFailed | TimedOut

  /** What other tasks do to the pool. */
  datatype Deed = Release(conn: ConnId) | Take | Make | Reap(expired: set<ConnId>)

  /** One try of `acquire`: what others do between its look at the queue and its look at the count, what
      they do while it waits, and how the wait ends. */
  datatype Round = Round(gap: seq<Deed>, meanwhile: seq<Deed>, woken: bool)

  /** The one handshake it may start: how it turns out and what others do during it. */
  datatype Shake = Shake(ok: bool, meanwhile: seq<Deed>)

  function After(p: Pool, d: Deed): Pool {
    match d
    case Release(k) => Returned(p, k)
    case Take => if p.idle == [] then p else p.(idle := p.idle[1..])
    case Make => if p.count < p.maxPerBroker then p.(count := p.count + 1) else p
    case Reap(expired) =>
      var q := Reaped(p.(reaper := Asleep), expired);
      if q.reaper.Removed? then Recounted(q).(reaper := Asleep) else q
  }

  function AfterAll(p: Pool, ds: seq<Deed>): Pool
    decreases |ds|
  {
    if ds == [] then p else After(AfterAll(p, ds[..|ds| - 1]), ds[|ds| - 1])
  }

  function GapOf(rounds: seq<Round>): seq<Deed> {
    if rounds == [] then [] else rounds[0].gap
  }

  /** `acquire`: an idle connection, else a new one below the limit, else a wait and another try. */
  function Acquisition(p: Pool, next: ConnId, shake: Shake, rounds: seq<Round>): (Pool, Lease)
    decreases |rounds|
  {
    var q := AfterAll(p, GapOf(rounds));
    if p.idle != [] then (p.(idle := p.idle[1..]), Lent(p.idle[0]))
    else if q.count < q.maxPerBroker then
      var u := AfterAll(q.(count := q.count + 1), shake.meanwhile);
      if shake.ok then (u, Made(next)) else (Unreserved(u), HandshakeFailed)
    else if rounds == [] then (q, TimedOut)
    else
      var v := AfterAll(q, rounds[0].meanwhile);
      if rounds[0].woken then Acquisition(v, next, shake, rounds[1..]) else (v, TimedOut)
  }

  /** The last try of `acquire`: the pool as it finds the queue, as it finds the count, and as it is left;
      others changed it before, `acquire` did not. */
  datatype Try = Try(checked: Pool, asked: Pool, ended: Pool)

  function LastTry(p: Pool, rounds: seq<Round>): Try
    decreases |rounds|
  {
    var q := AfterAll(p, GapOf(rounds));
    if p.idle != [] then Try(p, p, p)
    else if q.count < q.maxPerBroker || rounds == [] then Try(p, q, q)
    else
      var v := AfterAll(q, rounds[0].meanwhile);
      if rounds[0].woken then LastTry(v, rounds[1..]) else Try(p, q, v)
  }

  ghost predicate WithinLimits(p: Pool) {
    p.count <= p.maxPerBroker && |p.idle| <= p.maxPerBroker
  }

  lemma {:induction false} DeedsKeepLimits(p: Pool, ds: seq<Deed>)
    requires WithinLimits(p)
    ensures WithinLimits(AfterAll(p, ds)) && AfterAll(p, ds).maxPerBroker == p.maxPerBroker
    decreases |ds|
  {
    if ds != [] {
      DeedsKeepLimits(p, ds[..|ds| - 1]);
    }
  }

  /** A successful `acquire` puts exactly one more connection out: the front of a queue it found, or a new
      one counted below the limit when it found none. A failed handshake takes back one count, and
      nothing else; a wait in vain changes nothing. Only a reservation that others counted out
      in the meantime can leave the limits. */
  lemma {:induction false} AcquisitionLends(p: Pool, next: ConnId, shake: Shake, rounds: seq<Round>)
    requires WithinLimits(p)
    ensures var (q, lease) := Acquisition(p, next, shake, rounds);
            var last := LastTry(p, rounds);
            var made := AfterAll(last.asked.(count := last.asked.count + 1), shake.meanwhile);
            && (WithinLimits(q) || (lease.HandshakeFailed? && made.count == 0))
            && match lease
               case Lent(k) => [k] + q.idle == last.checked.idle && q == last.checked.(idle := q.idle)
               case Made(k) => k == next && shake.ok && q == made
                               && last.checked.idle == [] && last.asked.count < last.asked.maxPerBroker
               case HandshakeFailed => !shake.ok && q == Unreserved(made) && (shake.meanwhile == [] ==> q == last.asked)
                                       && last.checked.idle == [] && last.asked.count < last.asked.maxPerBroker
               case TimedOut => q == last.ended && last.checked.idle == [] && last.asked.count >= last.asked.maxPerBroker
    decreases |rounds|
  {
    hide AfterAll;
    DeedsKeepLimits(p, GapOf(rounds));
    var q := AfterAll(p, GapOf(rounds));
    NoDeeds(q.(count := q.count + 1));
    if p.idle == [] {
      if q.count < q.maxPerBroker {
        DeedsKeepLimits(q.(count := q.count + 1), shake.meanwhile);
      } else if rounds != [] {
        DeedsKeepLimits(q, rounds[0].meanwhile);
        if rounds[0].woken {
          AcquisitionLends(AfterAll(q, rounds[0].meanwhile), next, shake, rounds[1..]);
        }
      }
    }
  }

  /** The pool as try i finds the queue, if the tries before it were in vain. */
  function BeforeTry(p: Pool, rounds: seq<Round>, i: nat): Pool
    requires i <= |rounds|
    decreases i
  {
    if i == 0 then p
    else BeforeTry(AfterAll(AfterAll(p, rounds[0].gap), rounds[0].meanwhile), rounds[1..], i - 1)
  }

  /** The queue is empty, and the count is at the limit when asked. */
  ghost predicate InVain(p: Pool, gap: seq<Deed>) {
    p.idle == [] && AfterAll(p, gap).count >= AfterAll(p, gap).maxPerBroker
  }

  /** `acquire` looks again exactly as long as each look was in vain and each wait was ended by a notification;
      the first look that is not in vain decides, and only a wait that times out ends it with nothing. */
  lemma {:induction false} AcquisitionTries(p: Pool, next: ConnId, shake: Shake, rounds: seq<Round>) returns (i: nat)
    ensures i <= |rounds|
    ensures forall j :: 0 <= j < i ==> rounds[j].woken && InVain(BeforeTry(p, rounds, j), rounds[j].gap)
    ensures var q, gap := BeforeTry(p, rounds, i), if i < |rounds| then rounds[i].gap else [];
            var lease := Acquisition(p, next, shake, rounds).1;
            && (lease.Lent? <==> q.idle != []) && (lease.Lent? ==> lease.conn == q.idle[0])
            && (lease.TimedOut? <==> InVain(q, gap)) && (lease.TimedOut? ==> i == |rounds| || !rounds[i].woken)
            && (lease.Made? <==> q.idle == [] && !InVain(q, gap) && shake.ok)
    decreases |rounds|
  {
    hide AfterAll;
    i := 0;
    if InVain(p, GapOf(rounds)) && rounds != [] && rounds[0].woken {
      var v := AfterAll(AfterAll(p, rounds[0].gap), rounds[0].meanwhile);
      var m := AcquisitionTries(v, next, shake, rounds[1..]);
      i := m + 1;
      forall j | 0 <= j < i ensures rounds[j].woken && InVain(BeforeTry(p, rounds, j), rounds[j].gap) {
        if j > 0 {
          assert rounds[j] == rounds[1..][j - 1];
        }
      }
    }
  }

  lemma NoDeeds(p: Pool)
    ensures AfterAll(p, []) == p
  {
  }

  /** `duration_since`: nothing has elapsed since a moment yet to come. */
  function Elapsed(now: nat, since: nat): nat {
    if now < since then 0 else now - since
  }

  /** The connections a reaper pass at time `now` removes. */
  function Stale(idle: seq<PooledConn>, now: nat, idleTimeout: nat): set<ConnId> {
    set c | c in idle && (Elapsed(now, c.lastUsed) >= idleTimeout || !c.alive) :: c.connId
  }

  /** idle is was without some places: what stands at the places `at`, in their order. */
  ghost predicate Picks(idle: seq<PooledConn>, was: seq<PooledConn>, at: seq<nat>) {
    && |at| == |idle|
    && (forall i, j :: 0 <= i < j < |at| ==> at[i] < at[j])
    && (forall i :: 0 <= i < |at| ==> at[i] < |was| && idle[i] == was[at[i]])
  }

  /** With ids all distinct, a connection's id is stale exactly if the connection is. */
  lemma StaleIsOwn(idle: seq<PooledConn>, now: nat, idleTimeout: nat, j: nat)
    requires NoRepeats(Ids(idle)) && j < |idle| && idle[j].alive
    ensures idle[j].connId !in Stale(idle, now, idleTimeout) <==> idleTimeout > 0 && now < idle[j].lastUsed + idleTimeout
  {
    forall c | c in idle && c.connId == idle[j].connId ensures c == idle[j] {
      var k :| 0 <= k < |idle| && idle[k] == c;
      assert Ids(idle)[k] == Ids(idle)[j];
      assert k < j || j < k || k == j;
    }
  }

  lemma {:induction false} KeepSnoc(ids: seq<ConnId>, k: ConnId, expired: set<ConnId>)
    ensures Keep(ids + [k], expired) == Keep(ids, expired) + (if k in expired then [] else [k])
    decreases |ids|
  {
    if ids == [] {
      assert [k][1..] == [];
    } else {
      assert (ids + [k])[1..] == ids[1..] + [k];
      KeepSnoc(ids[1..], k, expired);
    }
  }

  /** What the retaining loop has kept of the first i connections, as ids and by place. */
  ghost predicate KeptIds(kept: seq<PooledConn>, was: seq<PooledConn>, i: nat, stale: set<ConnId>) {
    && i <= |was| && Ids(kept) == Keep(Ids(was)[..i], stale) && |kept| <= i
    && forall j :: 0 <= j < |kept| ==> kept[j].alive
  }

  ghost predicate KeptAt(kept: seq<PooledConn>, was: seq<PooledConn>, i: nat, at: seq<nat>, stale: set<ConnId>) {
    && i <= |was| && Picks(kept, was, at) && (forall j :: 0 <= j < |at| ==> at[j] < i)
    && (forall j :: 0 <= j < i ==> (j in at <==> was[j].connId !in stale))
  }

  lemma KeepsId(kept: seq<PooledConn>, was: seq<PooledConn>, i: nat, stale: set<ConnId>)
    requires KeptIds(kept, was, i, stale) && i < |was| && was[i].alive
    ensures KeptIds(if was[i].connId in stale then kept else kept + [was[i]], was, i + 1, stale)
  {
    KeepSnoc(Ids(was)[..i], was[i].connId, stale);
    assert Ids(was)[..i + 1] == Ids(was)[..i] + [was[i].connId];
    assert Ids(kept + [was[i]]) == Ids(kept) + [was[i].connId];
    hide Keep, Ids;
  }

  lemma KeepsPlace(kept: seq<PooledConn>, was: seq<PooledConn>, i: nat, at: seq<nat>, stale: set<ConnId>)
    requires KeptAt(kept, was, i, at, stale) && i < |was|
    ensures if was[i].connId in stale then KeptAt(kept, was, i + 1, at, stale)
            else KeptAt(kept + [was[i]], was, i + 1, at + [i], stale)
  {
    if was[i].connId !in stale {
      forall j | 0 <= j < i + 1 ensures j in at + [i] <==> was[j].connId !in stale {
      }
    }
  }

  lemma NothingKept(was: seq<PooledConn>, stale: set<ConnId>)
    ensures KeptIds([], was, 0, stale) && KeptAt([], was, 0, [], stale)
  {
  }

  lemma AllKept(kept: seq<PooledConn>, was: seq<PooledConn>, at: seq<nat>, stale: set<ConnId>)
    requires KeptIds(kept, was, |was|, stale) && KeptAt(kept, was, |was|, at, stale)
    ensures Ids(kept) == Keep(Ids(was), stale) && |kept| <= |was| && (forall j :: 0 <= j < |kept| ==> kept[j].alive)
    ensures Picks(kept, was, at) && forall j :: 0 <= j < |was| ==> (j in at <==> was[j].connId !in stale)
  {
    hide Keep;
    assert Ids(was)[..|was|] == Ids(was);
  }

  class BrokerPool {
    const maxPerBroker: nat
    const minIdle: nat
    const idleTimeout: nat
    var idle: seq<PooledConn>
    var count: nat
    var permit: bool

    /** The pool as a value, between two passes of its reaper. */
    ghost function View(): Pool
      reads this
    {
      Pool(maxPerBroker, minIdle, Ids(idle), count, permit, Asleep)
    }

    /** `alive` is set when a connection enters the queue and never cleared. */
    ghost predicate Valid()
      reads this
    {
      forall i :: 0 <= i < |idle| ==> idle[i].alive
    }

    constructor (maxPerBroker: nat, minIdle: nat, idleTimeout: nat)
      ensures Valid() && View() == Warmed(maxPerBroker, minIdle, [])
    {
      this.maxPerBroker, this.minIdle, this.idleTimeout := maxPerBroker, minIdle, idleTimeout;
      idle, count, permit := [], 0, false;
    }

    /** One handshake after the other until one fails; nothing is counted. */
    method Warmup(next: ConnId, handshakes: seq<bool>, now: nat) returns (made: nat)
      requires Valid() && idle == [] && count == 0 && !permit && |handshakes| >= minIdle
      modifies this`idle
      ensures Valid() && made <= minIdle
      ensures forall i :: 0 <= i < made ==> handshakes[i]
      ensures made < minIdle ==> !handshakes[made]
      ensures View() == Warmed(maxPerBroker, minIdle, seq(made, i => next + i))
    {
      made := 0;
      while made < minIdle
        invariant Valid() && made <= minIdle && |idle| == made
        invariant forall i :: 0 <= i < made ==> handshakes[i] && idle[i].connId == next + i
      {
        if !handshakes[made] {
          break;
        }
        idle := idle + [PooledConn(next + made, true, now)];
        made := made + 1;
      }
      assert Ids(idle) == seq(made, i => next + i);
    }

    /** The front of the queue; a dead one would be dropped for good. */
    method TryTakeIdle() returns (r: Option<ConnId>)
      requires Valid()
      modifies this`idle
      ensures Valid()
      ensures r.None? <==> old(View()).idle == []
      ensures r.None? ==> View() == old(View())
      ensures r.Some? ==> View() == old(View()).(idle := old(View()).idle[1..]) && r.value == old(View()).idle[0]
    {
      if idle == [] {
        return None;
      }
      var front := idle[0];
      idle := idle[1..];
      assert Ids(idle) == old(Ids(idle))[1..];
      return if front.alive then Some(front.connId) else None;
    }

    method TryReserve() returns (ok: bool)
      modifies this`count
      ensures ok == (old(count) < maxPerBroker)
      ensures View() == if ok then old(View()).(count := old(count) + 1) else old(View())
    {
      ok := count < maxPerBroker;
      if ok {
        count := count + 1;
      }
    }

    /** `count -= 1` on a machine word. */
    method Unreserve()
      modifies this`count
      ensures View() == Unreserved(old(View()))
    {
      count := if count == 0 then USIZE_MAX else count - 1;
    }

    /** The connection joins the queue unless it is full; either way one waiter is notified. */
    method Release(conn: ConnId, now: nat)
      requires Valid()
      modifies this`idle, this`permit
      ensures Valid() && View() == Returned(old(View()), conn).(permit := true)
      ensures idle == if |old(idle)| < maxPerBroker then old(idle) + [PooledConn(conn, true, now)] else old(idle)
    {
      if |idle| < maxPerBroker {
        idle := idle + [PooledConn(conn, true, now)];
        assert Ids(idle) == old(Ids(idle)) + [conn];
      }
      permit := true;
    }

    /** One pass of the reaper: what is stale leaves the queue, is counted out, and a waiter is notified. As
        long as no id is in the queue twice, exactly the connections idle for less than the timeout
        stay, in their order; the count falls by the number of those that leave, or to zero. */
    method Reap(now: nat) returns (ghost at: seq<nat>)
      requires Valid()
      modifies this
      ensures Valid()
      ensures var q := Reaped(old(View()), Stale(old(idle), now, idleTimeout));
              View() == if q.reaper.Removed? then Recounted(q).(permit := true, reaper := Asleep) else q
      ensures Picks(idle, old(idle), at)
      ensures NoRepeats(Ids(old(idle))) ==> forall j :: 0 <= j < |old(idle)| ==>
                (j in at <==> idleTimeout > 0 && now < old(idle)[j].lastUsed + idleTimeout)
      ensures var gone := |old(idle)| - |idle|;
              count == (if gone <= old(count) then old(count) - gone else 0) && permit == (old(permit) || gone > 0)
    {
      var stale := Stale(idle, now, idleTimeout);
      if NoRepeats(Ids(idle)) {
        forall j | 0 <= j < |idle|
          ensures idle[j].connId !in stale <==> idleTimeout > 0 && now < idle[j].lastUsed + idleTimeout
        {
          StaleIsOwn(idle, now, idleTimeout, j);
        }
      }
      hide Stale;
      var removed;
      removed, at := Retain(stale);
      if removed > 0 {
        count := if count >= removed then count - removed else 0;
        permit := true;
      }
    }

    method Retain(stale: set<ConnId>) returns (removed: nat, ghost at: seq<nat>)
      requires Valid()
      modifies this`idle
      ensures Valid() && View() == old(View()).(idle := Keep(old(View()).idle, stale))
      ensures removed == |old(idle)| - |idle|
      ensures Picks(idle, old(idle), at)
      ensures forall j :: 0 <= j < |old(idle)| ==> (j in at <==> old(idle)[j].connId !in stale)
    {
      hide KeptIds, KeptAt, Keep;
      at := [];
      var was, kept: seq<PooledConn> := idle, [];
      NothingKept(was, stale);
      for i := 0 to |was|
        invariant KeptIds(kept, was, i, stale) && KeptAt(kept, was, i, at, stale)
      {
        KeepsId(kept, was, i, stale);
        KeepsPlace(kept, was, i, at, stale);
        if was[i].connId !in stale {
          kept := kept + [was[i]];
          at := at + [i];
        }
      }
      AllKept(kept, was, at, stale);
      removed := |was| - |kept|;
      idle := kept;
    }

    /** The deeds of other tasks while this one waits. Notifications among them are the wait's own. */
    method Others(ds: seq<Deed>)
      requires Valid()
      modifies this`idle, this`count
      ensures Valid() && View() == AfterAll(old(View()), ds)
    {
      for i := 0 to |ds|
        invariant Valid() && View() == AfterAll(old(View()), ds[..i])
      {
        assert ds[..i + 1][..i] == ds[..i];
        Other(ds[i]);
      }
      assert ds[..|ds|] == ds;
    }

    method Other(d: Deed)
      requires Valid()
      modifies this`idle, this`count
      ensures Valid() && View() == After(old(View()), d)
    {
      hide Keep;
      match d {
        case Release(k) =>
          if |idle| < maxPerBroker {
            idle := idle + [PooledConn(k, true, 0)];
            assert Ids(idle) == old(Ids(idle)) + [k];
          }
        case Take =>
          var _ := TryTakeIdle();
        case Make =>
          var _ := TryReserve();
        case Reap(expired) =>
          var removed, _ := Retain(expired);
          count := if count >= removed then count - removed else 0;
      }
    }

    /** The retry loop. */
    method Acquire(next: ConnId, shake: Shake, rounds: seq<Round>) returns (lease: Lease)
      requires Valid()
      modifies this`idle, this`count
      ensures Valid() && (View(), lease) == Acquisition(old(View()), next, shake, rounds)
    {
      hide AfterAll, After;
      var i := 0;
      while true
        invariant Valid() && i <= |rounds|
        invariant Acquisition(View(), next, shake, rounds[i..]) == Acquisition(old(View()), next, shake, rounds)
        decreases |rounds| - i
      {
        NoDeeds(View());
        var taken := TryTakeIdle();
        if taken.Some? {
          return Lent(taken.value);
        }
        if i < |rounds| {
          Others(rounds[i].gap);
        }
        var reserved := TryReserve();
        if reserved {
          Others(shake.meanwhile);
          if shake.ok {
            return Made(next);
          }
          Unreserve();
          return HandshakeFailed;
        }
        if i == |rounds| {
          return TimedOut;
        }
        Others(rounds[i].meanwhile);
        if !rounds[i].woken {
          return TimedOut;
        }
        i := i + 1;
      }
    }
  }
}
