/** What the bookkeeping invariants look at, and the steps that leave all of it alone. */
module Profile {
  import opened Wire
  import opened Remap
  import opened Rewrite
  import opened Pool
  import opened Proxy

  // ---- Sums over all tasks or connections ----

  ghost function Total(ws: map<nat, int>): int {
    if ws == map[] then 0 else var c :| c in ws; ws[c] + Total(ws - {c})
  }

  lemma {:induction false} TotalAt(ws: map<nat, int>, c: nat)
    requires c in ws
    ensures Total(ws) == ws[c] + Total(ws - {c})
    decreases |ws|
  {
    var d :| d in ws && Total(ws) == ws[d] + Total(ws - {d});
    if d != c {
      TotalAt(ws - {d}, c);
      TotalAt(ws - {c}, d);
      assert ws - {d} - {c} == ws - {c} - {d};
    }
  }

  /** Changing or adding one summand. */
  lemma TotalUpdate(ws: map<nat, int>, c: nat, v: int)
    ensures Total(ws[c := v]) == Total(ws) - (if c in ws then ws[c] else 0) + v
  {
    TotalAt(ws[c := v], c);
    if c in ws {
      TotalAt(ws, c);
      assert ws[c := v] - {c} == ws - {c};
    } else {
      assert ws[c := v] - {c} == ws;
    }
  }

  lemma {:induction false} TotalNonNegative(ws: map<nat, int>)
    requires forall c :: c in ws ==> ws[c] >= 0
    ensures Total(ws) >= 0
    decreases |ws|
  {
    if ws != map[] {
      var c :| c in ws && Total(ws) == ws[c] + Total(ws - {c});
      TotalNonNegative(ws - {c});
    }
  }

  lemma TotalAtLeast(ws: map<nat, int>, c: nat)
    requires c in ws && forall d :: d in ws ==> ws[d] >= 0
    ensures Total(ws) >= ws[c]
  {
    TotalAt(ws, c);
    TotalNonNegative(ws - {c});
  }

  // ---- Measures of one relay, one connection, one pool ----

  /** The connection a relay holds: leased, or on its way back to the pool. */
  function Grip(r: Relay): Option<ConnId> {
    if r.lease.Some? then r.lease else if r.pc.Returning? then Some(r.pc.conn) else None
  }

  /** One for a connection held or being made for broker n. */
  function Uses(r: Relay, n: NodeId): int {
    if r.node == n && (Grip(r).Some? || r.pc.Connecting?) then 1 else 0
  }

  /** Past the in-flight check, not yet in the map. */
  function Past(r: Relay): int {
    if r.pc.Checked? || r.pc.Loaded? || r.pc.Drew? then 1 else 0
  }

  /** Changes of the map the map gauge has yet to follow: +1 for each removal, -1 for each insertion. */
  function MapDebt(r: Relay): int {
    if r.pc.Listed? then -1 else if r.pc.CancelledMap? then 1 else 0
  }

  function RequestDebt(r: Relay): int {
    if r.pc.Listed? || r.pc.Tallied? then -1 else if r.pc.CancelledMap? || r.pc.CancelledRequest? then 1 else 0
  }

  function ConnMapDebt(q: Conn): int {
    (if q.phase.Sweeping? then q.phase.removed else 0) + (if q.reader.TookMap? then 1 else 0)
  }

  function ConnRequestDebt(q: Conn): int {
    (if q.phase.Sweeping? then q.phase.removed else if q.phase.Settling? then q.phase.left else 0)
    + (if q.reader.TookMap? || q.reader.TookRequest? then 1 else 0)
  }

  /** Connections the reaper has removed and not yet counted. */
  function Pending(p: Pool): nat {
    if p.reaper.Removed? then p.reaper.n else 0
  }

  /** Only these places of the request task hold a lease, and a task that dropped its lease is on its way out. */
  predicate LeaseShape(r: Relay) {
    && (r.lease.Some? ==>
          r.pc.Reading? || r.pc.Framed? || r.pc.Admitting? || r.pc.Checked? || r.pc.Loaded?
          || r.pc.Drew? || r.pc.Listed? || r.pc.Tallied? || r.pc.Sending?)
    && (r.dropped > 0 ==>
          r.dropped == 1 && r.lease.None?
          && (r.pc.Cancelling? || r.pc.CancelledMap? || r.pc.CancelledRequest? || r.pc.Ended?))
  }

  // ---- Quiet steps ----

  ghost predicate SameProfile(r: Relay, q: Relay) {
    && q.node == r.node && Grip(q) == Grip(r) && q.pc.Connecting? == r.pc.Connecting?
    && Past(q) == Past(r) && MapDebt(q) == MapDebt(r) && RequestDebt(q) == RequestDebt(r)
    && q.taken == r.taken && q.returned == r.returned && q.dropped == r.dropped
    && (LeaseShape(r) ==> LeaseShape(q))
  }

  ghost predicate SameConnProfile(q: Conn, p: Conn) {
    p.node == q.node && ConnMapDebt(p) == ConnMapDebt(q) && ConnRequestDebt(p) == ConnRequestDebt(q)
  }

  ghost predicate SamePoolProfile(p: Pool, q: Pool) {
    q.maxPerBroker == p.maxPerBroker && q.minIdle == p.minIdle && q.idle == p.idle && q.count == p.count
    && Pending(q) == Pending(p)
  }

  ghost predicate SameRelays(s: State, t: State) {
    t.relays.Keys == s.relays.Keys && forall c :: c in s.relays ==> SameProfile(s.relays[c], t.relays[c])
  }

  ghost predicate SameConns(s: State, t: State) {
    && t.nextConn == s.nextConn && t.conns.Keys == s.conns.Keys
    && forall k :: k in s.conns ==> SameConnProfile(s.conns[k], t.conns[k])
  }

  ghost predicate SamePools(s: State, t: State) {
    t.pools.Keys == s.pools.Keys && forall n :: n in s.pools ==> SamePoolProfile(s.pools[n], t.pools[n])
  }

  /** Nothing the bookkeeping looks at has changed. */
  ghost predicate Quiet(s: State, t: State) {
    && SameRelays(s, t) && SameConns(s, t) && SamePools(s, t)
    && t.routes == s.routes && t.requestGauge == s.requestGauge && t.mapGauge == s.mapGauge
    && t.maxInFlight == s.maxInFlight
  }

  lemma QuietNotified(s: State, n: NodeId, woken: Option<nat>, t: State)
    requires n in s.pools && Notified(s, n, woken) == Some(t)
    ensures Quiet(s, t)
  {
  }

  lemma QuietTrans(s: State, t: State, u: State)
    requires Quiet(s, t) && Quiet(t, u)
    ensures Quiet(s, u)
  {
    forall c | c in s.relays ensures SameProfile(s.relays[c], u.relays[c]) {
      assert SameProfile(s.relays[c], t.relays[c]) && SameProfile(t.relays[c], u.relays[c]);
    }
    forall k | k in s.conns ensures SameConnProfile(s.conns[k], u.conns[k]) {
      assert SameConnProfile(s.conns[k], t.conns[k]) && SameConnProfile(t.conns[k], u.conns[k]);
    }
    forall n | n in s.pools ensures SamePoolProfile(s.pools[n], u.pools[n]) {
      assert SamePoolProfile(s.pools[n], t.pools[n]) && SamePoolProfile(t.pools[n], u.pools[n]);
    }
  }

  predicate QuietStep(step: TaskStep) {
    step.ReadFrame? || step.EndInput? || step.Decide? || step.NotifyOne? || step.Await? || step.TimeOut?
    || step.Load? || step.Swap? || step.Forward? || step.CloseResponses?
  }

  /** A relay that moves without touching what the bookkeeping looks at. */
  lemma QuietRelay(s: State, c: nat, t: State)
    requires c in s.relays && c in t.relays && t.relays == s.relays[c := t.relays[c]]
    requires SameProfile(s.relays[c], t.relays[c])
    requires t.conns == s.conns && t.nextConn == s.nextConn && SamePools(s, t)
    requires t.routes == s.routes && t.requestGauge == s.requestGauge && t.mapGauge == s.mapGauge
    requires t.maxInFlight == s.maxInFlight
    ensures Quiet(s, t)
  {
    hide SamePools;
    forall d | d in s.relays ensures SameProfile(s.relays[d], t.relays[d]) {
    }
  }

  lemma QuietLeaseTask(s: State, c: nat, step: TaskStep, t: State)
    requires NextTask(s, c, step) == Some(t) && (step.ReadFrame? || step.EndInput? || step.Decide? || step.TimeOut?)
    ensures Quiet(s, t)
  {
    hide ParseRequestHeader, Quiet;
    QuietRelay(s, c, t);
  }

  lemma QuietLoad(s: State, c: nat, t: State)
    requires DoLoad(s, c) == Some(t)
    ensures Quiet(s, t)
  {
    hide Quiet;
    QuietRelay(s, c, t);
  }

  lemma SwapShape(s: State, c: nat, t: State)
    requires DoSwap(s, c) == Some(t)
    ensures c in s.relays && s.relays[c].pc.Loaded? && c in t.relays && (t.relays[c].pc.Drew? || t.relays[c].pc.Checked?)
    ensures t.relays == s.relays[c := s.relays[c].(pc := t.relays[c].pc)]
    ensures t.conns == s.conns && t.nextConn == s.nextConn && t.pools == s.pools
    ensures t.routes == s.routes && t.requestGauge == s.requestGauge && t.mapGauge == s.mapGauge
    ensures t.maxInFlight == s.maxInFlight
  {
    hide ParseRequestHeader, Successor;
  }

  lemma QuietSwap(s: State, c: nat, t: State)
    requires DoSwap(s, c) == Some(t)
    ensures Quiet(s, t)
  {
    hide Quiet;
    SwapShape(s, c, t);
    hide DoSwap;
    QuietRelay(s, c, t);
  }

  lemma AwaitShape(s: State, c: nat, t: State)
    requires DoAwait(s, c) == Some(t)
    ensures c in s.relays && s.relays[c].pc.Waiting? && c in t.relays && (t.relays[c].pc.Seeking? || t.relays[c].pc.Parked?)
    ensures t.relays == s.relays[c := s.relays[c].(pc := t.relays[c].pc)]
    ensures t.conns == s.conns && t.nextConn == s.nextConn && SamePools(s, t)
    ensures t.routes == s.routes && t.requestGauge == s.requestGauge && t.mapGauge == s.mapGauge
    ensures t.maxInFlight == s.maxInFlight
  {
  }

  lemma QuietAwait(s: State, c: nat, t: State)
    requires DoAwait(s, c) == Some(t)
    ensures Quiet(s, t)
  {
    AwaitShape(s, c, t);
    hide Quiet, DoAwait;
    QuietRelay(s, c, t);
  }

  lemma QuietForward(s: State, c: nat, t: State)
    requires DoForward(s, c) == Some(t)
    ensures Quiet(s, t)
  {
    hide Quiet;
    QuietRelay(s, c, t);
  }

  lemma QuietCloseResponses(s: State, c: nat, t: State)
    requires DoCloseResponses(s, c) == Some(t)
    ensures Quiet(s, t)
  {
    hide Quiet;
    QuietRelay(s, c, t);
  }

  lemma QuietNotify(s: State, c: nat, woken: Option<nat>, t: State)
    requires DoNotifyOne(s, c, woken) == Some(t)
    ensures Quiet(s, t)
  {
    var next := At(s, c).next;
    var mid := Goto(s, c, if next.Some? then Seeking(next.value) else Ended);
    QuietRelay(s, c, mid);
    QuietNotified(mid, s.relays[c].node, woken, t);
    hide Quiet, Notified;
    QuietTrans(s, mid, t);
  }

  lemma QuietTask(s: State, c: nat, step: TaskStep, t: State)
    requires NextTask(s, c, step) == Some(t) && QuietStep(step)
    ensures Quiet(s, t)
  {
    hide Quiet;
    if step.NotifyOne? {
      QuietNotify(s, c, step.woken, t);
    } else {
      hide DoConnect, DoReadFrame, DoEndInput, DoDecide, DoPushIdle, DoNotifyOne, DoTakeIdle, DoReserve, DoHandshake,
           DoAwait, DoTimeOut, DoCheck, DoLoad, DoSwap, DoPut, DoTallyMap, DoTallyRequest, DoSend, DoCancelTake,
           DoCancelTallyMap, DoCancelTallyRequest, DoForward, DoCloseResponses;
      match step {
        case Load => QuietLoad(s, c, t);
        case Swap => QuietSwap(s, c, t);
        case Await => QuietAwait(s, c, t);
        case Forward => QuietForward(s, c, t);
        case CloseResponses => QuietCloseResponses(s, c, t);
        case _ => QuietLeaseTask(s, c, step, t);
      }
    }
  }

  predicate QuietMove(move: LinkStep) {
    move.Write? || move.Break? || move.Close? || move.Receive? || move.Answer? || move.Ignore? || move.Deliver?
  }

  lemma DeliverShape(s: State, k: nat, t: State)
    requires DoDeliver(s, k) == Some(t)
    ensures t.conns == s.conns[k := s.conns[k].(reader := Resting)] && t.nextConn == s.nextConn && t.pools == s.pools
    ensures t.routes == s.routes && t.requestGauge == s.requestGauge && t.mapGauge == s.mapGauge
    ensures t.maxInFlight == s.maxInFlight && s.conns[k].reader.Routing?
    ensures var c := s.conns[k].reader.entry.client;
            t.relays == s.relays
            || (c in s.relays && c in t.relays && t.relays == s.relays[c := s.relays[c].(resp := t.relays[c].resp)])
  {
    hide RouteResponse, Move;
    var d := s.conns[k].reader;
    var c := d.entry.client;
    var free := WithConn(s, k, s.conns[k].(reader := Resting));
    if t.relays == s.relays {
      assert t == free.(log := t.log);
    } else {
      assert t == WithRelay(free, c, s.relays[c].(resp := t.relays[c].resp)).(log := t.log);
    }
  }

  lemma QuietDeliver(s: State, k: nat, t: State)
    requires DoDeliver(s, k) == Some(t)
    ensures Quiet(s, t)
  {
    DeliverShape(s, k, t);
    hide DoDeliver;
    var free := WithConn(s, k, s.conns[k].(reader := Resting));
    assert Quiet(s, free);
    hide Quiet;
    var c := s.conns[k].reader.entry.client;
    if t.relays != s.relays {
      QuietRelay(free, c, t);
    } else {
      SameQuiet(free, t);
    }
    QuietTrans(s, free, t);
  }

  lemma SameQuiet(s: State, t: State)
    requires t.relays == s.relays && t.conns == s.conns && t.nextConn == s.nextConn && t.pools == s.pools
    requires t.routes == s.routes && t.requestGauge == s.requestGauge && t.mapGauge == s.mapGauge
    requires t.maxInFlight == s.maxInFlight
    ensures Quiet(s, t)
  {
  }

  lemma QuietLink(s: State, k: nat, move: LinkStep, t: State)
    requires NextLink(s, k, move) == Some(t) && QuietMove(move)
    ensures Quiet(s, t)
  {
    hide DoDeliver, DoSweep, DoSweepTallyMap, DoSweepTallyRequest, DoFetch, DoReadTallyMap, DoReadTallyRequest;
    if move.Deliver? {
      QuietDeliver(s, k, t);
    } else {
      hide LoseConn;
      forall c | c in s.relays ensures SameProfile(s.relays[c], t.relays[c]) {
      }
    }
  }

  lemma QuietReapNotify(s: State, n: NodeId, woken: Option<nat>, t: State)
    requires DoReapNotify(s, n, woken) == Some(t)
    ensures Quiet(s, t)
  {
    var mid := WithPool(s, n, s.pools[n].(reaper := Asleep));
    assert Quiet(s, mid);
    QuietNotified(mid, n, woken, t);
    hide Quiet, Notified;
    QuietTrans(s, mid, t);
  }
}
