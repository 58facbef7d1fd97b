/** A waiting client can be left beside an idle connection exactly when the pool is wide enough for
    two and the in-flight cap lets somebody through. */
module LostWakeup {
  import opened Sets
  import opened Wire
  import opened Remap
  import opened Rewrite
  import opened Pool
  import opened Proxy
  import opened Accounting
  import opened InFlightCap
  import opened Wakeup
  import opened Scenes

  /** Parked with an idle connection in the queue, no permit stored, the reaper asleep, and every
      other client of the broker gone: nobody is left to notify. */
  ghost predicate Stranded(s: State, c: ClientId, n: NodeId) {
    && c in s.relays && s.relays[c].node == n && s.relays[c].pc.Parked?
    && n in s.pools && s.pools[n].idle != [] && !s.pools[n].permit && s.pools[n].reaper.Asleep?
    && forall d :: d in s.relays && d != c && s.relays[d].node == n ==> s.relays[d].pc.Ended?
  }

  /** Some run of a proxy with this in-flight cap, pool limit and warm-up strands a client. */
  ghost predicate SomeRunStrands(cap: nat, max: nat, minIdle: nat) {
    exists first, s, c, n :: Reachable(first, s) && Stranded(s, c, n) && n in first.pools
      && first.maxInFlight == cap && first.pools[n].maxPerBroker == max && first.pools[n].minIdle == minIdle
  }

  // ---- Everybody comes, and every lease goes back ----

  function FirstIds(n: nat): (r: seq<ConnId>)
    ensures |r| == n
  {
    seq(n, i => i)
  }

  /** Of max clients with a lease the first j have given it back and ended; two more wait. */
  function Places(max: nat, j: nat): map<ClientId, Spot> {
    var all := UpTo(max + 2);
    map c | c in all ::
      if c < j then Spot(Ended, None)
      else if c < max then Spot(Admitting(SOME_FRAME), Some(c))
      else Spot(Waiting(SOME_FRAME), None)
  }

  function Gathering(cap: nat, max: nat, minIdle: nat, j: nat): Scene {
    Scene(cap, Pool(max, minIdle, FirstIds(j), max, j > 0, Asleep), Places(max, j), Lines(max), max, map[])
  }

  lemma TwoWait(cap: nat, max: nat, minIdle: nat)
    requires minIdle <= max <= USIZE_MAX
    ensures Stands(ColdOpening(cap, max, minIdle), Gathering(cap, max, minIdle, 0), 1)
  {
    var first := ColdOpening(cap, max, minIdle);
    hide Stands, Opening, UpTo;
    Seats(cap, max, minIdle, max, 1);
    var w := Seated(cap, max, minIdle, max);
    OneWaits(first, w, max);
    w := Moved(w, max, Waiting(SOME_FRAME), None);
    OneWaits(first, w, max + 1);
    w := Moved(w, max + 1, Waiting(SOME_FRAME), None);
    assert w.spots == Places(max, 0);
    assert FirstIds(0) == [];
  }

  lemma OneWaits(first: State, w: Scene, c: ClientId)
    requires Stands(first, w, 1) && c !in w.spots && w.pool.idle == [] && w.pool.reaper.Asleep?
    requires w.pool.count >= w.pool.maxPerBroker
    ensures Stands(first, Moved(w, c, Waiting(SOME_FRAME), None), 1)
  {
    hide Stands;
    ComesInVain(first, w, c, 1);
    var w1 := Moved(w, c, SawEmpty(SOME_FRAME), None);
    IsFull(first, w1, c, 1);
    assert Moved(w1, c, Waiting(SOME_FRAME), None) == Moved(w, c, Waiting(SOME_FRAME), None);
  }

  /** One client gives its connection back; the notification is stored, or was stored already. */
  lemma OneReturns(first: State, w: Scene, c: ClientId, k: ConnId)
    requires Stands(first, w, 1) && w.routes == map[] && w.pool.reaper.Asleep? && NobodyParked(w)
    requires c in w.spots && w.spots[c] == Spot(Admitting(SOME_FRAME), Some(k)) && k in w.conns && w.conns[k] == FreshConn(0)
    requires |w.pool.idle| < w.pool.maxPerBroker
    ensures Stands(first, Moved(w, c, Ended, None).(pool := w.pool.(idle := w.pool.idle + [k], permit := true)), 1)
  {
    hide Stands;
    GivesBack(first, w, c, k, 1);
    var w1 := Moved(w, c, Returning(k, None), None);
    Pushes(first, w1, c, k, 1);
    var w2 := Moved(w1, c, Pushed(None), None).(pool := w.pool.(idle := w.pool.idle + [k]));
    assert Moved(w1, c, Pushed(None), None).(pool := Returned(w1.pool, k)) == w2;
    Notifies(first, w2, c, 1);
    assert Moved(w2, c, Ended, None).spots == Moved(w, c, Ended, None).spots;
  }

  lemma {:induction false} AllReturn(cap: nat, max: nat, minIdle: nat, j: nat)
    requires minIdle <= max <= USIZE_MAX && j <= max
    ensures Stands(ColdOpening(cap, max, minIdle), Gathering(cap, max, minIdle, j), 1)
    decreases j
  {
    hide Stands, Opening, UpTo;
    if j == 0 {
      TwoWait(cap, max, minIdle);
    } else {
      AllReturn(cap, max, minIdle, j - 1);
      var w := Gathering(cap, max, minIdle, j - 1);
      OneReturns(ColdOpening(cap, max, minIdle), w, j - 1, j - 1);
      assert FirstIds(j) == FirstIds(j - 1) + [j - 1];
      assert Places(max, j) == Places(max, j - 1)[j - 1 := Spot(Ended, None)];
    }
  }

  // ---- A connection dies, and its lease is dropped ----

  function Dying(phase: Phase): Conn {
    FreshConn(0).(phase := phase)
  }

  lemma Breaks(first: State, w: Scene, k: ConnId)
    requires Stands(first, w, 1) && k in w.conns && w.conns[k] == FreshConn(0)
    ensures Stands(first, OnConn(w, k, Dying(Broken)), 1)
  {
    hide Reaches, Shows, Stands;
    var s := Witness(first, w, 1);
    SpotSeen(s, w, 0);
    StandsLink(first, s, w, k, Break, DoBreak(s, k).value, OnConn(w, k, Dying(Broken)), 1);
  }

  lemma SweepsNothing(first: State, w: Scene, k: ConnId)
    requires Stands(first, w, 1) && k in w.conns && w.conns[k] == Dying(Broken) && w.routes == map[]
    ensures Stands(first, OnConn(w, k, Dying(Sweeping(0))), 1)
  {
    hide Reaches, Shows, Stands, MarkSwept;
    var s := Witness(first, w, 1);
    SpotSeen(s, w, 0);
    assert OfConn(s.routes, k) == {} && Without(s.routes, k) == map[];
    hide OfConn, Without;
    StandsLink(first, s, w, k, Sweep, DoSweep(s, k).value, OnConn(w, k, Dying(Sweeping(0))), 1);
  }

  lemma Settles(first: State, w: Scene, k: ConnId)
    requires Stands(first, w, 1) && k in w.conns && w.conns[k] == Dying(Sweeping(0))
    ensures Stands(first, OnConn(w, k, Dying(Settling(0))), 1)
  {
    hide Reaches, Shows, Stands;
    var s := Witness(first, w, 1);
    SpotSeen(s, w, 0);
    StandsLink(first, s, w, k, SweepTallyMap, DoSweepTallyMap(s, k).value, OnConn(w, k, Dying(Settling(0))), 1);
  }

  lemma Closes(first: State, w: Scene, k: ConnId)
    requires Stands(first, w, 1) && k in w.conns && w.conns[k] == Dying(Settling(0))
    ensures Stands(first, OnConn(w, k, Dying(Gone)), 1)
  {
    hide Reaches, Shows, Stands, LoseConn;
    var s := Witness(first, w, 1);
    SpotSeen(s, w, 0);
    StandsLink(first, s, w, k, Close, DoClose(s, k).value, OnConn(w, k, Dying(Gone)), 1);
  }

  lemma Dies(first: State, w: Scene, k: ConnId)
    requires Stands(first, w, 1) && k in w.conns && w.conns[k] == FreshConn(0) && w.routes == map[]
    ensures Stands(first, OnConn(w, k, Dying(Gone)), 1)
  {
    hide Stands;
    Breaks(first, w, k);
    var w1 := OnConn(w, k, Dying(Broken));
    SweepsNothing(first, w1, k);
    var w2 := OnConn(w1, k, Dying(Sweeping(0)));
    Settles(first, w2, k);
    var w3 := OnConn(w2, k, Dying(Settling(0)));
    Closes(first, w3, k);
    assert OnConn(w3, k, Dying(Gone)) == OnConn(w, k, Dying(Gone));
  }

  lemma SendRefused(first: State, w: Scene, c: ClientId, k: ConnId, cidU: Int32, num: nat)
    requires Stands(first, w, 1) && c in w.spots && w.spots[c] == Spot(Sending(SOME_FRAME, cidU, num), Some(k))
    requires k in w.conns && w.conns[k].phase.Gone?
    ensures Stands(first, Moved(w, c, Cancelling(cidU, num), None), 1)
  {
    hide Reaches, Shows, Stands, Forwarded;
    var s := Witness(first, w, 1);
    SpotSeen(s, w, c);
    StandsTurn(first, s, w, c, TaskStep.Send, DoSend(s, c).value, Moved(w, c, Cancelling(cidU, num), None), 1);
  }

  lemma Cancels(first: State, w: Scene, c: ClientId, cidU: Int32, num: nat, e: Entry)
    requires Stands(first, w, 1) && c in w.spots && w.spots[c] == Spot(Cancelling(cidU, num), None)
    requires w.routes == map[cidU := e]
    ensures Stands(first, Moved(w, c, CancelledMap, None).(routes := map[]), 1)
  {
    hide Reaches, Shows, Stands, OwnerOf, Mark, Move;
    var s := Witness(first, w, 1);
    SpotSeen(s, w, c);
    assert map[cidU := e] - {cidU} == map[];
    StandsTurn(first, s, w, c, CancelTake, DoCancelTake(s, c).value, Moved(w, c, CancelledMap, None).(routes := map[]), 1);
  }

  lemma CancelTallies(first: State, w: Scene, c: ClientId)
    requires Stands(first, w, 1) && c in w.spots && w.spots[c] == Spot(CancelledMap, None)
    ensures Stands(first, Moved(w, c, Ended, None), 1)
  {
    hide Reaches, Shows, Stands;
    var s := Witness(first, w, 1);
    SpotSeen(s, w, c);
    var mid := Moved(w, c, CancelledRequest, None);
    StandsTurn(first, s, w, c, CancelTallyMap, DoCancelTallyMap(s, c).value, mid, 1);
    CancelTalliesAgain(first, mid, c);
    assert Moved(mid, c, Ended, None) == Moved(w, c, Ended, None);
  }

  lemma CancelTalliesAgain(first: State, w: Scene, c: ClientId)
    requires Stands(first, w, 1) && c in w.spots && w.spots[c] == Spot(CancelledRequest, None)
    ensures Stands(first, Moved(w, c, Ended, None), 1)
  {
    hide Reaches, Shows, Stands;
    var s := Witness(first, w, 1);
    SpotSeen(s, w, c);
    StandsTurn(first, s, w, c, CancelTallyRequest, DoCancelTallyRequest(s, c).value, Moved(w, c, Ended, None), 1);
  }

  /** A lease on a dead connection ends with its client, and no notification. */
  lemma DropsLease(first: State, w: Scene, c: ClientId, k: ConnId)
    requires Stands(first, w, 1) && w.cap >= 1 && w.routes == map[]
    requires c in w.spots && w.spots[c] == Spot(Admitting(SOME_FRAME), Some(k)) && k in w.conns && w.conns[k].phase.Gone?
    ensures Stands(first, Moved(w, c, Ended, None), 1)
  {
    hide Stands;
    var cidU, num, e := Registers(first, w, c, k, 1);
    var w1 := Moved(w, c, Listed(SOME_FRAME, cidU, num), Some(k)).(routes := map[cidU := e]);
    Tallies(first, w1, c, k, cidU, num, 1);
    var w2 := Moved(w1, c, Tallied(SOME_FRAME, cidU, num), Some(k));
    TalliesAgain(first, w2, c, k, cidU, num, 1);
    var w3 := Moved(w2, c, Sending(SOME_FRAME, cidU, num), Some(k));
    SendRefused(first, w3, c, k, cidU, num);
    var w4 := Moved(w3, c, Cancelling(cidU, num), None);
    Cancels(first, w4, c, cidU, num, e);
    var w5 := Moved(w4, c, CancelledMap, None).(routes := map[]);
    CancelTallies(first, w5, c);
    assert Moved(w5, c, Ended, None) == Moved(w, c, Ended, None);
  }

  // ---- One waiter takes the only permit, the other parks ----

  lemma OneParks(cap: nat, max: nat, minIdle: nat) returns (w: Scene)
    requires 2 <= max <= USIZE_MAX && minIdle <= max
    ensures Stands(ColdOpening(cap, max, minIdle), w, 1)
    ensures w == Gathering(cap, max, minIdle, max).(
                   spots := Places(max, max)[max := Spot(Admitting(SOME_FRAME), Some(0))][max + 1 := Spot(Parked(SOME_FRAME), None)],
                   pool := Pool(max, minIdle, FirstIds(max)[1..], max, false, Asleep))
  {
    hide Stands, Opening, UpTo;
    var first := ColdOpening(cap, max, minIdle);
    AllReturn(cap, max, minIdle, max);
    w := Gathering(cap, max, minIdle, max);
    var a, b := max, max + 1;
    Waits(first, w, a, 1);
    w := Moved(w, a, Seeking(SOME_FRAME), None).(pool := w.pool.(permit := false));
    Waits(first, w, b, 1);
    w := Moved(w, b, Parked(SOME_FRAME), None);
    Takes(first, w, a, 1);
    w := Moved(w, a, Admitting(SOME_FRAME), Some(0)).(pool := w.pool.(idle := w.pool.idle[1..]));
    assert w.spots == Places(max, max)[a := Spot(Admitting(SOME_FRAME), Some(0))][b := Spot(Parked(SOME_FRAME), None)];
  }

  lemma StrandedShows(s: State, w: Scene, c: ClientId)
    requires Shows(s, w) && c in w.spots && w.spots[c].pc.Parked?
    requires w.pool.idle != [] && !w.pool.permit && w.pool.reaper.Asleep?
    requires forall d :: d in w.spots && d != c ==> w.spots[d].pc.Ended?
    ensures Stranded(s, c, 0)
  {
    SpotSeen(s, w, c);
    forall d | d in s.relays && d != c ensures s.relays[d].pc.Ended? {
      SpotSeen(s, w, d);
    }
  }

  lemma WideStrands(cap: nat, max: nat, minIdle: nat)
    requires 2 <= max <= USIZE_MAX && minIdle <= max && cap >= 1
    ensures SomeRunStrands(cap, max, minIdle)
  {
    var first := ColdOpening(cap, max, minIdle);
    hide Stands, Reaches, Shows, UpTo;
    var w := OneParks(cap, max, minIdle);
    Dies(first, w, 0);
    w := OnConn(w, 0, Dying(Gone));
    DropsLease(first, w, max, 0);
    w := Moved(w, max, Ended, None);
    var s := Witness(first, w, 1);
    ReachedIsReachable(first, s, 1);
    hide Reachable;
    assert forall d :: d in w.spots && d != max + 1 ==> w.spots[d].pc.Ended?;
    StrandedShows(s, w, max + 1);
    hide Stranded;
    assert first.pools[0] == Warmed(max, minIdle, []);
  }

  // ---- When nobody is stranded ----

  lemma {:induction false} CapStays(states: seq<State>, actions: seq<Action>, i: nat)
    requires IsRun(states, actions) && i < |states|
    ensures states[i].maxInFlight == states[0].maxInFlight
    decreases i
  {
    hide Next, Init;
    if i > 0 {
      CapStays(states, actions, i - 1);
      NextLoad(states[i - 1], actions[i - 1], states[i]);
    }
  }

  /** With one connection at most, or a cap that lets nobody through, a task on its way to the queue or
      a notification accompanies every idle connection somebody waits for. */
  lemma {:induction false} RunAttends(states: seq<State>, actions: seq<Action>, n: NodeId, i: nat)
    requires IsRun(states, actions) && i < |states| && n in states[0].pools
    requires states[0].pools[n].maxPerBroker <= 1 || states[0].maxInFlight == 0
    ensures Attended(states[i], n)
    decreases i
  {
    hide Next;
    if i > 0 {
      hide Attended, Init;
      RunAttends(states, actions, n, i - 1);
      QueueWithinLimit(states, actions, i - 1, n);
      CapStays(states, actions, i - 1);
      NextAttends(states[i - 1], actions[i - 1], states[i], n);
    }
  }

  lemma NarrowNeverStrands(first: State, s: State, c: ClientId, n: NodeId)
    requires Reachable(first, s) && n in first.pools && (first.pools[n].maxPerBroker <= 1 || first.maxInFlight == 0)
    ensures !Stranded(s, c, n)
  {
    var states, actions :| IsRun(states, actions) && states[0] == first && states[|actions|] == s;
    RunAttends(states, actions, n, |actions|);
    hide IsRun;
    if Stranded(s, c, n) {
      hide Stranded, Attended;
      StrandedUnattended(s, c, n);
    }
  }

  lemma StrandedUnattended(s: State, c: ClientId, n: NodeId)
    requires Stranded(s, c, n)
    ensures !Attended(s, n)
  {
    assert InWindow(s.relays[c], n);
    assert SomeoneWaits(s, n);
  }

  /** Whatever the warm-up, some run strands a waiting client if and only if the pool may hold two
      connections and the in-flight cap is not zero. */
  lemma StrandsIffWide(cap: nat, max: nat, minIdle: nat)
    requires minIdle <= max <= USIZE_MAX
    ensures SomeRunStrands(cap, max, minIdle) <==> max >= 2 && cap >= 1
  {
    if max >= 2 && cap >= 1 {
      WideStrands(cap, max, minIdle);
    } else if SomeRunStrands(cap, max, minIdle) {
      hide Stranded;
      var first, s, c, n :| Reachable(first, s) && Stranded(s, c, n) && n in first.pools
        && first.maxInFlight == cap && first.pools[n].maxPerBroker == max;
      hide Reachable;
      NarrowNeverStrands(first, s, c, n);
    }
  }
}
