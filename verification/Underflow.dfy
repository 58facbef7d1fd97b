/** The pool's count falls below zero in some run exactly when connections are warmed up. */
module Underflow {
  import opened Wire
  import opened Pool
  import opened Proxy
  import opened Accounting
  import InFlightCap
  import opened Scenes

  /** A failing handshake finds the count of broker n at zero: `count -= 1` wraps. */
  ghost predicate Wraps(s: State, c: ClientId, t: State, n: NodeId) {
    && c in s.relays && s.relays[c].node == n && n in s.pools && n in t.pools
    && Next(s, Task(c, Handshake(false))) == Some(t)
    && s.pools[n].count == 0 && t.pools[n].count == USIZE_MAX
  }

  /** In some run of a proxy with this in-flight cap, pool limit and warm-up the count wraps. */
  ghost predicate SomeRunUnderflows(cap: nat, max: nat, minIdle: nat) {
    exists first, s, c, t, n :: Reachable(first, s) && Wraps(s, c, t, n) && n in first.pools
      && first.maxInFlight == cap && first.pools[n].maxPerBroker == max && first.pools[n].minIdle == minIdle
  }

  // ---- A run that wraps ----

  /** The reaper removes a warm connection and counts out what was never counted in. */
  lemma ReapsWarm(first: State, w: Scene, race: nat)
    requires Stands(first, w, race) && w.pool.idle == [0] && w.pool.count == 1 && w.pool.reaper.Asleep?
    ensures Stands(first, w.(pool := w.pool.(idle := [], count := 0, reaper := Notifying)), race)
  {
    hide Reaches, Shows, Stands;
    var q, e := w.pool.(idle := [], reaper := Removed(1)), w.pool.(idle := [], count := 0, reaper := Notifying);
    assert Keep([0], {0}) == Keep([], {0}) == [];
    var s := Witness(first, w, race);
    SpotSeen(s, w, 0);
    OnePool(w.pool, q);
    StandsReap(first, s, w, Reap({0}), WithPool(s, 0, q), q, race);
    var t := Witness(first, w.(pool := q), race);
    SpotSeen(t, w.(pool := q), 0);
    OnePool(q, e);
    StandsReap(first, t, w.(pool := q), ReapCount, WithPool(t, 0, e), e, race);
  }

  lemma StandsReap(first: State, s: State, w: Scene, pass: ReaperStep, t: State, q: Pool, race: nat)
    requires Reaches(first, s, race) && Shows(s, w) && Next(s, Reaping(0, pass)) == Some(t)
    requires t == s.(pools := map[0 := q])
    ensures Stands(first, w.(pool := q), race)
  {
    SameSpots(s, t);
    hide Reaches, Next, InFlightCap.PastCheck, SpotsOf;
    Onward(first, s, Reaping(0, pass), t, race);
    Shown(first, t, w.(pool := q), race);
  }

  function WarmOpening(cap: nat, max: nat, minIdle: nat): State {
    Opening(cap, Warmed(max, minIdle, [0]), map[0 := FreshConn(0)], 1)
  }

  /** One client borrows the warm connection... */
  lemma WarmTaken(cap: nat, max: nat, minIdle: nat) returns (w: Scene)
    requires 1 <= minIdle <= max <= USIZE_MAX
    ensures Stands(WarmOpening(cap, max, minIdle), w, 1)
    ensures w == Scene(cap, Pool(max, minIdle, [], 0, false, Asleep),
                       map[1 := Spot(Admitting(SOME_FRAME), Some(0))], map[0 := FreshConn(0)], 1, map[])
  {
    var first, conns := WarmOpening(cap, max, minIdle), map[0 := FreshConn(0)];
    Opens(cap, Warmed(max, minIdle, [0]), conns, 1, 1);
    hide Stands;
    w := EmptyScene(cap, Warmed(max, minIdle, [0]), conns, 1);
    Arrives(first, w, 1, 1);
    w := Moved(w, 1, Seeking(SOME_FRAME), None);
    Takes(first, w, 1, 1);
    assert [0][1..] == [];
    w := Moved(w, 1, Admitting(SOME_FRAME), Some(0)).(pool := w.pool.(idle := []));
  }

  /** ...a second finds none and reserves the first count... */
  lemma WarmBorrowed(cap: nat, max: nat, minIdle: nat) returns (w: Scene)
    requires 1 <= minIdle <= max <= USIZE_MAX
    ensures Stands(WarmOpening(cap, max, minIdle), w, 1)
    ensures w == Scene(cap, Pool(max, minIdle, [], 1, false, Asleep),
                       map[1 := Spot(Admitting(SOME_FRAME), Some(0)), 2 := Spot(Connecting(SOME_FRAME), None)],
                       map[0 := FreshConn(0)], 1, map[])
  {
    hide Stands, WarmOpening;
    var first := WarmOpening(cap, max, minIdle);
    w := WarmTaken(cap, max, minIdle);
    ComesInVain(first, w, 2, 1);
    w := Moved(w, 2, SawEmpty(SOME_FRAME), None);
    assert w.spots == map[1 := Spot(Admitting(SOME_FRAME), Some(0)), 2 := Spot(SawEmpty(SOME_FRAME), None)];
    Reserves(first, w, 2, 1);
    w := Moved(w, 2, Connecting(SOME_FRAME), None).(pool := w.pool.(count := 1));
  }

  /** ...then the first gives the connection back and the reaper counts it out. */
  lemma WarmReaped(cap: nat, max: nat, minIdle: nat) returns (w: Scene)
    requires 1 <= minIdle <= max <= USIZE_MAX
    ensures Stands(WarmOpening(cap, max, minIdle), w, 1)
    ensures w.pool == Pool(max, minIdle, [], 0, false, Notifying)
    ensures 2 in w.spots && w.spots[2] == Spot(Connecting(SOME_FRAME), None)
  {
    var first := WarmOpening(cap, max, minIdle);
    w := WarmBorrowed(cap, max, minIdle);
    hide Stands;
    GivesBack(first, w, 1, 0, 1);
    w := Moved(w, 1, Returning(0, None), None);
    Pushes(first, w, 1, 0, 1);
    assert Returned(w.pool, 0) == w.pool.(idle := [0]);
    w := Moved(w, 1, Pushed(None), None).(pool := w.pool.(idle := [0]));
    ReapsWarm(first, w, 1);
    w := w.(pool := w.pool.(idle := [], count := 0, reaper := Notifying));
  }

  lemma FailsAtZero(s: State, c: ClientId) returns (t: State)
    requires c in s.relays && s.relays[c].node == 0 && s.relays[c].pc.Connecting?
    requires 0 in s.pools && s.pools[0].count == 0
    ensures Wraps(s, c, t, 0)
  {
    t := DoHandshake(s, c, false).value;
  }

  lemma WarmUnderflow(cap: nat, max: nat, minIdle: nat)
    requires 1 <= minIdle <= max <= USIZE_MAX
    ensures SomeRunUnderflows(cap, max, minIdle)
  {
    var first := WarmOpening(cap, max, minIdle);
    var w := WarmReaped(cap, max, minIdle);
    hide Reaches, Stands, Shows;
    var s := Witness(first, w, 1);
    SpotSeen(s, w, 2);
    ReachedIsReachable(first, s, 1);
    hide Reachable, Wraps;
    var t := FailsAtZero(s, 2);
    assert first.pools[0] == Warmed(max, minIdle, [0]);
  }

  // ---- When there is none ----

  lemma ColdNeverWraps(first: State, s: State, c: ClientId, t: State, n: NodeId)
    requires Reachable(first, s) && n in first.pools && first.pools[n].minIdle == 0
    ensures !Wraps(s, c, t, n)
  {
    var states, actions :| IsRun(states, actions) && states[0] == first && states[|actions|] == s;
    ColdRunsCountDown(states, actions, n, |actions|);
    hide IsRun, NodeOk;
    ColdCountsDown(s, c, n);
    assert CountsDown(s, c, false, n);
  }

  /** Whatever the in-flight cap and the pool's limit, the count wraps in some run if and only if
      the pool is warmed up. */
  lemma UnderflowIffWarmedUp(cap: nat, max: nat, minIdle: nat)
    requires minIdle <= max <= USIZE_MAX
    ensures SomeRunUnderflows(cap, max, minIdle) <==> minIdle > 0
  {
    if minIdle > 0 {
      WarmUnderflow(cap, max, minIdle);
    } else if SomeRunUnderflows(cap, max, 0) {
      hide Wraps;
      var first, s, c, t, n :| Reachable(first, s) && Wraps(s, c, t, n) && n in first.pools
        && first.pools[n].minIdle == 0;
      hide Reachable;
      ColdNeverWraps(first, s, c, t, n);
    }
  }
}
