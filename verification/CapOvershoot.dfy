/** Exactly how full the map of registrations can get for a given cap and number of racing tasks. */
module CapOvershoot {
  import opened Sets
  import opened Wire
  import opened Remap
  import opened Rewrite
  import opened Pool
  import opened Proxy
  import opened Profile
  import opened Registry
  import opened Allocation
  import opened InFlightCap
  import opened Scenes

  // ---- Registrations are under ids ----

  predicate IsId(cid: Int32) {
    1 <= cid <= 0x7FFF_FFFF
  }

  /** Only an insertion adds a registration, and it adds one under the id it drew. */
  ghost predicate KeysStep(s: State, a: Action, t: State) {
    forall cid :: cid in t.routes && cid !in s.routes ==>
      a.Task? && a.step.Put? && a.c in s.relays && s.relays[a.c].pc.Drew? && s.relays[a.c].pc.cidU == cid
  }

  lemma OtherTaskKeys(s: State, c: ClientId, step: TaskStep, t: State)
    requires NextTask(s, c, step) == Some(t) && !step.Put? && !step.CancelTake? && !QuietStep(step)
    ensures t.routes == s.routes
  {
    hide ParseRequestHeader, Forwarded, Returned, Unreserved, Move;
  }

  lemma NextKeys(s: State, a: Action, t: State)
    requires Next(s, a) == Some(t)
    ensures KeysStep(s, a, t)
  {
    hide Quiet, NextTask, NextLink, DoReapNotify;
    match a {
      case Task(c, step) =>
        if QuietStep(step) {
          QuietTask(s, c, step, t);
          QuietKeys(s, t);
        } else {
          TaskKeys(s, c, step, t);
        }
      case Link(k, move) =>
        if QuietMove(move) {
          QuietLink(s, k, move, t);
          QuietKeys(s, t);
        } else {
          LinkKeys(s, k, move, t);
        }
      case Reaping(n, pass) =>
        if pass.ReapNotify? {
          QuietReapNotify(s, n, pass.woken, t);
          QuietKeys(s, t);
        }
    }
  }

  lemma QuietKeys(s: State, t: State)
    requires Quiet(s, t)
    ensures t.routes == s.routes
  {
    hide SameRelays, SameConns, SamePools;
  }

  lemma TaskKeys(s: State, c: ClientId, step: TaskStep, t: State)
    requires NextTask(s, c, step) == Some(t) && !QuietStep(step)
    ensures KeysStep(s, Task(c, step), t)
  {
    match step {
      case Put => PutKeys(s, c, t);
      case CancelTake => hide NextTask; CancelShape(s, c, t);
      case _ => hide NextTask; OtherTaskKeys(s, c, step, t);
    }
  }

  lemma PutKeys(s: State, c: ClientId, t: State)
    requires DoPut(s, c) == Some(t)
    ensures KeysStep(s, Task(c, Put), t)
  {
    hide ParseRequestHeader;
  }

  lemma LinkKeys(s: State, k: ConnId, move: LinkStep, t: State)
    requires NextLink(s, k, move) == Some(t) && !QuietMove(move)
    ensures t.routes.Keys <= s.routes.Keys
  {
    hide DoWrite, DoBreak, DoClose, DoReceive, DoAnswer, DoIgnore, DoDeliver, MarkSwept, ParseResponseCid;
  }

  lemma {:induction false} RunKeys(states: seq<State>, actions: seq<Action>, i: nat)
    requires IsRun(states, actions) && i < |states|
    ensures forall cid :: cid in states[i].routes ==> IsId(cid)
    decreases i
  {
    hide Next;
    if i > 0 {
      hide Init, CounterOk;
      var s, t := states[i - 1], states[i];
      RunKeys(states, actions, i - 1);
      RunCounter(states, actions, i - 1);
      NextKeys(s, actions[i - 1], t);
      forall cid | cid in t.routes ensures IsId(cid) {
        if cid !in s.routes {
          DrawnIsId(s, actions[i - 1].c);
        }
      }
    }
  }

  lemma DrawnIsId(s: State, c: ClientId)
    requires CounterOk(s) && c in s.relays && s.relays[c].pc.Drew?
    ensures IsId(s.relays[c].pc.cidU)
  {
    assert TaskCounts(s.log, c, s.relays[c]);
  }

  function Ids(n: nat): (r: set<Int32>)
    requires n <= 0x7FFF_FFFF
    ensures |r| == n && forall cid :: cid in r <==> 1 <= cid <= n
  {
    if n == 0 then {} else Ids(n - 1) + {n}
  }

  // ---- What no run exceeds ----

  /** With a cap of zero nobody gets past the check. */
  lemma {:induction false} ClosedCap(states: seq<State>, actions: seq<Action>, i: nat)
    requires IsRun(states, actions) && i < |states| && states[0].maxInFlight == 0
    ensures InFlightCap.Load(states[i]) <= 0 && states[i].maxInFlight == 0
    decreases i
  {
    hide Next;
    if i == 0 {
      assert PastOf(states[0].relays) == map[];
    } else {
      hide Init, PastCheck;
      ClosedCap(states, actions, i - 1);
      NextLoad(states[i - 1], actions[i - 1], states[i]);
    }
  }

  lemma NeverFuller(first: State, s: State, tasks: nat)
    requires Reaches(first, s, tasks) && tasks >= 1
    ensures |s.routes| <= 0x7FFF_FFFF
    ensures |s.routes| == 0 || (first.maxInFlight >= 1 && |s.routes| <= first.maxInFlight + tasks - 1)
  {
    var states, actions := RunTo(first, s, tasks);
    RunKeys(states, actions, |actions|);
    SubsetSize(s.routes.Keys, Ids(0x7FFF_FFFF));
    CapWithinRace(states, actions, tasks, |actions|);
    PastNonNegative(s);
    hide IsRun, PastCheck, Ids;
    if first.maxInFlight == 0 {
      ClosedCap(states, actions, |actions|);
    }
  }

  // ---- A run that gets there ----

  ghost predicate HasId(cid: Int32, a: nat, b: nat) {
    exists i: nat :: a <= i < b && cid == CidOf(i)
  }

  /** n clients with a lease: the first `done` have inserted, the next, up to `passed`, are past the check. */
  ghost predicate Filling(s: State, cap: nat, n: nat, base: nat, done: nat, passed: nat) {
    && done <= passed <= n && s.maxInFlight == cap
    && |s.routes| == done && |s.log| == base + done && s.nextCid == CounterAfter(base + done)
    && (forall cid :: cid in s.routes ==> HasId(cid, base, base + done))
    && (forall c: nat :: c < n ==> c in s.relays)
    && (forall c: nat :: done <= c < passed ==> SpotOf(s.relays[c]) == Spot(Checked(SOME_FRAME), Some(c)))
    && (forall c: nat :: passed <= c < n ==> SpotOf(s.relays[c]) == Spot(Admitting(SOME_FRAME), Some(c)))
    && PastCheck(s) == passed - done
  }

  lemma Begins(cap: nat, n: nat, race: nat) returns (s: State, base: nat)
    requires n <= USIZE_MAX
    ensures Reaches(ColdOpening(cap, n, 0), s, race) && Filling(s, cap, n, base, 0, 0)
  {
    var first := ColdOpening(cap, n, 0);
    Seats(cap, n, 0, n, race);
    var w := Seated(cap, n, 0, n);
    hide Reaches, Stands, Opening;
    s := Witness(first, w, race);
    base := |s.log|;
    ReachedCounts(first, s, race);
    hide Shows, Seated, Filling, CounterAfter;
    SeatedFills(s, cap, n);
  }

  lemma SeatedFills(s: State, cap: nat, n: nat)
    requires Shows(s, Seated(cap, n, 0, n)) && s.nextCid == CounterAfter(|s.log|)
    ensures Filling(s, cap, n, |s.log|, 0, 0)
  {
    var w := Seated(cap, n, 0, n);
    ShowsNonePast(s, w);
    hide Shows, UpTo, CounterAfter, CidOf, PastCheck;
    SpotSeen(s, w, 0);
    forall c: nat | c < n ensures c in s.relays && SpotOf(s.relays[c]) == Spot(Admitting(SOME_FRAME), Some(c)) {
      SpotSeen(s, w, c);
    }
  }

  lemma ReachedCounts(first: State, s: State, race: nat)
    requires Reaches(first, s, race)
    ensures s.nextCid == CounterAfter(|s.log|)
  {
    var states, actions := RunTo(first, s, race);
    RunCounter(states, actions, |actions|);
    hide IsRun, TaskCounts, CounterAfter;
  }

  /** One more client passes the check. */
  lemma OnePasses(first: State, s: State, cap: nat, n: nat, base: nat, done: nat, passed: nat, race: nat) returns (t: State)
    requires Reaches(first, s, race) && Filling(s, cap, n, base, done, passed)
    requires passed < n && done < cap && passed - done < race
    ensures Reaches(first, t, race) && Filling(t, cap, n, base, done, passed + 1)
  {
    hide Reaches, PastCheck, CidOf, CounterAfter;
    t := Checks(first, s, passed, passed, race);
    PastChange(s, t, passed);
  }

  /** The next client past the check inserts, under an id of its own. */
  lemma OneInserts(first: State, s: State, cap: nat, n: nat, base: nat, done: nat, passed: nat, race: nat) returns (t: State)
    requires Reaches(first, s, race) && Filling(s, cap, n, base, done, passed)
    requires done < passed && passed - done <= race && done < 0x7FFF_FFFF
    ensures Reaches(first, t, race) && Filling(t, cap, n, base, done + 1, passed)
  {
    var num, e;
    hide Reaches, PastCheck;
    t, num, e := InsertsNext(first, s, cap, n, base, done, passed, race);
    NewId(s.routes, base, done);
    hide CidOf, CounterAfter, Successor;
    PastChange(s, t, done);
    InsertedKeys(s.routes, t.routes, base, done, e);
  }

  lemma InsertsNext(first: State, s: State, cap: nat, n: nat, base: nat, done: nat, passed: nat, race: nat)
      returns (t: State, num: nat, e: Entry)
    requires Reaches(first, s, race) && Filling(s, cap, n, base, done, passed) && done < passed && passed - done <= race
    ensures Reaches(first, t, race) && Alike(s, done, t) && t.nextCid == CounterAfter(base + done + 1)
    ensures t.routes == s.routes[CidOf(base + done) := e] && |t.log| == |s.log| + 1
    ensures t.relays[done].pc.Listed?
  {
    SwapCounts(base + done);
    hide Reaches, PastCheck, CidOf, CounterAfter, Successor, HasId;
    t, num, e := Inserts(first, s, done, done, race);
  }

  lemma NewId(routes: Routes, base: nat, done: nat)
    requires forall cid :: cid in routes ==> HasId(cid, base, base + done)
    requires done < 0x7FFF_FFFF
    ensures CidOf(base + done) !in routes
  {
    if CidOf(base + done) in routes {
      assert HasId(CidOf(base + done), base, base + done);
      var i: nat :| base <= i < base + done && CidOf(base + done) == CidOf(i);
      CidsDistinct(i, base + done);
    }
  }

  lemma InsertedKeys(routes: Routes, after: Routes, base: nat, done: nat, e: Entry)
    requires |routes| == done && (forall cid :: cid in routes ==> HasId(cid, base, base + done))
    requires CidOf(base + done) !in routes && after == routes[CidOf(base + done) := e]
    ensures |after| == done + 1 && forall cid :: cid in after ==> HasId(cid, base, base + done + 1)
  {
    hide CidOf;
    assert after.Keys == routes.Keys + {CidOf(base + done)};
    assert |after.Keys| == |routes.Keys| + 1;
    forall cid | cid in after ensures HasId(cid, base, base + done + 1) {
      if cid in routes {
        var i: nat :| base <= i < base + done && cid == CidOf(i);
      } else {
        assert cid == CidOf(base + done);
      }
    }
  }

  /** Below the cap clients can insert one at a time. */
  lemma {:induction false} OneByOne(first: State, s: State, cap: nat, n: nat, base: nat, goal: nat, race: nat)
      returns (t: State)
    requires Reaches(first, s, race) && Filling(s, cap, n, base, 0, 0) && race >= 1
    requires goal <= n && goal <= cap && goal <= 0x7FFF_FFFF
    ensures Reaches(first, t, race) && Filling(t, cap, n, base, goal, goal)
    decreases goal
  {
    hide Reaches, Filling;
    t := s;
    if goal > 0 {
      t := OneByOne(first, t, cap, n, base, goal - 1, race);
      t := OnePasses(first, t, cap, n, base, goal - 1, goal - 1, race);
      t := OneInserts(first, t, cap, n, base, goal - 1, goal, race);
    }
  }

  /** While the map is below the cap others may pass the check too. */
  lemma {:induction false} AllPass(first: State, s: State, cap: nat, n: nat, base: nat, done: nat, goal: nat, race: nat)
      returns (t: State)
    requires Reaches(first, s, race) && Filling(s, cap, n, base, done, done)
    requires done <= goal <= n && done < cap && goal <= done + race
    ensures Reaches(first, t, race) && Filling(t, cap, n, base, done, goal)
    decreases goal
  {
    hide Reaches, Filling;
    t := s;
    if done < goal {
      t := AllPass(first, t, cap, n, base, done, goal - 1, race);
      t := OnePasses(first, t, cap, n, base, done, goal - 1, race);
    }
  }

  /** Those past the check insert, however full the map has become. */
  lemma {:induction false} AllInsert(first: State, s: State, cap: nat, n: nat, base: nat, done: nat, passed: nat, goal: nat, race: nat)
      returns (t: State)
    requires Reaches(first, s, race) && Filling(s, cap, n, base, done, passed)
    requires done <= goal <= passed <= done + race && passed <= 0x7FFF_FFFF
    ensures Reaches(first, t, race) && Filling(t, cap, n, base, goal, passed)
    decreases goal
  {
    hide Reaches, Filling;
    t := s;
    if done < goal {
      t := AllInsert(first, t, cap, n, base, done, passed, goal - 1, race);
      t := OneInserts(first, t, cap, n, base, goal - 1, passed, race);
    }
  }

  lemma Fills(cap: nat, tasks: nat, size: nat) returns (s: State)
    requires cap >= 1 && tasks >= 1 && size <= cap + tasks - 1 && size <= 0x7FFF_FFFF
    ensures Reaches(ColdOpening(cap, size, 0), s, tasks) && |s.routes| == size
  {
    hide Reaches, Opening;
    var first := ColdOpening(cap, size, 0);
    var base;
    s, base := Begins(cap, size, tasks);
    var alone := if size < cap then size else cap - 1;
    s := OneByOne(first, s, cap, size, base, alone, tasks);
    s := AllPass(first, s, cap, size, base, alone, size, tasks);
    s := AllInsert(first, s, cap, size, base, alone, size, size, tasks);
  }

  // ---- The exact condition ----

  /** In some run with this cap, and never more than so many tasks past the check, the map holds
      that many registrations. */
  ghost predicate SomeRunHolds(cap: nat, tasks: nat, size: nat) {
    exists first, s :: Reaches(first, s, tasks) && first.maxInFlight == cap && |s.routes| == size
  }

  lemma NothingHeld(cap: nat, tasks: nat)
    ensures SomeRunHolds(cap, tasks, 0)
  {
    var s := ColdOpening(cap, 0, 0);
    Start(s, tasks);
    hide Reaches;
    assert |s.routes| == 0;
  }

  /** The sizes the map can have: with a positive cap, all up to cap + T - 1, but never more than there
      are ids; with a cap of zero, none but zero. */
  lemma SizesAreExact(cap: nat, tasks: nat, size: nat)
    requires tasks >= 1
    ensures SomeRunHolds(cap, tasks, size)
       <==> size == 0 || (cap >= 1 && size <= cap + tasks - 1 && size <= 0x7FFF_FFFF)
  {
    hide Reaches;
    if SomeRunHolds(cap, tasks, size) {
      var first, s :| Reaches(first, s, tasks) && first.maxInFlight == cap && |s.routes| == size;
      NeverFuller(first, s, tasks);
    }
    if size == 0 {
      NothingHeld(cap, tasks);
    } else if cap >= 1 && size <= cap + tasks - 1 && size <= 0x7FFF_FFFF {
      var s := Fills(cap, tasks, size);
      assert ColdOpening(cap, size, 0).maxInFlight == cap;
    }
  }

  /** So the cap is exceeded in some run exactly if two may race, somebody passes at all, and there are
      ids left beyond the cap. */
  lemma CapExceededIffRaced(cap: nat, tasks: nat)
    requires tasks >= 1
    ensures (exists size :: size > cap && SomeRunHolds(cap, tasks, size)) <==> tasks >= 2 && 1 <= cap < 0x7FFF_FFFF
  {
    hide SomeRunHolds;
    SizesAreExact(cap, tasks, cap + 1);
    forall size: nat | size > cap && SomeRunHolds(cap, tasks, size) ensures tasks >= 2 && 1 <= cap < 0x7FFF_FFFF {
      SizesAreExact(cap, tasks, size);
    }
  }
}
