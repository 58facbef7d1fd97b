/** Building blocks for concrete runs: one broker, clients that come, borrow, serve and leave. */
module Scenes {
  import opened Sets
  import opened Wire
  import opened Remap
  import opened Rewrite
  import opened Pool
  import opened Proxy
  import opened Profile
  import opened InFlightCap
  import RegistrySteps

  // ---- Reachable states ----

  /** s is reached from the start `first` with never more than `race` tasks past the in-flight check. */
  ghost predicate Reaches(first: State, s: State, race: nat) {
    exists states, actions :: IsRun(states, actions) && states[0] == first && states[|actions|] == s
      && forall j :: 0 <= j < |states| ==> PastCheck(states[j]) <= race
  }

  lemma RunTo(first: State, s: State, race: nat) returns (states: seq<State>, actions: seq<Action>)
    requires Reaches(first, s, race)
    ensures IsRun(states, actions) && states[0] == first && states[|actions|] == s
    ensures forall j :: 0 <= j < |states| ==> PastCheck(states[j]) <= race
  {
    hide Init, Next, PastCheck;
    states, actions :| IsRun(states, actions) && states[0] == first && states[|actions|] == s
      && forall j :: 0 <= j < |states| ==> PastCheck(states[j]) <= race;
  }

  lemma Onward(first: State, s: State, a: Action, t: State, race: nat)
    requires Reaches(first, s, race) && Next(s, a) == Some(t) && PastCheck(t) <= race
    ensures Reaches(first, t, race)
  {
    var states, actions := RunTo(first, s, race);
    hide Init, Next, PastCheck;
    assert IsRun(states + [t], actions + [a]);
  }

  lemma Start(s: State, race: nat)
    requires Init(s)
    ensures Reaches(s, s, race)
  {
    assert PastOf(s.relays) == map[];
    hide Init;
    assert IsRun([s], []);
  }

  // ---- What matters of a state with one broker ----

  datatype Spot = Spot(pc: Pc, lease: Option<ConnId>)

  /** Broker 0's pool, where each client is, the connections and the registrations. */
  datatype Scene = Scene(cap: nat, pool: Pool, spots: map<ClientId, Spot>, conns: map<ConnId, Conn>, next: ConnId, routes: Routes)

  function SpotOf(r: Relay): Spot {
    Spot(r.pc, r.lease)
  }

  function SpotsOf(relays: map<ClientId, Relay>): map<ClientId, Spot> {
    map c | c in relays :: SpotOf(relays[c])
  }

  ghost predicate Shows(s: State, w: Scene) {
    && s.maxInFlight == w.cap && s.routes == w.routes && s.pools == map[0 := w.pool]
    && SpotsOf(s.relays) == w.spots && (forall c :: c in s.relays ==> s.relays[c].node == 0)
    && s.conns == w.conns && s.nextConn == w.next
    && PastCheck(s) == 0
  }

  ghost predicate Stands(first: State, w: Scene, race: nat) {
    exists s :: Reaches(first, s, race) && Shows(s, w)
  }

  const SOME_FRAME: Bytes := [0, 0, 0, 0, 0, 0, 0, 0]

  lemma SomeFrameParses()
    ensures ParseRequestHeader(SOME_FRAME).Some?
  {
  }

  /** The scene with one client elsewhere. */
  function Moved(w: Scene, c: ClientId, pc: Pc, lease: Option<ConnId>): Scene {
    w.(spots := w.spots[c := Spot(pc, lease)])
  }

  /** One client took a step, outside the race for the cap, that turns the one scene into the other. */
  ghost predicate Turns(s: State, w: Scene, c: ClientId, t: State, after: Scene) {
    && c in t.relays && t.relays == s.relays[c := t.relays[c]] && t.relays[c].node == 0
    && after.spots == w.spots[c := SpotOf(t.relays[c])] && after.cap == w.cap
    && Past(t.relays[c]) == 0 && (c in s.relays ==> Past(s.relays[c]) == 0)
    && t.maxInFlight == s.maxInFlight && t.routes == after.routes
    && t.pools == map[0 := after.pool] && t.conns == after.conns && t.nextConn == after.next
  }

  lemma ShowsTurn(s: State, w: Scene, c: ClientId, t: State, after: Scene)
    requires Shows(s, w) && Turns(s, w, c, t, after)
    ensures Shows(t, after)
  {
    PastChange(s, t, c);
    hide PastCheck, Past;
    assert SpotsOf(t.relays) == SpotsOf(s.relays)[c := SpotOf(t.relays[c])];
  }

  lemma StandsTurn(first: State, s: State, w: Scene, c: ClientId, step: TaskStep, t: State, after: Scene, race: nat)
    requires Reaches(first, s, race) && Shows(s, w) && Next(s, Task(c, step)) == Some(t) && Turns(s, w, c, t, after)
    ensures Stands(first, after, race)
  {
    hide Reaches, Shows, Next, Turns;
    ShowsTurn(s, w, c, t, after);
    ShowsNonePast(t, after);
    Onward(first, s, Task(c, step), t, race);
  }

  lemma ShowsNonePast(s: State, w: Scene)
    requires Shows(s, w)
    ensures PastCheck(s) == 0
  {
    hide PastCheck;
  }

  /** What a scene tells of one client. */
  lemma SpotSeen(s: State, w: Scene, c: ClientId)
    requires Shows(s, w)
    ensures c in s.relays <==> c in w.spots
    ensures c in s.relays ==> s.relays[c].node == 0 && s.relays[c].pc == w.spots[c].pc && s.relays[c].lease == w.spots[c].lease
    ensures s.maxInFlight == w.cap && s.routes == w.routes && s.pools == map[0 := w.pool]
    ensures s.conns == w.conns && s.nextConn == w.next
  {
    hide PastCheck;
    assert c in SpotsOf(s.relays) <==> c in s.relays;
  }

  // ---- Coming, finding, borrowing ----

  lemma Connects(first: State, w: Scene, c: ClientId, race: nat)
    requires Stands(first, w, race) && c !in w.spots
    ensures Stands(first, Moved(w, c, Reading, None), race)
  {
    hide Reaches, Shows, Stands;
    var s := Witness(first, w, race);
    SpotSeen(s, w, c);
    StandsTurn(first, s, w, c, Connect(0), DoConnect(s, c, 0).value, Moved(w, c, Reading, None), race);
  }

  lemma Witness(first: State, w: Scene, race: nat) returns (s: State)
    requires Stands(first, w, race)
    ensures Reaches(first, s, race) && Shows(s, w)
  {
    hide Reaches, Shows;
    s :| Reaches(first, s, race) && Shows(s, w);
  }

  /** A new client sends its first frame and starts to look for a connection. */
  lemma Arrives(first: State, w: Scene, c: ClientId, race: nat)
    requires Stands(first, w, race) && c !in w.spots
    ensures Stands(first, Moved(w, c, Seeking(SOME_FRAME), None), race)
  {
    hide Stands, ParseRequestHeader;
    Connects(first, w, c, race);
    var w1, w2 := Moved(w, c, Reading, None), Moved(w, c, Framed(SOME_FRAME), None);
    Reads(first, w1, c, race);
    assert Moved(w1, c, Framed(SOME_FRAME), None) == w2;
    Decides(first, w2, c, race);
    assert Moved(w2, c, Seeking(SOME_FRAME), None) == Moved(w, c, Seeking(SOME_FRAME), None);
  }

  lemma Decides(first: State, w: Scene, c: ClientId, race: nat)
    requires Stands(first, w, race) && c in w.spots && w.spots[c] == Spot(Framed(SOME_FRAME), None)
    ensures Stands(first, Moved(w, c, Seeking(SOME_FRAME), None), race)
  {
    hide Reaches, Shows, Stands;
    var s := Witness(first, w, race);
    SpotSeen(s, w, c);
    StandsTurn(first, s, w, c, Decide(false), DoDecide(s, c, false).value, Moved(w, c, Seeking(SOME_FRAME), None), race);
  }

  lemma Reads(first: State, w: Scene, c: ClientId, race: nat)
    requires Stands(first, w, race) && c in w.spots && w.spots[c] == Spot(Reading, None)
    ensures Stands(first, Moved(w, c, Framed(SOME_FRAME), None), race)
  {
    SomeFrameParses();
    hide Reaches, Shows, Stands, ParseRequestHeader;
    var s := Witness(first, w, race);
    SpotSeen(s, w, c);
    StandsTurn(first, s, w, c, ReadFrame(SOME_FRAME), DoReadFrame(s, c, SOME_FRAME).value,
               Moved(w, c, Framed(SOME_FRAME), None), race);
  }

  lemma OnePool(p: Pool, q: Pool)
    ensures map[0 := p][0 := q] == map[0 := q]
  {
  }

  lemma FindsNone(first: State, w: Scene, c: ClientId, race: nat)
    requires Stands(first, w, race) && c in w.spots && w.spots[c] == Spot(Seeking(SOME_FRAME), None)
    requires w.pool.idle == [] && w.pool.reaper.Asleep?
    ensures Stands(first, Moved(w, c, SawEmpty(SOME_FRAME), None), race)
  {
    hide Reaches, Shows, Stands;
    var s := Witness(first, w, race);
    SpotSeen(s, w, c);
    StandsTurn(first, s, w, c, TakeIdle, DoTakeIdle(s, c).value, Moved(w, c, SawEmpty(SOME_FRAME), None), race);
  }

  lemma Reserves(first: State, w: Scene, c: ClientId, race: nat)
    requires Stands(first, w, race) && c in w.spots && w.spots[c] == Spot(SawEmpty(SOME_FRAME), None)
    requires w.pool.count < w.pool.maxPerBroker
    ensures Stands(first, Moved(w, c, Connecting(SOME_FRAME), None).(pool := w.pool.(count := w.pool.count + 1)), race)
  {
    hide Reaches, Shows, Stands;
    var s := Witness(first, w, race);
    SpotSeen(s, w, c);
    OnePool(w.pool, w.pool.(count := w.pool.count + 1));
    StandsTurn(first, s, w, c, Reserve, DoReserve(s, c).value,
               Moved(w, c, Connecting(SOME_FRAME), None).(pool := w.pool.(count := w.pool.count + 1)), race);
  }

  lemma IsFull(first: State, w: Scene, c: ClientId, race: nat)
    requires Stands(first, w, race) && c in w.spots && w.spots[c] == Spot(SawEmpty(SOME_FRAME), None)
    requires w.pool.count >= w.pool.maxPerBroker
    ensures Stands(first, Moved(w, c, Waiting(SOME_FRAME), None), race)
  {
    hide Reaches, Shows, Stands;
    var s := Witness(first, w, race);
    SpotSeen(s, w, c);
    StandsTurn(first, s, w, c, Reserve, DoReserve(s, c).value, Moved(w, c, Waiting(SOME_FRAME), None), race);
  }

  lemma Handshakes(first: State, w: Scene, c: ClientId, race: nat)
    requires Stands(first, w, race) && c in w.spots && w.spots[c] == Spot(Connecting(SOME_FRAME), None)
    ensures Stands(first, Moved(w, c, Admitting(SOME_FRAME), Some(w.next)).(
                     conns := w.conns[w.next := FreshConn(0)], next := w.next + 1), race)
  {
    hide Reaches, Shows, Stands;
    var s := Witness(first, w, race);
    SpotSeen(s, w, c);
    StandsTurn(first, s, w, c, Handshake(true), DoHandshake(s, c, true).value,
               Moved(w, c, Admitting(SOME_FRAME), Some(w.next)).(
                 conns := w.conns[w.next := FreshConn(0)], next := w.next + 1), race);
  }

  lemma Takes(first: State, w: Scene, c: ClientId, race: nat)
    requires Stands(first, w, race) && c in w.spots && w.spots[c] == Spot(Seeking(SOME_FRAME), None)
    requires w.pool.idle != [] && w.pool.reaper.Asleep?
    ensures Stands(first, Moved(w, c, Admitting(SOME_FRAME), Some(w.pool.idle[0])).(
                     pool := w.pool.(idle := w.pool.idle[1..])), race)
  {
    hide Reaches, Shows, Stands;
    var s := Witness(first, w, race);
    SpotSeen(s, w, c);
    OnePool(w.pool, w.pool.(idle := w.pool.idle[1..]));
    StandsTurn(first, s, w, c, TakeIdle, DoTakeIdle(s, c).value,
               Moved(w, c, Admitting(SOME_FRAME), Some(w.pool.idle[0])).(
                 pool := w.pool.(idle := w.pool.idle[1..])), race);
  }

  /** A new client that finds the queue empty. */
  lemma ComesInVain(first: State, w: Scene, c: ClientId, race: nat)
    requires Stands(first, w, race) && c !in w.spots && w.pool.idle == [] && w.pool.reaper.Asleep?
    ensures Stands(first, Moved(w, c, SawEmpty(SOME_FRAME), None), race)
  {
    hide Stands;
    Arrives(first, w, c, race);
    var w1, w2 := Moved(w, c, Seeking(SOME_FRAME), None), Moved(w, c, SawEmpty(SOME_FRAME), None);
    FindsNone(first, w1, c, race);
    assert Moved(w1, c, SawEmpty(SOME_FRAME), None) == w2;
  }

  // ---- Waiting and giving back ----

  lemma Waits(first: State, w: Scene, c: ClientId, race: nat)
    requires Stands(first, w, race) && c in w.spots && w.spots[c] == Spot(Waiting(SOME_FRAME), None)
    ensures Stands(first, if w.pool.permit then Moved(w, c, Seeking(SOME_FRAME), None).(pool := w.pool.(permit := false))
                          else Moved(w, c, Parked(SOME_FRAME), None), race)
  {
    hide Reaches, Shows, Stands;
    var s := Witness(first, w, race);
    SpotSeen(s, w, c);
    OnePool(w.pool, w.pool.(permit := false));
    StandsTurn(first, s, w, c, Await, DoAwait(s, c).value,
               if w.pool.permit then Moved(w, c, Seeking(SOME_FRAME), None).(pool := w.pool.(permit := false))
               else Moved(w, c, Parked(SOME_FRAME), None), race);
  }

  lemma Pushes(first: State, w: Scene, c: ClientId, k: ConnId, race: nat)
    requires Stands(first, w, race) && c in w.spots && w.spots[c] == Spot(Returning(k, None), None)
    requires w.pool.reaper.Asleep?
    ensures Stands(first, Moved(w, c, Pushed(None), None).(pool := Returned(w.pool, k)), race)
  {
    hide Reaches, Shows, Stands, Returned;
    var s := Witness(first, w, race);
    SpotSeen(s, w, c);
    OnePool(w.pool, Returned(w.pool, k));
    StandsTurn(first, s, w, c, PushIdle, DoPushIdle(s, c).value,
               Moved(w, c, Pushed(None), None).(pool := Returned(w.pool, k)), race);
  }

  ghost predicate NobodyParked(w: Scene) {
    forall c :: c in w.spots ==> !w.spots[c].pc.Parked?
  }

  /** With nobody parked the notification becomes the one stored permit. */
  lemma Notifies(first: State, w: Scene, c: ClientId, race: nat)
    requires Stands(first, w, race) && c in w.spots && w.spots[c] == Spot(Pushed(None), None) && NobodyParked(w)
    ensures Stands(first, Moved(w, c, Ended, None).(pool := w.pool.(permit := true)), race)
  {
    hide Reaches, Stands;
    var s := Witness(first, w, race);
    SpotSeen(s, w, c);
    OnePool(w.pool, w.pool.(permit := true));
    NoneParked(s, w, c);
    hide Shows;
    var t := WithPool(Goto(s, c, Ended), 0, s.pools[0].(permit := true));
    NotifiesNobody(s, c, t);
    hide Next, NobodyParked, IsParked;
    StandsTurn(first, s, w, c, NotifyOne(None), t, Moved(w, c, Ended, None).(pool := w.pool.(permit := true)), race);
  }

  lemma NotifiesNobody(s: State, c: ClientId, t: State)
    requires c in s.relays && s.relays[c].pc == Pushed(None) && s.relays[c].node == 0 && 0 in s.pools
    requires forall d :: d in s.relays ==> !IsParked(Goto(s, c, Ended), d, 0)
    requires t == WithPool(Goto(s, c, Ended), 0, s.pools[0].(permit := true))
    ensures Next(s, Task(c, NotifyOne(None))) == Some(t)
  {
    hide IsParked;
    assert DoNotifyOne(s, c, None) == Some(t);
  }

  lemma NoneParked(s: State, w: Scene, c: ClientId)
    requires Shows(s, w) && NobodyParked(w) && c in s.relays
    ensures forall d :: d in s.relays ==> !IsParked(Goto(s, c, Ended), d, 0)
  {
    hide PastCheck;
    forall d | d in s.relays ensures !IsParked(Goto(s, c, Ended), d, 0) {
      assert d in SpotsOf(s.relays) && SpotsOf(s.relays)[d] == SpotOf(s.relays[d]);
    }
  }

  /** At the cap the check sends the lease back. */
  lemma TurnedAway(first: State, w: Scene, c: ClientId, k: ConnId, race: nat)
    requires Stands(first, w, race) && |w.routes| >= w.cap && c in w.spots && w.spots[c] == Spot(Admitting(SOME_FRAME), Some(k))
    ensures Stands(first, Moved(w, c, Returning(k, None), None), race)
  {
    hide Reaches, Shows, Stands;
    var s := Witness(first, w, race);
    SpotSeen(s, w, c);
    StandsTurn(first, s, w, c, Check, DoCheck(s, c).value, Moved(w, c, Returning(k, None), None), race);
  }

  /** A client with a lease closes its side. */
  lemma Leaves(first: State, w: Scene, c: ClientId, k: ConnId, race: nat)
    requires Stands(first, w, race) && c in w.spots && w.spots[c] == Spot(Reading, Some(k))
    ensures Stands(first, Moved(w, c, Returning(k, None), None), race)
  {
    hide Reaches, Shows, Stands;
    var s := Witness(first, w, race);
    SpotSeen(s, w, c);
    StandsTurn(first, s, w, c, EndInput, DoEndInput(s, c).value, Moved(w, c, Returning(k, None), None), race);
  }

  // ---- The steps of one insertion, others standing still ----

  /** Only client c, the registrations and the counters differ. */
  ghost predicate Alike(s: State, c: ClientId, t: State) {
    && c in s.relays && c in t.relays && t.relays == s.relays[c := t.relays[c]]
    && t.relays[c].node == s.relays[c].node
    && t.pools == s.pools && t.conns == s.conns && t.nextConn == s.nextConn && t.maxInFlight == s.maxInFlight
  }

  /** Client c may be past the check without making one too many. */
  ghost predicate Room(s: State, c: ClientId, race: nat) {
    c in s.relays && PastCheck(s) - Past(s.relays[c]) + 1 <= race
  }

  lemma AlikeStep(first: State, s: State, c: ClientId, u: State, step: TaskStep, t: State, race: nat)
    requires Reaches(first, u, race) && Alike(s, c, t) && Room(s, c, race)
    requires Next(u, Task(c, step)) == Some(t)
    ensures Reaches(first, t, race)
  {
    PastChange(s, t, c);
    hide Next, Reaches, PastCheck;
    Onward(first, u, Task(c, step), t, race);
  }

  lemma Checks(first: State, s: State, c: ClientId, k: ConnId, race: nat) returns (t: State)
    requires Reaches(first, s, race) && c in s.relays && Room(s, c, race) && |s.routes| < s.maxInFlight
    requires SpotOf(s.relays[c]) == Spot(Admitting(SOME_FRAME), Some(k))
    ensures Reaches(first, t, race) && Alike(s, c, t) && SpotOf(t.relays[c]) == Spot(Checked(SOME_FRAME), Some(k))
    ensures t.routes == s.routes && t.log == s.log && t.nextCid == s.nextCid
  {
    hide Reaches, Room;
    t := DoCheck(s, c).value;
    AlikeStep(first, s, c, s, Check, t, race);
  }

  lemma Loads(first: State, s: State, c: ClientId, k: ConnId, u: State, race: nat) returns (t: State)
    requires Reaches(first, u, race) && Alike(s, c, u) && Room(s, c, race)
    requires SpotOf(u.relays[c]) == Spot(Checked(SOME_FRAME), Some(k))
    ensures Reaches(first, t, race) && Alike(s, c, t)
    ensures SpotOf(t.relays[c]) == Spot(Loaded(SOME_FRAME, u.nextCid, |u.log|), Some(k))
    ensures t.routes == u.routes && t.log == u.log && t.nextCid == u.nextCid
  {
    hide Reaches, Room;
    t := DoLoad(u, c).value;
    AlikeStep(first, s, c, u, Load, t, race);
  }

  lemma Swaps(first: State, s: State, c: ClientId, k: ConnId, u: State, race: nat) returns (t: State)
    requires Reaches(first, u, race) && Alike(s, c, u) && Room(s, c, race)
    requires SpotOf(u.relays[c]) == Spot(Loaded(SOME_FRAME, u.nextCid, |u.log|), Some(k))
    ensures Reaches(first, t, race) && Alike(s, c, t)
    ensures SpotOf(t.relays[c]) == Spot(Drew(SOME_FRAME, Successor(u.nextCid), |u.log|), Some(k))
    ensures t.routes == u.routes && |t.log| == |u.log| + 1 && t.nextCid == Successor(u.nextCid)
  {
    SomeFrameParses();
    hide Reaches, Room, ParseRequestHeader, Successor;
    t := DoSwap(u, c).value;
    AlikeStep(first, s, c, u, Swap, t, race);
  }

  lemma Puts(first: State, s: State, c: ClientId, k: ConnId, u: State, race: nat) returns (t: State, e: Entry)
    requires Reaches(first, u, race) && Alike(s, c, u) && Room(s, c, race)
    requires u.relays[c].lease == Some(k) && u.relays[c].pc.Drew? && u.relays[c].pc.data == SOME_FRAME
    ensures Reaches(first, t, race) && Alike(s, c, t)
    ensures var pc := u.relays[c].pc;
            && SpotOf(t.relays[c]) == Spot(Listed(SOME_FRAME, pc.cidU, pc.num), Some(k))
            && t.routes == u.routes[pc.cidU := e] && |t.log| == |u.log| && t.nextCid == u.nextCid
  {
    SomeFrameParses();
    hide Reaches, Room, ParseRequestHeader;
    t := DoPut(u, c).value;
    e := t.routes[u.relays[c].pc.cidU];
    AlikeStep(first, s, c, u, Put, t, race);
  }

  /** Past the check, the rest of the insertion. */
  lemma Inserts(first: State, s: State, c: ClientId, k: ConnId, race: nat) returns (t: State, num: nat, e: Entry)
    requires Reaches(first, s, race) && c in s.relays && Room(s, c, race)
    requires SpotOf(s.relays[c]) == Spot(Checked(SOME_FRAME), Some(k))
    ensures Reaches(first, t, race) && Alike(s, c, t)
    ensures SpotOf(t.relays[c]) == Spot(Listed(SOME_FRAME, Successor(s.nextCid), num), Some(k))
    ensures t.routes == s.routes[Successor(s.nextCid) := e] && |t.log| == |s.log| + 1 && t.nextCid == Successor(s.nextCid)
  {
    hide Reaches, Room, Successor;
    assert s.relays[c := s.relays[c]] == s.relays;
    var s1 := Loads(first, s, c, k, s, race);
    var s2 := Swaps(first, s, c, k, s1, race);
    t, e := Puts(first, s, c, k, s2, race);
    num := |s.log|;
  }

  // ---- Serving one request ----

  /** The check and the insertion, in a scene where nothing is registered. */
  lemma Registers(first: State, w: Scene, c: ClientId, k: ConnId, race: nat) returns (cidU: Int32, num: nat, e: Entry)
    requires Stands(first, w, race) && race >= 1 && w.cap >= 1 && w.routes == map[]
    requires c in w.spots && w.spots[c] == Spot(Admitting(SOME_FRAME), Some(k))
    ensures Stands(first, Moved(w, c, Listed(SOME_FRAME, cidU, num), Some(k)).(routes := map[cidU := e]), race)
  {
    hide Stands;
    var s := Witness(first, w, race);
    SpotSeen(s, w, c);
    ShowsNonePast(s, w);
    hide Reaches, Shows, Successor;
    var s1 := Checks(first, s, c, k, race);
    AlikePast(s, c, s1, race);
    var t;
    t, num, e := Inserts(first, s1, c, k, race);
    cidU := Successor(s.nextCid);
    RegisteredShows(s, w, c, k, t, cidU, num, e);
    Shown(first, t, Moved(w, c, Listed(SOME_FRAME, cidU, num), Some(k)).(routes := map[cidU := e]), race);
  }

  lemma RegisteredShows(s: State, w: Scene, c: ClientId, k: ConnId, t: State, cidU: Int32, num: nat, e: Entry)
    requires Shows(s, w) && Alike(s, c, t) && Past(s.relays[c]) == 0
    requires SpotOf(t.relays[c]) == Spot(Listed(SOME_FRAME, cidU, num), Some(k)) && t.routes == map[cidU := e]
    ensures Shows(t, Moved(w, c, Listed(SOME_FRAME, cidU, num), Some(k)).(routes := map[cidU := e]))
  {
    SpotSeen(s, w, c);
    hide Shows;
    ShowsTurn(s, w, c, t, Moved(w, c, Listed(SOME_FRAME, cidU, num), Some(k)).(routes := map[cidU := e]));
  }

  lemma AlikePast(s: State, c: ClientId, t: State, race: nat)
    requires Alike(s, c, t) && Room(s, c, race)
    ensures Room(t, c, race)
  {
    PastChange(s, t, c);
    hide PastCheck;
  }

  lemma Shown(first: State, s: State, w: Scene, race: nat)
    requires Reaches(first, s, race) && Shows(s, w)
    ensures Stands(first, w, race)
  {
    hide Reaches, Shows;
  }

  lemma Tallies(first: State, w: Scene, c: ClientId, k: ConnId, cidU: Int32, num: nat, race: nat)
    requires Stands(first, w, race) && c in w.spots && w.spots[c] == Spot(Listed(SOME_FRAME, cidU, num), Some(k))
    ensures Stands(first, Moved(w, c, Tallied(SOME_FRAME, cidU, num), Some(k)), race)
  {
    hide Reaches, Shows, Stands;
    var s := Witness(first, w, race);
    SpotSeen(s, w, c);
    StandsTurn(first, s, w, c, TallyMap, DoTallyMap(s, c).value, Moved(w, c, Tallied(SOME_FRAME, cidU, num), Some(k)), race);
  }

  lemma TalliesAgain(first: State, w: Scene, c: ClientId, k: ConnId, cidU: Int32, num: nat, race: nat)
    requires Stands(first, w, race) && c in w.spots && w.spots[c] == Spot(Tallied(SOME_FRAME, cidU, num), Some(k))
    ensures Stands(first, Moved(w, c, Sending(SOME_FRAME, cidU, num), Some(k)), race)
  {
    hide Reaches, Shows, Stands;
    var s := Witness(first, w, race);
    SpotSeen(s, w, c);
    StandsTurn(first, s, w, c, TallyRequest, DoTallyRequest(s, c).value,
               Moved(w, c, Sending(SOME_FRAME, cidU, num), Some(k)), race);
  }

  function Queueing(num: nat, cidU: Int32): Conn {
    FreshConn(0).(queue := [Sent(num, Forwarded(SOME_FRAME, cidU))])
  }

  lemma Sends(first: State, w: Scene, c: ClientId, k: ConnId, cidU: Int32, num: nat, race: nat)
    requires Stands(first, w, race) && c in w.spots && w.spots[c] == Spot(Sending(SOME_FRAME, cidU, num), Some(k))
    requires k in w.conns && w.conns[k] == FreshConn(0)
    ensures Stands(first, Moved(w, c, Reading, Some(k)).(conns := w.conns[k := Queueing(num, cidU)]), race)
  {
    hide Reaches, Shows, Stands, Forwarded;
    var s := Witness(first, w, race);
    SpotSeen(s, w, c);
    var t := DoSend(s, c).value;
    assert w.conns[k].queue + Queueing(num, cidU).queue == Queueing(num, cidU).queue;
    StandsTurn(first, s, w, c, Send, t, Moved(w, c, Reading, Some(k)).(conns := w.conns[k := Queueing(num, cidU)]), race);
  }

  // ---- The connection and its broker ----

  /** Clients stay where they are; one connection and the registrations may change. */
  ghost predicate LinkTurns(s: State, w: Scene, t: State, after: Scene) {
    && t.relays.Keys == s.relays.Keys
    && (forall c :: c in s.relays ==> SpotOf(t.relays[c]) == SpotOf(s.relays[c]) && t.relays[c].node == s.relays[c].node)
    && after.spots == w.spots && after.cap == w.cap && after.pool == w.pool && after.next == w.next
    && t.pools == s.pools && t.nextConn == s.nextConn && t.maxInFlight == s.maxInFlight
    && t.conns == after.conns && t.routes == after.routes
  }

  lemma StandsLink(first: State, s: State, w: Scene, k: ConnId, move: LinkStep, t: State, after: Scene, race: nat)
    requires Reaches(first, s, race) && Shows(s, w) && Next(s, Link(k, move)) == Some(t) && LinkTurns(s, w, t, after)
    ensures Stands(first, after, race)
  {
    hide Reaches, Shows, Next, LinkTurns;
    ShowsLink(s, w, t, after);
    ShowsNonePast(t, after);
    Onward(first, s, Link(k, move), t, race);
  }

  lemma ShowsLink(s: State, w: Scene, t: State, after: Scene)
    requires Shows(s, w) && LinkTurns(s, w, t, after)
    ensures Shows(t, after)
  {
    SameSpots(s, t);
    hide PastCheck, SpotsOf;
  }

  lemma SameSpots(s: State, t: State)
    requires t.relays.Keys == s.relays.Keys && forall c :: c in s.relays ==> SpotOf(t.relays[c]) == SpotOf(s.relays[c])
    ensures SpotsOf(t.relays) == SpotsOf(s.relays) && PastCheck(t) == PastCheck(s)
  {
    assert SpotsOf(t.relays) == SpotsOf(s.relays);
    forall c | c in s.relays ensures t.relays[c].pc == s.relays[c].pc {
      assert SpotOf(t.relays[c]) == SpotOf(s.relays[c]);
    }
    assert PastOf(t.relays) == PastOf(s.relays);
    hide Past;
  }

  lemma One(x: Sent)
    ensures [] + [x] == [x] && [x][1..] == [] && [x][..0] + [x][0 + 1..] == []
  {
  }

  function OnConn(w: Scene, k: ConnId, q: Conn): Scene {
    w.(conns := w.conns[k := q])
  }

  function OnWire(num: nat, cidU: Int32): Conn {
    FreshConn(0).(wire := [Sent(num, Forwarded(SOME_FRAME, cidU))])
  }

  function Replying(num: nat, cidU: Int32): Conn {
    FreshConn(0).(replies := [Sent(num, PutI32(cidU))])
  }

  function InInbox(num: nat, cidU: Int32): Conn {
    FreshConn(0).(inbox := [Sent(num, PutI32(cidU))])
  }

  lemma Writes(first: State, w: Scene, k: ConnId, cidU: Int32, num: nat, race: nat)
    requires Stands(first, w, race) && k in w.conns && w.conns[k] == Queueing(num, cidU)
    ensures Stands(first, OnConn(w, k, OnWire(num, cidU)), race)
  {
    hide Reaches, Shows, Stands, Forwarded;
    var s := Witness(first, w, race);
    One(Sent(num, Forwarded(SOME_FRAME, cidU)));
    SpotSeen(s, w, 0);
    StandsLink(first, s, w, k, Write, DoWrite(s, k).value, OnConn(w, k, OnWire(num, cidU)), race);
  }

  lemma Answers(first: State, w: Scene, k: ConnId, cidU: Int32, num: nat, race: nat)
    requires Stands(first, w, race) && k in w.conns && w.conns[k] == OnWire(num, cidU)
    ensures Stands(first, OnConn(w, k, Replying(num, cidU)), race)
  {
    hide Reaches, Shows, Stands;
    var s := Witness(first, w, race);
    SpotSeen(s, w, 0);
    var t := AnswerEffect(s, k, cidU, num);
    hide Next;
    StandsLink(first, s, w, k, Answer(0, []), t, OnConn(w, k, Replying(num, cidU)), race);
  }

  lemma AnswerEffect(s: State, k: ConnId, cidU: Int32, num: nat) returns (t: State)
    requires k in s.conns && s.conns[k] == OnWire(num, cidU)
    ensures Next(s, Link(k, Answer(0, []))) == Some(t)
    ensures t == s.(conns := s.conns[k := Replying(num, cidU)], log := t.log)
  {
    RegistrySteps.ForwardedCid(SOME_FRAME, cidU);
    assert PutI32(cidU) + [] == PutI32(cidU);
    One(Sent(num, Forwarded(SOME_FRAME, cidU)));
    One(Sent(num, PutI32(cidU)));
    hide Forwarded, PutI32, GetI32, Replied;
    t := DoAnswer(s, k, 0, []).value;
  }

  lemma Receives(first: State, w: Scene, k: ConnId, cidU: Int32, num: nat, race: nat)
    requires Stands(first, w, race) && k in w.conns && w.conns[k] == Replying(num, cidU)
    ensures Stands(first, OnConn(w, k, InInbox(num, cidU)), race)
  {
    hide Reaches, Shows, Stands, PutI32;
    var s := Witness(first, w, race);
    One(Sent(num, PutI32(cidU)));
    SpotSeen(s, w, 0);
    StandsLink(first, s, w, k, Receive, DoReceive(s, k).value, OnConn(w, k, InInbox(num, cidU)), race);
  }

  lemma Fetches(first: State, w: Scene, k: ConnId, cidU: Int32, num: nat, e: Entry, race: nat)
    requires Stands(first, w, race) && k in w.conns && w.conns[k] == InInbox(num, cidU) && w.routes == map[cidU := e]
    ensures Stands(first, OnConn(w, k, FreshConn(0).(reader := TookMap(num, e, PutI32(cidU)))).(routes := map[]), race)
  {
    hide Reaches, Shows, Stands;
    var s := Witness(first, w, race);
    SpotSeen(s, w, 0);
    var t := FetchEffect(s, k, cidU, num, e);
    hide Next, PutI32;
    StandsLink(first, s, w, k, Fetch, t,
               OnConn(w, k, FreshConn(0).(reader := TookMap(num, e, PutI32(cidU)))).(routes := map[]), race);
  }

  lemma FetchEffect(s: State, k: ConnId, cidU: Int32, num: nat, e: Entry) returns (t: State)
    requires k in s.conns && s.conns[k] == InInbox(num, cidU) && s.routes == map[cidU := e]
    ensures Next(s, Link(k, Fetch)) == Some(t)
    ensures t == s.(conns := s.conns[k := FreshConn(0).(reader := TookMap(num, e, PutI32(cidU)))],
                    routes := map[], owner := t.owner, log := t.log)
  {
    I32RoundTrip(cidU, []);
    assert PutI32(cidU) + [] == PutI32(cidU);
    assert ParseResponseCid(PutI32(cidU)) == Some(cidU);
    One(Sent(num, PutI32(cidU)));
    hide PutI32, ParseResponseCid, OwnerOf, Mark, Move;
    t := DoFetch(s, k).value;
    assert map[cidU := e] - {cidU} == map[];
  }

  lemma ReadTallies(first: State, w: Scene, k: ConnId, num: nat, e: Entry, data: Bytes, race: nat)
    requires Stands(first, w, race) && k in w.conns && w.conns[k] == FreshConn(0).(reader := TookMap(num, e, data))
    ensures Stands(first, OnConn(w, k, FreshConn(0).(reader := Routing(num, e, data))), race)
  {
    hide Reaches, Shows, Stands;
    var s := Witness(first, w, race);
    SpotSeen(s, w, 0);
    var mid := OnConn(w, k, FreshConn(0).(reader := TookRequest(num, e, data)));
    StandsLink(first, s, w, k, ReadTallyMap, DoReadTallyMap(s, k).value, mid, race);
    var t := Witness(first, mid, race);
    SpotSeen(t, mid, 0);
    var after := OnConn(w, k, FreshConn(0).(reader := Routing(num, e, data)));
    assert after.conns == mid.conns[k := after.conns[k]];
    StandsLink(first, t, mid, k, ReadTallyRequest, DoReadTallyRequest(t, k).value, after, race);
  }

  lemma Delivers(first: State, w: Scene, k: ConnId, num: nat, e: Entry, data: Bytes, race: nat)
    requires Stands(first, w, race) && k in w.conns && |data| >= 4
    requires w.conns[k] == FreshConn(0).(reader := Routing(num, e, data))
    ensures Stands(first, OnConn(w, k, FreshConn(0)), race)
  {
    hide Reaches, Shows, Stands, RouteResponse;
    var s := Witness(first, w, race);
    SpotSeen(s, w, 0);
    StandsLink(first, s, w, k, Deliver, DoDeliver(s, k).value, OnConn(w, k, FreshConn(0)), race);
  }

  /** The frame goes out, its reply comes back, and the connection is as it was. */
  lemma RoundTrip(first: State, w: Scene, k: ConnId, cidU: Int32, num: nat, e: Entry, race: nat)
    requires Stands(first, w, race) && k in w.conns && w.conns[k] == Queueing(num, cidU) && w.routes == map[cidU := e]
    ensures Stands(first, OnConn(w, k, FreshConn(0)).(routes := map[]), race)
  {
    hide Stands;
    Writes(first, w, k, cidU, num, race);
    var w1 := OnConn(w, k, OnWire(num, cidU));
    Answers(first, w1, k, cidU, num, race);
    var w2 := OnConn(w1, k, Replying(num, cidU));
    Receives(first, w2, k, cidU, num, race);
    var w3 := OnConn(w2, k, InInbox(num, cidU));
    Fetches(first, w3, k, cidU, num, e, race);
    var w4 := OnConn(w3, k, FreshConn(0).(reader := TookMap(num, e, PutI32(cidU)))).(routes := map[]);
    ReadTallies(first, w4, k, num, e, PutI32(cidU), race);
    var w5 := OnConn(w4, k, FreshConn(0).(reader := Routing(num, e, PutI32(cidU))));
    Delivers(first, w5, k, num, e, PutI32(cidU), race);
    assert OnConn(w5, k, FreshConn(0)) == OnConn(w, k, FreshConn(0)).(routes := map[]);
  }

  /** A client with a lease has one request served and keeps the lease. */
  lemma Serves(first: State, w: Scene, c: ClientId, k: ConnId, race: nat)
    requires Stands(first, w, race) && race >= 1 && w.cap >= 1 && w.routes == map[]
    requires c in w.spots && w.spots[c] == Spot(Admitting(SOME_FRAME), Some(k)) && k in w.conns && w.conns[k] == FreshConn(0)
    ensures Stands(first, Moved(w, c, Reading, Some(k)), race)
  {
    hide Stands, Forwarded;
    var cidU, num, e := Registers(first, w, c, k, race);
    var w1 := Moved(w, c, Listed(SOME_FRAME, cidU, num), Some(k)).(routes := map[cidU := e]);
    Tallies(first, w1, c, k, cidU, num, race);
    var w2 := Moved(w1, c, Tallied(SOME_FRAME, cidU, num), Some(k));
    TalliesAgain(first, w2, c, k, cidU, num, race);
    var w3 := Moved(w2, c, Sending(SOME_FRAME, cidU, num), Some(k));
    Sends(first, w3, c, k, cidU, num, race);
    var w4 := Moved(w3, c, Reading, Some(k)).(conns := w.conns[k := Queueing(num, cidU)]);
    RoundTrip(first, w4, k, cidU, num, e, race);
    assert w.conns[k := Queueing(num, cidU)][k := FreshConn(0)] == w.conns;
    assert OnConn(w4, k, FreshConn(0)).(routes := map[]) == Moved(w, c, Reading, Some(k));
  }

  /** However the cap is set, a client can give its lease back: refused at the check when the cap is
      zero, after one served request otherwise. */
  lemma GivesBack(first: State, w: Scene, c: ClientId, k: ConnId, race: nat)
    requires Stands(first, w, race) && race >= 1 && w.routes == map[]
    requires c in w.spots && w.spots[c] == Spot(Admitting(SOME_FRAME), Some(k)) && k in w.conns && w.conns[k] == FreshConn(0)
    ensures Stands(first, Moved(w, c, Returning(k, None), None), race)
  {
    hide Stands;
    if w.cap == 0 {
      TurnedAway(first, w, c, k, race);
    } else {
      Serves(first, w, c, k, race);
      var w1 := Moved(w, c, Reading, Some(k));
      Leaves(first, w1, c, k, race);
      assert Moved(w1, c, Returning(k, None), None) == Moved(w, c, Returning(k, None), None);
    }
  }

  /** A new client finds none, reserves and makes a connection of its own. */
  lemma Borrows(first: State, w: Scene, c: ClientId, race: nat)
    requires Stands(first, w, race) && c !in w.spots && w.pool.idle == [] && w.pool.reaper.Asleep?
    requires w.pool.count < w.pool.maxPerBroker
    ensures Stands(first, Moved(w, c, Admitting(SOME_FRAME), Some(w.next)).(
                     pool := w.pool.(count := w.pool.count + 1),
                     conns := w.conns[w.next := FreshConn(0)], next := w.next + 1), race)
  {
    hide Stands;
    ComesInVain(first, w, c, race);
    var w1 := Moved(w, c, SawEmpty(SOME_FRAME), None);
    Reserves(first, w1, c, race);
    var w2 := Moved(w1, c, Connecting(SOME_FRAME), None).(pool := w.pool.(count := w.pool.count + 1));
    Handshakes(first, w2, c, race);
    assert Moved(w2, c, Admitting(SOME_FRAME), Some(w.next)).spots == Moved(w, c, Admitting(SOME_FRAME), Some(w.next)).spots;
  }

  // ---- Starting ----

  /** s is reached by some run from the start `first`. */
  ghost predicate Reachable(first: State, s: State) {
    exists states, actions :: IsRun(states, actions) && states[0] == first && states[|actions|] == s
  }

  lemma ReachedIsReachable(first: State, s: State, race: nat)
    requires Reaches(first, s, race)
    ensures Reachable(first, s)
  {
    var states, actions := RunTo(first, s, race);
  }

  /** Right after warm-up: broker 0 with the given idle connections. */
  function Opening(cap: nat, p: Pool, conns: map<ConnId, Conn>, next: ConnId): State {
    State(map[], cap, map[], 1, map[0 := p], map[], conns, next, 0, 0, map[], [])
  }

  function EmptyScene(cap: nat, p: Pool, conns: map<ConnId, Conn>, next: ConnId): Scene {
    Scene(cap, p, map[], conns, next, map[])
  }

  lemma Opens(cap: nat, p: Pool, conns: map<ConnId, Conn>, next: ConnId, race: nat)
    requires Init(Opening(cap, p, conns, next))
    ensures Stands(Opening(cap, p, conns, next), EmptyScene(cap, p, conns, next), race)
  {
    var s := Opening(cap, p, conns, next);
    Start(s, race);
    assert SpotsOf(s.relays) == map[];
    assert PastOf(s.relays) == map[];
    hide Reaches, Init;
    Shown(s, s, EmptyScene(cap, p, conns, next), race);
  }

  // ---- A pool filled from cold ----

  function ColdOpening(cap: nat, max: nat, minIdle: nat): State {
    Opening(cap, Warmed(max, minIdle, []), map[], 0)
  }

  function Lines(n: nat): map<ConnId, Conn> {
    map k | k in UpTo(n) :: FreshConn(0)
  }

  /** The first n clients, each with a connection of its own, before the check. */
  function Holders(n: nat): map<ClientId, Spot> {
    map c | c in UpTo(n) :: Spot(Admitting(SOME_FRAME), Some(c))
  }

  function Seated(cap: nat, max: nat, minIdle: nat, n: nat): Scene {
    Scene(cap, Pool(max, minIdle, [], n, false, Asleep), Holders(n), Lines(n), n, map[])
  }

  lemma {:induction false} Seats(cap: nat, max: nat, minIdle: nat, n: nat, race: nat)
    requires minIdle <= max <= USIZE_MAX && n <= max
    ensures Stands(ColdOpening(cap, max, minIdle), Seated(cap, max, minIdle, n), race)
    decreases n
  {
    hide Stands, Opening, UpTo;
    if n == 0 {
      NoSeats(cap, max, minIdle, race);
    } else {
      Seats(cap, max, minIdle, n - 1, race);
      Borrows(ColdOpening(cap, max, minIdle), Seated(cap, max, minIdle, n - 1), n - 1, race);
      assert Holders(n) == Holders(n - 1)[n - 1 := Spot(Admitting(SOME_FRAME), Some(n - 1))];
      assert Lines(n) == Lines(n - 1)[n - 1 := FreshConn(0)];
    }
  }

  lemma NoSeats(cap: nat, max: nat, minIdle: nat, race: nat)
    requires minIdle <= max <= USIZE_MAX
    ensures Stands(ColdOpening(cap, max, minIdle), Seated(cap, max, minIdle, 0), race)
  {
    Opens(cap, Warmed(max, minIdle, []), map[], 0, race);
    hide Stands, Opening, Init;
    assert Holders(0) == map[] && Lines(0) == map[];
  }
}
