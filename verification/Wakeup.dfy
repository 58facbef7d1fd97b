/** No returned connection stays unseen while one task waits for it. */
module Wakeup {
  import opened Wire
  import opened Remap
  import opened Rewrite
  import opened Pool
  import opened Proxy

  /** Between finding the idle queue of pool n empty and being woken. */
  predicate InWindow(r: Relay, n: NodeId) {
    r.node == n && (r.pc.SawEmpty? || r.pc.Waiting? || r.pc.Parked?)
  }

  ghost predicate OneWaiter(s: State, n: NodeId) {
    forall c, d :: c in s.relays && d in s.relays && InWindow(s.relays[c], n) && InWindow(s.relays[d], n) ==> c == d
  }

  /** Has pushed a connection back and is about to notify. */
  predicate Announcing(r: Relay, n: NodeId) {
    r.node == n && r.pc.Pushed?
  }

  ghost predicate SomeoneAnnounces(s: State, n: NodeId) {
    exists c :: c in s.relays && Announcing(s.relays[c], n)
  }

  /** A waiting task has nothing to miss, or a notification is on its way to it. */
  ghost predicate WillSee(s: State, r: Relay, n: NodeId)
    requires n in s.pools
  {
    s.pools[n].idle == [] || SomeoneAnnounces(s, n) || (s.pools[n].permit && !r.pc.Parked?)
  }

  ghost predicate WakeOk(s: State, n: NodeId) {
    n in s.pools && forall c :: c in s.relays && InWindow(s.relays[c], n) ==> WillSee(s, s.relays[c], n)
  }

  // ---- Steps after which nobody has more to wait for ----

  predicate Calmer(r: Relay, q: Relay, n: NodeId) {
    && (InWindow(q, n) ==> InWindow(r, n) && (q.pc.Parked? ==> r.pc.Parked?))
    && (Announcing(r, n) ==> Announcing(q, n))
  }

  ghost predicate Calm(s: State, t: State, n: NodeId) {
    && n in s.pools && n in t.pools
    && (s.pools[n].idle == [] ==> t.pools[n].idle == []) && (s.pools[n].permit ==> t.pools[n].permit)
    && (forall c :: c in s.relays ==> c in t.relays && Calmer(s.relays[c], t.relays[c], n))
    && (forall c :: c in t.relays && c !in s.relays ==> !InWindow(t.relays[c], n))
  }

  lemma CalmKeeps(s: State, t: State, n: NodeId)
    requires WakeOk(s, n) && Calm(s, t, n)
    ensures WakeOk(t, n)
  {
    hide InWindow, Announcing;
    if SomeoneAnnounces(s, n) {
      var c :| c in s.relays && Announcing(s.relays[c], n);
      assert Announcing(t.relays[c], n);
    }
  }

  lemma CalmBy(s: State, c: ClientId, t: State, n: NodeId)
    requires c in t.relays && t.relays == s.relays[c := t.relays[c]]
    requires if c in s.relays then Calmer(s.relays[c], t.relays[c], n) else !InWindow(t.relays[c], n)
    requires n in s.pools && n in t.pools
    requires (s.pools[n].idle == [] ==> t.pools[n].idle == []) && (s.pools[n].permit ==> t.pools[n].permit)
    ensures Calm(s, t, n)
  {
  }

  /** ...and nobody on the way to the queue, or to the notification after it, has turned back. */
  predicate Steadier(r: Relay, q: Relay, n: NodeId) {
    && Calmer(r, q, n)
    && (r.node == n ==>
          && q.node == n && (r.pc.Seeking? ==> q.pc.Seeking?)
          && (r.pc.Admitting? ==> q.pc.Admitting?) && (r.pc.Returning? ==> q.pc.Returning?))
  }

  ghost predicate Steady(s: State, t: State, n: NodeId) {
    && Calm(s, t, n)
    && (t.pools[n].reaper.Asleep? ==> s.pools[n].reaper.Asleep?) && t.maxInFlight == s.maxInFlight
    && forall c :: c in s.relays ==> Steadier(s.relays[c], t.relays[c], n)
  }

  lemma SteadyBy(s: State, c: ClientId, t: State, n: NodeId)
    requires c in t.relays && t.relays == s.relays[c := t.relays[c]]
    requires if c in s.relays then Steadier(s.relays[c], t.relays[c], n) else !InWindow(t.relays[c], n)
    requires n in s.pools && n in t.pools && t.maxInFlight == s.maxInFlight
    requires (s.pools[n].idle == [] ==> t.pools[n].idle == []) && (s.pools[n].permit ==> t.pools[n].permit)
    requires t.pools[n].reaper.Asleep? ==> s.pools[n].reaper.Asleep?
    ensures Steady(s, t, n)
  {
    CalmBy(s, c, t, n);
  }

  lemma CheckCalm(s: State, c: ClientId, t: State, n: NodeId)
    requires n in s.pools && DoCheck(s, c) == Some(t)
    ensures Calm(s, t, n)
  {
    hide Calm;
    CalmBy(s, c, t, n);
  }

  lemma InputSteady(s: State, c: ClientId, step: TaskStep, t: State, n: NodeId)
    requires n in s.pools && NextTask(s, c, step) == Some(t)
    requires step.Connect? || step.ReadFrame? || step.EndInput? || step.Decide? || step.TimeOut?
    ensures Steady(s, t, n)
  {
    hide ParseRequestHeader, Steady;
    SteadyBy(s, c, t, n);
  }

  lemma ReserveSteady(s: State, c: ClientId, t: State, n: NodeId)
    requires n in s.pools && DoReserve(s, c) == Some(t)
    ensures Steady(s, t, n)
  {
    hide Steady;
    SteadyBy(s, c, t, n);
  }

  lemma HandshakeSteady(s: State, c: ClientId, ok: bool, t: State, n: NodeId)
    requires n in s.pools && DoHandshake(s, c, ok) == Some(t)
    ensures Steady(s, t, n)
  {
    hide Steady;
    SteadyBy(s, c, t, n);
  }

  /** On the way into the map a client touches nothing but its own place in the program. */
  lemma InsertShape(s: State, c: ClientId, step: TaskStep, t: State)
    requires NextTask(s, c, step) == Some(t) && (step.Load? || step.Swap? || step.Put?)
    ensures c in s.relays && c in t.relays && t.relays == s.relays[c := s.relays[c].(pc := t.relays[c].pc)]
    ensures t.pools == s.pools && t.maxInFlight == s.maxInFlight
    ensures s.relays[c].pc.Checked? || s.relays[c].pc.Loaded? || s.relays[c].pc.Drew?
    ensures t.relays[c].pc.Checked? || t.relays[c].pc.Loaded? || t.relays[c].pc.Drew? || t.relays[c].pc.Listed?
  {
    hide ParseRequestHeader, Successor;
  }

  lemma InsertSteady(s: State, c: ClientId, step: TaskStep, t: State, n: NodeId)
    requires n in s.pools && NextTask(s, c, step) == Some(t)
    requires step.Load? || step.Swap? || step.Put?
    ensures Steady(s, t, n)
  {
    InsertShape(s, c, step, t);
    hide NextTask, Steady;
    SteadyBy(s, c, t, n);
  }

  lemma TallySteady(s: State, c: ClientId, step: TaskStep, t: State, n: NodeId)
    requires n in s.pools && NextTask(s, c, step) == Some(t)
    requires step.TallyMap? || step.TallyRequest? || step.CancelTallyMap? || step.CancelTallyRequest?
    ensures Steady(s, t, n)
  {
    hide Steady;
    SteadyBy(s, c, t, n);
  }

  lemma SendSteady(s: State, c: ClientId, t: State, n: NodeId)
    requires n in s.pools && DoSend(s, c) == Some(t)
    ensures Steady(s, t, n)
  {
    hide Steady, Forwarded;
    SteadyBy(s, c, t, n);
  }

  lemma CancelSteady(s: State, c: ClientId, t: State, n: NodeId)
    requires n in s.pools && DoCancelTake(s, c) == Some(t)
    ensures Steady(s, t, n)
  {
    hide Steady, Mark, Move;
    SteadyBy(s, c, t, n);
  }

  lemma ForwardSteady(s: State, c: ClientId, t: State, n: NodeId)
    requires n in s.pools && (DoForward(s, c) == Some(t) || DoCloseResponses(s, c) == Some(t))
    ensures Steady(s, t, n)
  {
    hide Steady;
    SteadyBy(s, c, t, n);
  }

  lemma DeliverSteady(s: State, k: ConnId, t: State, n: NodeId)
    requires n in s.pools && DoDeliver(s, k) == Some(t)
    ensures Steady(s, t, n)
  {
    hide RouteResponse;
  }

  lemma LinkSteady(s: State, k: ConnId, move: LinkStep, t: State, n: NodeId)
    requires n in s.pools && NextLink(s, k, move) == Some(t)
    ensures Steady(s, t, n)
  {
    hide DoDeliver, Without, OfConn, ParseResponseCid;
    if move.Deliver? {
      DeliverSteady(s, k, t, n);
    } else {
      assert t.relays == s.relays && t.pools == s.pools;
    }
  }

  // ---- Steps of acquire, release and notify_one ----

  /** A task enters the window only with the queue empty. */
  lemma TakeIdleWakes(s: State, c: ClientId, t: State, n: NodeId)
    requires WakeOk(s, n) && DoTakeIdle(s, c) == Some(t)
    ensures WakeOk(t, n)
  {
    var r := s.relays[c];
    if r.node == n && s.pools[n].idle == [] {
      assert t.pools[n].idle == [];
    } else {
      hide WakeOk;
      assert n in s.pools by {
        HasPool(s, n);
      }
      CalmBy(s, c, t, n);
      hide Calm, DoTakeIdle;
      CalmKeeps(s, t, n);
    }
  }

  lemma HasPool(s: State, n: NodeId)
    requires WakeOk(s, n)
    ensures n in s.pools
  {
    hide WillSee, InWindow;
  }

  /** A push into the queue is announced until it is notified. */
  lemma PushIdleWakes(s: State, c: ClientId, t: State, n: NodeId)
    requires WakeOk(s, n) && DoPushIdle(s, c) == Some(t)
    ensures WakeOk(t, n)
  {
    hide Returned;
    if s.relays[c].node == n {
      assert Announcing(t.relays[c], n);
      assert SomeoneAnnounces(t, n);
    } else {
      hide WakeOk;
      HasPool(s, n);
      CalmBy(s, c, t, n);
      hide Calm, DoPushIdle;
      CalmKeeps(s, t, n);
    }
  }

  /** `notify_one` reaches the one task that waits, parked or not. */
  lemma NotifiedWakes(s: State, m: NodeId, woken: Option<ClientId>, t: State, n: NodeId)
    requires n in s.pools && m in s.pools && OneWaiter(s, n) && Notified(s, m, woken) == Some(t)
    requires m != n ==> WakeOk(s, n)
    ensures WakeOk(t, n)
  {
    if m != n {
      NotifiedElsewhere(s, m, woken, t, n);
    } else {
      match woken {
        case Some(w) =>
          assert IsParked(s, w, n) && t.relays == s.relays[w := t.relays[w]] && !InWindow(t.relays[w], n);
        case None =>
          assert forall w :: w in s.relays ==> !IsParked(s, w, n);
      }
    }
  }

  lemma NotifiedElsewhere(s: State, m: NodeId, woken: Option<ClientId>, t: State, n: NodeId)
    requires WakeOk(s, n) && m in s.pools && m != n && Notified(s, m, woken) == Some(t)
    ensures WakeOk(t, n)
  {
    hide WakeOk;
    HasPool(s, n);
    assert Calm(s, t, n);
    CalmKeeps(s, t, n);
  }

  lemma NotifyWakes(s: State, c: ClientId, woken: Option<ClientId>, t: State, n: NodeId)
    requires WakeOk(s, n) && OneWaiter(s, n) && DoNotifyOne(s, c, woken) == Some(t)
    ensures WakeOk(t, n)
  {
    var next := At(s, c).next;
    var mid := Goto(s, c, if next.Some? then Seeking(next.value) else Ended);
    assert OneWaiter(mid, n);
    if s.relays[c].node != n {
      hide WakeOk;
      HasPool(s, n);
      CalmBy(s, c, mid, n);
      CalmKeeps(s, mid, n);
    }
    hide OneWaiter, WakeOk, Notified, DoNotifyOne;
    HasPool(s, n);
    assert Notified(mid, s.relays[c].node, woken) == Some(t) by {
      NotifySplits(s, c, woken, t);
    }
    NotifiedWakes(mid, s.relays[c].node, woken, t, n);
  }

  lemma NotifySplits(s: State, c: ClientId, woken: Option<ClientId>, t: State)
    requires DoNotifyOne(s, c, woken) == Some(t)
    ensures c in s.relays && s.relays[c].pc.Pushed? && s.relays[c].node in s.pools
    ensures var next := At(s, c).next;
            Notified(Goto(s, c, if next.Some? then Seeking(next.value) else Ended), s.relays[c].node, woken) == Some(t)
  {
    hide Notified;
  }

  /** Only the one waiting task can use up the permit, and it parks only without one. */
  lemma AwaitWakes(s: State, c: ClientId, t: State, n: NodeId)
    requires WakeOk(s, n) && OneWaiter(s, n) && DoAwait(s, c) == Some(t)
    ensures WakeOk(t, n)
  {
    var r := s.relays[c];
    if r.node != n {
      hide WakeOk;
      HasPool(s, n);
      CalmBy(s, c, t, n);
      CalmKeeps(s, t, n);
    } else {
      assert InWindow(r, n) && WillSee(s, r, n);
      if s.pools[n].permit {
        assert !InWindow(t.relays[c], n);
      } else if SomeoneAnnounces(s, n) {
        var d :| d in s.relays && Announcing(s.relays[d], n);
        assert Announcing(t.relays[d], n);
      }
    }
  }

  lemma ReaperWakes(s: State, m: NodeId, pass: ReaperStep, t: State, n: NodeId)
    requires WakeOk(s, n) && OneWaiter(s, n) && NextReaping(s, m, pass) == Some(t)
    ensures WakeOk(t, n)
  {
    hide WakeOk;
    HasPool(s, n);
    if pass.ReapNotify? {
      var mid := WithPool(s, m, s.pools[m].(reaper := Asleep));
      assert Calm(s, mid, n);
      CalmKeeps(s, mid, n);
      hide Notified;
      NotifiedWakes(mid, m, pass.woken, t, n);
    } else {
      assert Calm(s, t, n);
      CalmKeeps(s, t, n);
    }
  }

  lemma SteadyKeeps(s: State, t: State, n: NodeId)
    requires WakeOk(s, n) && Steady(s, t, n)
    ensures WakeOk(t, n)
  {
    hide WakeOk, Calm;
    CalmKeeps(s, t, n);
  }

  lemma TaskSteady(s: State, c: ClientId, step: TaskStep, t: State, n: NodeId)
    requires n in s.pools && NextTask(s, c, step) == Some(t)
    requires !step.PushIdle? && !step.NotifyOne? && !step.TakeIdle? && !step.Await? && !step.Check?
    ensures Steady(s, t, n)
  {
    hide Steady;
    hide DoConnect, DoReadFrame, DoEndInput, DoDecide, DoPushIdle, DoNotifyOne, DoTakeIdle, DoReserve, DoHandshake,
         DoAwait, DoTimeOut, DoCheck, DoLoad, DoSwap, DoPut, DoTallyMap, DoTallyRequest, DoSend, DoCancelTake,
         DoCancelTallyMap, DoCancelTallyRequest, DoForward, DoCloseResponses;
    match step {
      case Reserve => ReserveSteady(s, c, t, n);
      case Handshake(ok) => HandshakeSteady(s, c, ok, t, n);
      case Load => InsertSteady(s, c, step, t, n);
      case Swap => InsertSteady(s, c, step, t, n);
      case Put => InsertSteady(s, c, step, t, n);
      case Send => SendSteady(s, c, t, n);
      case CancelTake => CancelSteady(s, c, t, n);
      case TallyMap => TallySteady(s, c, step, t, n);
      case TallyRequest => TallySteady(s, c, step, t, n);
      case CancelTallyMap => TallySteady(s, c, step, t, n);
      case CancelTallyRequest => TallySteady(s, c, step, t, n);
      case Forward => ForwardSteady(s, c, t, n);
      case CloseResponses => ForwardSteady(s, c, t, n);
      case _ => InputSteady(s, c, step, t, n);
    }
  }

  lemma TaskWakes(s: State, c: ClientId, step: TaskStep, t: State, n: NodeId)
    requires WakeOk(s, n) && OneWaiter(s, n) && NextTask(s, c, step) == Some(t)
    ensures WakeOk(t, n)
  {
    HasPool(s, n);
    hide WakeOk, OneWaiter, Calm, Steady;
    hide DoConnect, DoReadFrame, DoEndInput, DoDecide, DoPushIdle, DoNotifyOne, DoTakeIdle, DoReserve, DoHandshake,
         DoAwait, DoTimeOut, DoCheck, DoLoad, DoSwap, DoPut, DoTallyMap, DoTallyRequest, DoSend, DoCancelTake,
         DoCancelTallyMap, DoCancelTallyRequest, DoForward, DoCloseResponses;
    match step {
      case PushIdle => PushIdleWakes(s, c, t, n); return;
      case NotifyOne(woken) => NotifyWakes(s, c, woken, t, n); return;
      case TakeIdle => TakeIdleWakes(s, c, t, n); return;
      case Await => AwaitWakes(s, c, t, n); return;
      case Check => CheckCalm(s, c, t, n); CalmKeeps(s, t, n); return;
      case _ => TaskSteady(s, c, step, t, n);
    }
    SteadyKeeps(s, t, n);
  }

  lemma NextWakes(s: State, a: Action, t: State, n: NodeId)
    requires WakeOk(s, n) && OneWaiter(s, n) && Next(s, a) == Some(t)
    ensures WakeOk(t, n)
  {
    HasPool(s, n);
    hide WakeOk, OneWaiter, Calm, Steady, NextTask, NextLink, NextReaping;
    match a {
      case Task(c, step) => TaskWakes(s, c, step, t, n);
      case Link(k, move) => LinkSteady(s, k, move, t, n); SteadyKeeps(s, t, n);
      case Reaping(m, pass) => ReaperWakes(s, m, pass, t, n);
    }
  }

  lemma {:induction false} RunWakes(states: seq<State>, actions: seq<Action>, n: NodeId, i: nat)
    requires IsRun(states, actions) && i < |states| && n in states[0].pools
    requires forall j :: 0 <= j < i ==> OneWaiter(states[j], n)
    ensures WakeOk(states[i], n)
    decreases i
  {
    hide OneWaiter, Next;
    if i > 0 {
      hide WakeOk, Init;
      RunWakes(states, actions, n, i - 1);
      NextWakes(states[i - 1], actions[i - 1], states[i], n);
    }
  }

  /** While at most one task at a time is between its empty-queue check and its wake-up, a
      parked task never overlooks an idle connection: the queue is empty, or a task that
      pushed to it has yet to notify. */
  lemma NoConnectionUnseen(states: seq<State>, actions: seq<Action>, n: NodeId, i: nat, c: ClientId)
    requires IsRun(states, actions) && i < |states| && n in states[0].pools
    requires forall j :: 0 <= j < i ==> OneWaiter(states[j], n)
    requires c in states[i].relays && states[i].relays[c].node == n && states[i].relays[c].pc.Parked?
    ensures n in states[i].pools
    ensures || states[i].pools[n].idle == []
            || exists d :: d in states[i].relays && states[i].relays[d].node == n && states[i].relays[d].pc.Pushed?
  {
    hide OneWaiter, IsRun;
    RunWakes(states, actions, n, i);
    var s := states[i];
    assert WillSee(s, s.relays[c], n);
    if SomeoneAnnounces(s, n) {
      var d :| d in s.relays && Announcing(s.relays[d], n);
      assert s.relays[d].node == n && s.relays[d].pc.Pushed?;
    }
  }

  // ---- Pools that never lose a wake-up ----

  /** On its way to the queue or to a notification. Where the in-flight cap lets nobody through, a task
      with a lease is on its way back to the pool. */
  predicate IsAgent(r: Relay, n: NodeId, cap: nat) {
    r.node == n && (r.pc.Seeking? || r.pc.Pushed? || (cap == 0 && (r.pc.Admitting? || r.pc.Returning?)))
  }

  ghost predicate HasAgent(s: State, n: NodeId)
    requires n in s.pools
  {
    || s.pools[n].permit || !s.pools[n].reaper.Asleep?
    || exists c :: c in s.relays && IsAgent(s.relays[c], n, s.maxInFlight)
  }

  ghost predicate SomeoneWaits(s: State, n: NodeId) {
    exists c :: c in s.relays && InWindow(s.relays[c], n)
  }

  /** While connections lie idle and somebody waits, somebody or something is on its way. */
  ghost predicate Attended(s: State, n: NodeId) {
    n in s.pools && (s.pools[n].idle != [] && SomeoneWaits(s, n) ==> HasAgent(s, n))
  }

  /** One connection at most, or none that is kept beyond the check. */
  ghost predicate Narrow(s: State, n: NodeId) {
    n in s.pools && (|s.pools[n].idle| <= 1 || s.maxInFlight == 0)
  }

  lemma SteadyAttends(s: State, t: State, n: NodeId)
    requires Attended(s, n) && Steady(s, t, n)
    ensures Attended(t, n)
  {
    if SomeoneWaits(t, n) {
      var c :| c in t.relays && InWindow(t.relays[c], n);
      assert c in s.relays && Steadier(s.relays[c], t.relays[c], n);
      assert SomeoneWaits(s, n);
    }
    if d :| d in s.relays && IsAgent(s.relays[d], n, s.maxInFlight) {
      assert Steadier(s.relays[d], t.relays[d], n);
      assert IsAgent(t.relays[d], n, t.maxInFlight);
    }
  }

  lemma AttendedElsewhere(s: State, c: ClientId, t: State, n: NodeId)
    requires Attended(s, n) && c in s.relays && c in t.relays && t.relays == s.relays[c := t.relays[c]]
    requires s.relays[c].node != n && t.relays[c].node == s.relays[c].node
    requires n in t.pools && t.pools[n] == s.pools[n] && t.maxInFlight == s.maxInFlight
    ensures Attended(t, n)
  {
    hide Attended, Steady;
    assert n in s.pools by {
      hide SomeoneWaits, HasAgent;
      AttendedPool(s, n);
    }
    SteadyBy(s, c, t, n);
    SteadyAttends(s, t, n);
  }

  lemma AttendedPool(s: State, n: NodeId)
    requires Attended(s, n)
    ensures n in s.pools
  {
    hide SomeoneWaits, HasAgent;
  }

  lemma TakeIdleAttends(s: State, c: ClientId, t: State, n: NodeId)
    requires Attended(s, n) && Narrow(s, n) && DoTakeIdle(s, c) == Some(t)
    ensures Attended(t, n)
  {
    if s.relays[c].node != n {
      hide Attended;
      AttendedElsewhere(s, c, t, n);
    } else if t.pools[n].idle != [] {
      assert IsAgent(t.relays[c], n, t.maxInFlight);
    }
  }

  lemma PushIdleAttends(s: State, c: ClientId, t: State, n: NodeId)
    requires Attended(s, n) && DoPushIdle(s, c) == Some(t)
    ensures Attended(t, n)
  {
    hide Returned;
    if s.relays[c].node != n {
      hide Attended;
      AttendedElsewhere(s, c, t, n);
    } else {
      assert IsAgent(t.relays[c], n, t.maxInFlight);
    }
  }

  lemma CheckAttends(s: State, c: ClientId, t: State, n: NodeId)
    requires Attended(s, n) && DoCheck(s, c) == Some(t)
    ensures Attended(t, n)
  {
    if SomeoneWaits(t, n) {
      var d :| d in t.relays && InWindow(t.relays[d], n);
      assert d in s.relays && InWindow(s.relays[d], n);
      assert SomeoneWaits(s, n);
    }
    if d :| d in s.relays && IsAgent(s.relays[d], n, s.maxInFlight) {
      assert IsAgent(t.relays[d], n, t.maxInFlight);
    }
  }

  lemma AwaitAttends(s: State, c: ClientId, t: State, n: NodeId)
    requires Attended(s, n) && DoAwait(s, c) == Some(t)
    ensures Attended(t, n)
  {
    if s.relays[c].node != n {
      hide Attended;
      AttendedElsewhere(s, c, t, n);
    } else if s.pools[n].permit {
      assert IsAgent(t.relays[c], n, t.maxInFlight);
    } else {
      assert InWindow(s.relays[c], n) && SomeoneWaits(s, n);
      if d :| d in s.relays && IsAgent(s.relays[d], n, s.maxInFlight) {
        assert IsAgent(t.relays[d], n, t.maxInFlight);
      }
    }
  }

  /** A notification leaves a permit or a task on its way to the queue. */
  lemma NotifiedAttends(s: State, m: NodeId, woken: Option<ClientId>, t: State, n: NodeId)
    requires m in s.pools && n in s.pools && Notified(s, m, woken) == Some(t) && (m != n ==> Attended(s, n))
    ensures Attended(t, n)
  {
    match woken {
      case Some(w) =>
        if m == n {
          assert IsAgent(t.relays[w], n, t.maxInFlight);
        } else {
          hide Attended;
          AttendedElsewhere(s, w, t, n);
        }
      case None =>
        if m != n {
          SameAttends(s, t, n);
        }
    }
  }

  lemma SameAttends(s: State, t: State, n: NodeId)
    requires Attended(s, n) && t.relays == s.relays && n in t.pools && t.maxInFlight == s.maxInFlight
    requires s.pools[n].idle == [] ==> t.pools[n].idle == []
    requires (s.pools[n].permit ==> t.pools[n].permit) && (t.pools[n].reaper.Asleep? ==> s.pools[n].reaper.Asleep?)
    ensures Attended(t, n)
  {
    assert SomeoneWaits(t, n) ==> SomeoneWaits(s, n);
  }

  lemma NotifyAttends(s: State, c: ClientId, woken: Option<ClientId>, t: State, n: NodeId)
    requires Attended(s, n) && DoNotifyOne(s, c, woken) == Some(t)
    ensures Attended(t, n)
  {
    var next := At(s, c).next;
    var mid := Goto(s, c, if next.Some? then Seeking(next.value) else Ended);
    NotifySplits(s, c, woken, t);
    hide DoNotifyOne, Notified, Attended;
    AttendedPool(s, n);
    if s.relays[c].node != n {
      AttendedElsewhere(s, c, mid, n);
    }
    NotifiedAttends(mid, s.relays[c].node, woken, t, n);
  }

  lemma ReaperAttends(s: State, m: NodeId, pass: ReaperStep, t: State, n: NodeId)
    requires Attended(s, n) && NextReaping(s, m, pass) == Some(t)
    ensures Attended(t, n)
  {
    hide Attended;
    AttendedPool(s, n);
    if pass.ReapNotify? {
      var mid := WithPool(s, m, s.pools[m].(reaper := Asleep));
      if m != n {
        SameAttends(s, mid, n);
      }
      hide Notified;
      NotifiedAttends(mid, m, pass.woken, t, n);
    } else {
      SameAttends(s, t, n);
    }
  }

  lemma TaskAttends(s: State, c: ClientId, step: TaskStep, t: State, n: NodeId)
    requires Attended(s, n) && Narrow(s, n) && NextTask(s, c, step) == Some(t)
    ensures Attended(t, n)
  {
    AttendedPool(s, n);
    hide Attended, Narrow, Steady;
    hide DoConnect, DoReadFrame, DoEndInput, DoDecide, DoPushIdle, DoNotifyOne, DoTakeIdle, DoReserve, DoHandshake,
         DoAwait, DoTimeOut, DoCheck, DoLoad, DoSwap, DoPut, DoTallyMap, DoTallyRequest, DoSend, DoCancelTake,
         DoCancelTallyMap, DoCancelTallyRequest, DoForward, DoCloseResponses;
    match step {
      case PushIdle => PushIdleAttends(s, c, t, n); return;
      case NotifyOne(woken) => NotifyAttends(s, c, woken, t, n); return;
      case TakeIdle => TakeIdleAttends(s, c, t, n); return;
      case Await => AwaitAttends(s, c, t, n); return;
      case Check => CheckAttends(s, c, t, n); return;
      case _ => TaskSteady(s, c, step, t, n);
    }
    SteadyAttends(s, t, n);
  }

  lemma NextAttends(s: State, a: Action, t: State, n: NodeId)
    requires Attended(s, n) && Narrow(s, n) && Next(s, a) == Some(t)
    ensures Attended(t, n)
  {
    AttendedPool(s, n);
    hide Attended, Narrow, Steady, NextTask, NextLink, NextReaping;
    match a {
      case Task(c, step) => TaskAttends(s, c, step, t, n);
      case Link(k, move) => LinkSteady(s, k, move, t, n); SteadyAttends(s, t, n);
      case Reaping(m, pass) => ReaperAttends(s, m, pass, t, n);
    }
  }
}
