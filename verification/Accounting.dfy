/** Conservation of pooled connections: the idle, the held, the ones being made and the ones the
    reaper has yet to count, against `count`. */
module Accounting {
  import opened Wire
  import opened Remap
  import opened Rewrite
  import opened Pool
  import opened Proxy
  import opened Profile
  import opened Leases

  function UsesOf(relays: map<nat, Relay>, n: NodeId): map<nat, int> {
    map c | c in relays :: Uses(relays[c], n)
  }

  /** Connections of broker n that are idle, held by relays, being made, or removed and uncounted. */
  ghost function Live(s: State, n: NodeId): int
    requires n in s.pools
  {
    |s.pools[n].idle| + Total(UsesOf(s.relays, n)) + Pending(s.pools[n])
  }

  function DropsOf(relays: map<nat, Relay>, n: NodeId): map<nat, int> {
    map c | c in relays :: Drops(relays[c], n)
  }

  /** Leases of broker n this relay dropped after a failed send; nobody ever counts them out. */
  function Drops(r: Relay, n: NodeId): int {
    if r.node == n then r.dropped else 0
  }

  ghost function Dropped(s: State, n: NodeId): int {
    Total(DropsOf(s.relays, n))
  }

  /** How far the live and the dropped connections exceed the count. */
  ghost function Excess(s: State, n: NodeId): int
    requires n in s.pools
  {
    Live(s, n) + Dropped(s, n) - s.pools[n].count
  }

  /** Warm-up puts up to `minIdle` connections in the queue without counting them. */
  ghost predicate NodeOk(s: State, n: NodeId) {
    n in s.pools ==>
      && Live(s, n) <= s.pools[n].count + s.pools[n].minIdle
      && s.pools[n].count <= s.pools[n].maxPerBroker
      && |s.pools[n].idle| <= s.pools[n].maxPerBroker
  }

  /** A failing handshake gives back a reservation the reaper has not eaten. */
  predicate CountsDown(s: State, c: nat, ok: bool, n: NodeId) {
    !ok && c in s.relays && s.relays[c].node == n && n in s.pools && s.relays[c].pc.Connecting? ==> s.pools[n].count > 0
  }

  /** No failing handshake at broker n finds the count at zero. */
  ghost predicate CountsDownAction(s: State, a: Action, n: NodeId) {
    a.Task? && a.step.Handshake? ==> CountsDown(s, a.c, a.step.ok, n)
  }

  // ---- The three ways in which the count loses track ----

  /** A return finds the queue full, a failing handshake the count at zero, or the reaper less to count
      out than it removed: by so much the count stays above what it would have been. */
  function Slip(s: State, a: Action, n: NodeId): nat {
    if n !in s.pools then 0
    else
      var p := s.pools[n];
      match a
      case Task(c, PushIdle) => if c in s.relays && s.relays[c].node == n && |p.idle| >= p.maxPerBroker then 1 else 0
      case Task(c, Handshake(false)) => if c in s.relays && s.relays[c].node == n && p.count == 0 then USIZE_MAX + 1 else 0
      case Reaping(m, ReapCount) => if m == n && Pending(p) > p.count then Pending(p) - p.count else 0
      case _ => 0
  }

  /** The step keeps the pool's limits and moves the excess by exactly its slip. */
  ghost predicate Balances(s: State, a: Action, t: State, n: NodeId) {
    && t.pools.Keys == s.pools.Keys
    && (n in s.pools ==>
          && t.pools[n].minIdle == s.pools[n].minIdle && t.pools[n].maxPerBroker == s.pools[n].maxPerBroker
          && Excess(t, n) == Excess(s, n) - Slip(s, a, n)
          && (CountsDownAction(s, a, n) && s.pools[n].count <= s.pools[n].maxPerBroker ==>
                t.pools[n].count <= t.pools[n].maxPerBroker))
  }

  lemma Empty(n: NodeId)
    ensures Total(UsesOf(map[], n)) == 0 && Total(DropsOf(map[], n)) == 0
  {
    assert UsesOf(map[], n) == map[] && DropsOf(map[], n) == map[];
  }

  lemma UsesChange(relays: map<nat, Relay>, c: nat, r: Relay, n: NodeId)
    ensures Total(UsesOf(relays[c := r], n))
         == Total(UsesOf(relays, n)) - (if c in relays then Uses(relays[c], n) else 0) + Uses(r, n)
    ensures Total(DropsOf(relays[c := r], n))
         == Total(DropsOf(relays, n)) - (if c in relays then Drops(relays[c], n) else 0) + Drops(r, n)
  {
    assert UsesOf(relays[c := r], n) == UsesOf(relays, n)[c := Uses(r, n)];
    assert DropsOf(relays[c := r], n) == DropsOf(relays, n)[c := Drops(r, n)];
    TotalUpdate(UsesOf(relays, n), c, Uses(r, n));
    TotalUpdate(DropsOf(relays, n), c, Drops(r, n));
  }

  lemma SameUses(s: State, t: State, n: NodeId)
    requires SameRelays(s, t)
    ensures Total(UsesOf(t.relays, n)) == Total(UsesOf(s.relays, n)) && Dropped(t, n) == Dropped(s, n)
  {
    forall c | c in s.relays ensures Uses(t.relays[c], n) == Uses(s.relays[c], n) && Drops(t.relays[c], n) == Drops(s.relays[c], n) {
      assert SameProfile(s.relays[c], t.relays[c]);
    }
    assert UsesOf(t.relays, n) == UsesOf(s.relays, n) && DropsOf(t.relays, n) == DropsOf(s.relays, n);
  }

  lemma QuietBalance(s: State, a: Action, t: State, n: NodeId)
    requires Quiet(s, t) && Slip(s, a, n) == 0
    ensures Balances(s, a, t, n)
  {
    SameUses(s, t, n);
    hide SameRelays, SameConns, CountsDownAction, Slip;
    if n in t.pools {
      assert SamePoolProfile(s.pools[n], t.pools[n]);
    }
  }

  /** What one pool and one relay weigh beyond the count. */
  function Weight(p: Pool, debit: int): int {
    |p.idle| + Pending(p) + debit - p.count
  }

  function Debit(r: Relay, n: NodeId): int {
    Uses(r, n) + Drops(r, n)
  }

  predicate SameLimits(p: Pool, q: Pool) {
    q.maxPerBroker == p.maxPerBroker && q.minIdle == p.minIdle
  }

  /** A step of one relay moves the excess by as much as it moves the weight. */
  lemma RelayBalance(s: State, a: Action, t: State, c: nat, n: NodeId)
    requires c in t.relays && t.relays == s.relays[c := t.relays[c]] && t.pools.Keys == s.pools.Keys
    requires n in s.pools ==>
               && SameLimits(s.pools[n], t.pools[n])
               && Weight(t.pools[n], Debit(t.relays[c], n))
                  == Weight(s.pools[n], if c in s.relays then Debit(s.relays[c], n) else 0) - Slip(s, a, n)
               && (CountsDownAction(s, a, n) && s.pools[n].count <= s.pools[n].maxPerBroker ==>
                     t.pools[n].count <= t.pools[n].maxPerBroker)
    ensures Balances(s, a, t, n)
  {
    UsesChange(s.relays, c, t.relays[c], n);
    hide Uses, Drops, Pending, Slip, CountsDownAction;
  }

  /** A step of one relay that leaves the pools and the relay's debit alone. */
  lemma IdleBalance(s: State, a: Action, t: State, c: nat, n: NodeId)
    requires c in t.relays && t.relays == s.relays[c := t.relays[c]] && t.pools == s.pools && Slip(s, a, n) == 0
    requires Debit(t.relays[c], n) == if c in s.relays then Debit(s.relays[c], n) else 0
    ensures Balances(s, a, t, n)
  {
    hide Debit, Slip, Balances, CountsDownAction;
    RelayBalance(s, a, t, c, n);
  }

  lemma ConnectBalance(s: State, c: nat, node: NodeId, t: State, n: NodeId)
    requires DoConnect(s, c, node) == Some(t)
    ensures Balances(s, Task(c, Connect(node)), t, n)
  {
    hide Balances;
    IdleBalance(s, Task(c, Connect(node)), t, c, n);
  }

  lemma PushShape(s: State, c: nat, t: State)
    requires DoPushIdle(s, c) == Some(t)
    ensures c in s.relays && c in t.relays && s.relays[c].pc.Returning? && s.relays[c].node in s.pools
    ensures t.relays == s.relays[c := t.relays[c]] && t.relays[c].pc.Pushed?
    ensures t.relays[c].node == s.relays[c].node && t.relays[c].lease == s.relays[c].lease && t.relays[c].dropped == s.relays[c].dropped
    ensures t.pools == s.pools[s.relays[c].node := Returned(s.pools[s.relays[c].node], s.relays[c].pc.conn)]
  {
    hide Returned;
  }

  lemma PushIdleBalance(s: State, c: nat, t: State, n: NodeId)
    requires LeasesOk(s) && DoPushIdle(s, c) == Some(t)
    ensures Balances(s, Task(c, PushIdle), t, n)
  {
    assert RelayLeaseOk(s, s.relays[c]);
    PushShape(s, c, t);
    hide Balances, LeasesOk, DoPushIdle, RelayLeaseOk;
    assert s.relays[c].lease.None?;
    RelayBalance(s, Task(c, PushIdle), t, c, n);
  }

  lemma TakeShape(s: State, c: nat, t: State)
    requires DoTakeIdle(s, c) == Some(t)
    ensures c in s.relays && c in t.relays && s.relays[c].pc.Seeking? && s.relays[c].node in s.pools
    ensures t.relays == s.relays[c := t.relays[c]]
    ensures t.relays[c].node == s.relays[c].node && t.relays[c].dropped == s.relays[c].dropped
    ensures var m := s.relays[c].node;
            var p := s.pools[m];
            if p.idle == [] then t.pools == s.pools && t.relays[c].pc.SawEmpty? && t.relays[c].lease == s.relays[c].lease
            else t.pools == s.pools[m := p.(idle := p.idle[1..])] && t.relays[c].pc.Admitting? && t.relays[c].lease.Some?
  {
  }

  lemma TakeIdleBalance(s: State, c: nat, t: State, n: NodeId)
    requires LeasesOk(s) && DoTakeIdle(s, c) == Some(t)
    ensures Balances(s, Task(c, TakeIdle), t, n)
  {
    assert RelayLeaseOk(s, s.relays[c]);
    TakeShape(s, c, t);
    hide LeasesOk, Balances, RelayLeaseOk, DoTakeIdle;
    assert s.relays[c].lease.None?;
    if s.pools[s.relays[c].node].idle == [] {
      IdleBalance(s, Task(c, TakeIdle), t, c, n);
    } else {
      RelayBalance(s, Task(c, TakeIdle), t, c, n);
    }
  }

  lemma ReserveBalance(s: State, c: nat, t: State, n: NodeId)
    requires LeasesOk(s) && DoReserve(s, c) == Some(t)
    ensures Balances(s, Task(c, Reserve), t, n)
  {
    assert RelayLeaseOk(s, s.relays[c]);
    ReserveShape(s, c, t);
    hide LeasesOk, Balances, RelayLeaseOk, DoReserve;
    var m := s.relays[c].node;
    var room := s.pools[m].count < s.pools[m].maxPerBroker;
    assert s.relays[c].lease.None?;
    assert Debit(t.relays[c], n) == Debit(s.relays[c], n) + if m == n && room then 1 else 0;
    hide Debit;
    RelayBalance(s, Task(c, Reserve), t, c, n);
  }

  lemma ReserveShape(s: State, c: nat, t: State)
    requires DoReserve(s, c) == Some(t)
    ensures c in s.relays && s.relays[c].node in s.pools && s.relays[c].pc.SawEmpty? && c in t.relays
    ensures t.relays == s.relays[c := s.relays[c].(pc := t.relays[c].pc)]
    ensures var m := s.relays[c].node;
            var p := s.pools[m];
            && t.relays[c].pc.Connecting? == (p.count < p.maxPerBroker) && !t.relays[c].pc.Returning?
            && t.pools == if p.count < p.maxPerBroker then s.pools[m := p.(count := p.count + 1)] else s.pools
  {
  }

  lemma HandshakeShape(s: State, c: nat, ok: bool, t: State)
    requires DoHandshake(s, c, ok) == Some(t)
    ensures c in s.relays && c in t.relays && s.relays[c].pc.Connecting? && s.relays[c].node in s.pools
    ensures t.relays == s.relays[c := t.relays[c]]
    ensures t.relays[c].node == s.relays[c].node && t.relays[c].dropped == s.relays[c].dropped
    ensures var m := s.relays[c].node;
            if ok then t.pools == s.pools && t.relays[c].pc.Admitting? && t.relays[c].lease.Some?
            else t.pools == s.pools[m := Unreserved(s.pools[m])] && t.relays[c].pc.Ended? && t.relays[c].lease == s.relays[c].lease
  {
    hide Unreserved;
  }

  lemma ConnectsUnleased(s: State, c: nat)
    requires LeasesOk(s) && c in s.relays && s.relays[c].pc.Connecting?
    ensures s.relays[c].lease.None?
  {
    hide Exclusive, IdleOk;
    assert RelayLeaseOk(s, s.relays[c]);
  }

  lemma HandshakeOkBalance(s: State, c: nat, t: State, n: NodeId)
    requires LeasesOk(s) && DoHandshake(s, c, true) == Some(t)
    ensures Balances(s, Task(c, Handshake(true)), t, n)
  {
    HandshakeShape(s, c, true, t);
    ConnectsUnleased(s, c);
    hide Balances, DoHandshake, LeasesOk;
    IdleBalance(s, Task(c, Handshake(true)), t, c, n);
  }

  lemma HandshakeFailsBalance(s: State, c: nat, t: State, n: NodeId)
    requires LeasesOk(s) && DoHandshake(s, c, false) == Some(t)
    ensures Balances(s, Task(c, Handshake(false)), t, n)
  {
    HandshakeShape(s, c, false, t);
    ConnectsUnleased(s, c);
    hide Balances, DoHandshake, LeasesOk;
    RelayBalance(s, Task(c, Handshake(false)), t, c, n);
  }

  lemma HandshakeBalance(s: State, c: nat, ok: bool, t: State, n: NodeId)
    requires LeasesOk(s) && DoHandshake(s, c, ok) == Some(t)
    ensures Balances(s, Task(c, Handshake(ok)), t, n)
  {
    hide Balances, DoHandshake, LeasesOk;
    if ok {
      HandshakeOkBalance(s, c, t, n);
    } else {
      HandshakeFailsBalance(s, c, t, n);
    }
  }

  lemma CheckBalance(s: State, c: nat, t: State, n: NodeId)
    requires DoCheck(s, c) == Some(t)
    ensures Balances(s, Task(c, Check), t, n)
  {
    hide Balances;
    IdleBalance(s, Task(c, Check), t, c, n);
  }

  lemma PutBalance(s: State, c: nat, t: State, n: NodeId)
    requires DoPut(s, c) == Some(t)
    ensures Balances(s, Task(c, Put), t, n)
  {
    hide Balances, ParseRequestHeader;
    IdleBalance(s, Task(c, Put), t, c, n);
  }

  lemma TallyBalance(s: State, c: nat, step: TaskStep, t: State, n: NodeId)
    requires NextTask(s, c, step) == Some(t) && (step.TallyMap? || step.TallyRequest?)
    ensures Balances(s, Task(c, step), t, n)
  {
    hide Balances;
    IdleBalance(s, Task(c, step), t, c, n);
  }

  lemma SendShape(s: State, c: nat, t: State)
    requires DoSend(s, c) == Some(t)
    ensures c in s.relays && c in t.relays && t.relays == s.relays[c := t.relays[c]] && t.pools == s.pools
    ensures s.relays[c].pc.Sending? && s.relays[c].lease.Some? && t.relays[c].node == s.relays[c].node
    ensures || (t.relays[c].pc.Reading? && t.relays[c].lease == s.relays[c].lease && t.relays[c].dropped == s.relays[c].dropped)
            || (t.relays[c].pc.Cancelling? && t.relays[c].lease.None? && t.relays[c].dropped == s.relays[c].dropped + 1)
  {
    hide Forwarded, Move;
  }

  /** A dropped lease stays counted. */
  lemma SendBalance(s: State, c: nat, t: State, n: NodeId)
    requires DoSend(s, c) == Some(t)
    ensures Balances(s, Task(c, TaskStep.Send), t, n)
  {
    SendShape(s, c, t);
    hide Balances, DoSend;
    IdleBalance(s, Task(c, TaskStep.Send), t, c, n);
  }

  lemma CancelBalance(s: State, c: nat, t: State, n: NodeId)
    requires DoCancelTake(s, c) == Some(t)
    ensures Balances(s, Task(c, CancelTake), t, n)
  {
    hide Balances, Mark, Move, OwnerOf;
    assert t.pools == s.pools && Debit(t.relays[c], n) == Debit(s.relays[c], n);
    IdleBalance(s, Task(c, CancelTake), t, c, n);
  }

  lemma CancelTallyBalance(s: State, c: nat, step: TaskStep, t: State, n: NodeId)
    requires NextTask(s, c, step) == Some(t) && (step.CancelTallyMap? || step.CancelTallyRequest?)
    ensures Balances(s, Task(c, step), t, n)
  {
    hide Balances;
    IdleBalance(s, Task(c, step), t, c, n);
  }

  lemma LinkBalance(s: State, k: nat, move: LinkStep, t: State, n: NodeId)
    requires NextLink(s, k, move) == Some(t) && !QuietMove(move)
    ensures Balances(s, Link(k, move), t, n)
  {
    hide ParseResponseCid, Without, OfConn, MarkSwept, Uses, Drops, OwnerOf;
    hide DoWrite, DoBreak, DoClose, DoReceive, DoAnswer, DoIgnore, DoDeliver;
    assert t.relays == s.relays && t.pools == s.pools;
  }

  lemma ReapBalance(s: State, m: NodeId, pass: ReaperStep, t: State, n: NodeId)
    requires NextReaping(s, m, pass) == Some(t) && !pass.ReapNotify?
    ensures Balances(s, Reaping(m, pass), t, n)
  {
    hide Uses, Drops;
    assert t.relays == s.relays;
  }

  lemma TaskBalance(s: State, c: nat, step: TaskStep, t: State, n: NodeId)
    requires LeasesOk(s) && NextTask(s, c, step) == Some(t)
    ensures Balances(s, Task(c, step), t, n)
  {
    hide Balances, LeasesOk, Quiet, CountsDown;
    if QuietStep(step) {
      hide NextTask;
      QuietTask(s, c, step, t);
      QuietBalance(s, Task(c, step), t, n);
      return;
    }
    hide DoConnect, DoReadFrame, DoEndInput, DoDecide, DoPushIdle, DoNotifyOne, DoTakeIdle, DoReserve, DoHandshake,
         DoAwait, DoTimeOut, DoCheck, DoLoad, DoSwap, DoPut, DoTallyMap, DoTallyRequest, DoSend, DoCancelTake,
         DoCancelTallyMap, DoCancelTallyRequest, DoForward, DoCloseResponses;
    match step {
      case Connect(node) => ConnectBalance(s, c, node, t, n);
      case PushIdle => PushIdleBalance(s, c, t, n);
      case TakeIdle => TakeIdleBalance(s, c, t, n);
      case Reserve => ReserveBalance(s, c, t, n);
      case Handshake(ok) => HandshakeBalance(s, c, ok, t, n);
      case Check => CheckBalance(s, c, t, n);
      case Put => PutBalance(s, c, t, n);
      case TallyMap => TallyBalance(s, c, step, t, n);
      case TallyRequest => TallyBalance(s, c, step, t, n);
      case Send => SendBalance(s, c, t, n);
      case CancelTake => CancelBalance(s, c, t, n);
      case CancelTallyMap => CancelTallyBalance(s, c, step, t, n);
      case CancelTallyRequest => CancelTallyBalance(s, c, step, t, n);
    }
  }

  lemma NextBalance(s: State, a: Action, t: State, n: NodeId)
    requires LeasesOk(s) && Next(s, a) == Some(t)
    ensures Balances(s, a, t, n)
  {
    hide Balances, LeasesOk, Quiet, NextTask, NextLink, DoReap, DoReapCount, DoReapNotify;
    match a {
      case Task(c, step) => TaskBalance(s, c, step, t, n);
      case Link(k, move) =>
        if QuietMove(move) {
          QuietLink(s, k, move, t);
          QuietBalance(s, a, t, n);
        } else {
          LinkBalance(s, k, move, t, n);
        }
      case Reaping(m, pass) =>
        if pass.ReapNotify? {
          QuietReapNotify(s, m, pass.woken, t);
          QuietBalance(s, a, t, n);
        } else {
          ReapBalance(s, m, pass, t, n);
        }
    }
  }

  // ---- Over whole runs ----

  /** What the count of broker n has lost track of in the first i steps. */
  ghost function Slipped(states: seq<State>, actions: seq<Action>, n: NodeId, i: nat): nat
    requires i <= |actions| && i <= |states|
  {
    if i == 0 then 0 else Slipped(states, actions, n, i - 1) + Slip(states[i - 1], actions[i - 1], n)
  }

  /** In every run, exactly: idle, held, being made, removed and not yet counted out, and dropped after a
      failed send make up the count, the warm connections nobody counted, and minus what slipped. */
  lemma {:induction false} CountIsExact(states: seq<State>, actions: seq<Action>, n: NodeId, i: nat)
    requires IsRun(states, actions) && n in states[0].pools && i < |states|
    ensures n in states[i].pools
    ensures Live(states[i], n) + Dropped(states[i], n)
         == states[i].pools[n].count + |states[0].pools[n].idle| - Slipped(states, actions, n, i)
    ensures states[i].pools[n].minIdle == states[0].pools[n].minIdle
    ensures states[i].pools[n].maxPerBroker == states[0].pools[n].maxPerBroker
    decreases i
  {
    hide Next, LeasesOk, Slip;
    if i == 0 {
      Empty(n);
    } else {
      hide Init, Live, Dropped, CountsDownAction;
      CountIsExact(states, actions, n, i - 1);
      RunLeases(states, actions, i - 1);
      NextBalance(states[i - 1], actions[i - 1], states[i], n);
    }
  }

  lemma DroppedNonNegative(s: State, n: NodeId)
    ensures Dropped(s, n) >= 0
  {
    TotalNonNegative(DropsOf(s.relays, n));
  }

  ghost predicate CountsDownRun(states: seq<State>, actions: seq<Action>, n: NodeId) {
    IsRun(states, actions) && forall i :: 0 <= i < |actions| ==> CountsDownAction(states[i], actions[i], n)
  }

  lemma {:induction false} CountWithinLimit(states: seq<State>, actions: seq<Action>, n: NodeId, i: nat)
    requires CountsDownRun(states, actions, n) && i < |states| && n in states[0].pools
    ensures n in states[i].pools && states[i].pools[n].count <= states[i].pools[n].maxPerBroker
    decreases i
  {
    hide Next, LeasesOk, CountsDownAction;
    if i > 0 {
      hide Init, Excess, Slip;
      CountWithinLimit(states, actions, n, i - 1);
      RunLeases(states, actions, i - 1);
      NextBalance(states[i - 1], actions[i - 1], states[i], n);
    }
  }

  /** With warm connections: the live ones never exceed `count` by more than `minIdle`, as long as
      no handshake of this broker fails while its count is zero. */
  lemma WarmConservation(states: seq<State>, actions: seq<Action>, n: NodeId, i: nat)
    requires CountsDownRun(states, actions, n) && i < |states|
    ensures NodeOk(states[i], n)
  {
    hide Next, CountsDownAction;
    PoolsStay(states, actions, i);
    if n in states[0].pools {
      CountIsExact(states, actions, n, i);
      DroppedNonNegative(states[i], n);
      CountWithinLimit(states, actions, n, i);
      QueueWithinLimit(states, actions, i, n);
      hide Live, Dropped, Slipped;
    }
  }

  lemma {:induction false} PoolsStay(states: seq<State>, actions: seq<Action>, i: nat)
    requires IsRun(states, actions) && i < |states|
    ensures states[i].pools.Keys == states[0].pools.Keys
    decreases i
  {
    hide Next, Init;
    if i > 0 {
      PoolsStay(states, actions, i - 1);
      NextQueue(states[i - 1], actions[i - 1], states[i]);
    }
  }

  /** A reservation in progress is a live connection. */
  lemma ConnectingCounts(s: State, c: nat, n: NodeId)
    requires NodeOk(s, n) && n in s.pools && s.pools[n].minIdle == 0
    requires c in s.relays && Uses(s.relays[c], n) == 1
    ensures s.pools[n].count >= 1 && |s.pools[n].idle| < s.pools[n].maxPerBroker
  {
    TotalAtLeast(UsesOf(s.relays, n), c);
  }

  lemma ColdCountsDown(s: State, c: nat, n: NodeId)
    requires n in s.pools && s.pools[n].minIdle == 0 && NodeOk(s, n)
    ensures forall ok :: CountsDown(s, c, ok, n)
  {
    hide NodeOk;
    if c in s.relays && s.relays[c].node == n && s.relays[c].pc.Connecting? {
      ConnectingCounts(s, c, n);
    }
  }

  /** A cold pool in order does not lose track. */
  lemma ColdNeverSlips(s: State, a: Action, t: State, n: NodeId)
    requires n in s.pools && s.pools[n].minIdle == 0 && NodeOk(s, n) && Next(s, a) == Some(t)
    ensures Slip(s, a, n) == 0
  {
    TotalNonNegative(UsesOf(s.relays, n));
    match a {
      case Task(c, PushIdle) =>
        hide NodeOk, Returned;
        if s.relays[c].node == n {
          ConnectingCounts(s, c, n);
        }
      case Task(c, Handshake(false)) =>
        hide NodeOk;
        if s.relays[c].node == n {
          ConnectingCounts(s, c, n);
        }
      case _ => hide Next;
    }
  }

  /** Without warm-up no run ever takes the count below zero, or loses track of it at all. */
  lemma {:induction false} ColdRunsCountDown(states: seq<State>, actions: seq<Action>, n: NodeId, i: nat)
    requires IsRun(states, actions) && n in states[0].pools && states[0].pools[n].minIdle == 0 && i < |states|
    ensures n in states[i].pools && states[i].pools[n].minIdle == 0 && NodeOk(states[i], n)
    ensures Slipped(states, actions, n, i) == 0
    ensures i < |actions| ==> CountsDownAction(states[i], actions[i], n) && Slip(states[i], actions[i], n) == 0
    decreases i
  {
    hide Next, LeasesOk, CountsDown, Slip;
    CountIsExact(states, actions, n, i);
    DroppedNonNegative(states[i], n);
    QueueWithinLimit(states, actions, i, n);
    if i > 0 {
      hide Init;
      ColdRunsCountDown(states, actions, n, i - 1);
      RunLeases(states, actions, i - 1);
      NextBalance(states[i - 1], actions[i - 1], states[i], n);
      hide Live, Dropped;
    }
    assert NodeOk(states[i], n);
    hide NodeOk, Balances, Live, Dropped;
    if i < |actions| {
      ColdNeverSlips(states[i], actions[i], states[i + 1], n);
      if actions[i].Task? {
        ColdCountsDown(states[i], actions[i].c, n);
      }
    }
  }

  /** Without warm-up the count is exactly the connections that are idle, held, being made or removed and
      not yet counted out, plus those dropped after a failed send. It stays within the limit; the
      reaper's subtraction never saturates, giving a reservation back never underflows, and a
      returned connection always finds room. */
  lemma PoolConservation(states: seq<State>, actions: seq<Action>, n: NodeId, i: nat)
    requires IsRun(states, actions) && n in states[0].pools && states[0].pools[n].minIdle == 0 && i < |states|
    ensures n in states[i].pools
    ensures var s := states[i];
            var p := s.pools[n];
            && p.count == Live(s, n) + Total(DropsOf(s.relays, n))
            && Live(s, n) <= p.count <= p.maxPerBroker && |p.idle| <= p.maxPerBroker
            && (p.reaper.Removed? ==> p.reaper.n <= p.count)
            && (forall c :: c in s.relays && s.relays[c].node == n && s.relays[c].pc.Connecting? ==> p.count > 0)
            && (forall c :: c in s.relays && s.relays[c].node == n && s.relays[c].pc.Returning? ==> |p.idle| < p.maxPerBroker)
  {
    ColdRunsCountDown(states, actions, n, i);
    CountIsExact(states, actions, n, i);
    var s := states[i];
    TotalNonNegative(UsesOf(s.relays, n));
    hide Slipped, Next;
    forall c | c in s.relays && s.relays[c].node == n && (s.relays[c].pc.Connecting? || s.relays[c].pc.Returning?)
      ensures s.pools[n].count > 0 && |s.pools[n].idle| < s.pools[n].maxPerBroker
    {
      ConnectingCounts(s, c, n);
    }
  }

  // ---- The queue alone, with no condition on the run ----

  ghost predicate QueueStep(s: State, t: State) {
    && t.pools.Keys == s.pools.Keys
    && forall n :: n in s.pools ==>
         && t.pools[n].maxPerBroker == s.pools[n].maxPerBroker
         && (|t.pools[n].idle| <= |s.pools[n].idle| || |t.pools[n].idle| <= s.pools[n].maxPerBroker)
  }

  lemma SamePoolsQueue(s: State, t: State)
    requires SamePools(s, t)
    ensures QueueStep(s, t)
  {
    forall n | n in s.pools
      ensures t.pools[n].idle == s.pools[n].idle && t.pools[n].maxPerBroker == s.pools[n].maxPerBroker
    {
      assert SamePoolProfile(s.pools[n], t.pools[n]);
    }
  }

  lemma PushIdleQueue(s: State, c: nat, t: State)
    requires DoPushIdle(s, c) == Some(t)
    ensures QueueStep(s, t)
  {
  }

  lemma TakeIdleQueue(s: State, c: nat, t: State)
    requires DoTakeIdle(s, c) == Some(t)
    ensures QueueStep(s, t)
  {
  }

  lemma ReserveQueue(s: State, c: nat, t: State)
    requires DoReserve(s, c) == Some(t)
    ensures QueueStep(s, t)
  {
  }

  lemma HandshakeQueue(s: State, c: nat, ok: bool, t: State)
    requires DoHandshake(s, c, ok) == Some(t)
    ensures QueueStep(s, t)
  {
  }

  lemma OtherTaskQueue(s: State, c: nat, step: TaskStep, t: State)
    requires NextTask(s, c, step) == Some(t) && !QuietStep(step)
    requires !step.PushIdle? && !step.TakeIdle? && !step.Reserve? && !step.Handshake?
    ensures t.pools == s.pools
  {
    hide ParseRequestHeader, Forwarded, Mark, Move;
  }

  lemma NextQueue(s: State, a: Action, t: State)
    requires Next(s, a) == Some(t)
    ensures QueueStep(s, t)
  {
    hide QueueStep, Quiet, DoPushIdle, DoTakeIdle, DoReserve, DoHandshake, NextLink, DoReap, DoReapCount, DoReapNotify;
    match a {
      case Task(c, step) =>
        if QuietStep(step) {
          QuietTask(s, c, step, t);
          QuietQueue(s, t);
        } else if step.PushIdle? {
          PushIdleQueue(s, c, t);
        } else if step.TakeIdle? {
          TakeIdleQueue(s, c, t);
        } else if step.Reserve? {
          ReserveQueue(s, c, t);
        } else if step.Handshake? {
          HandshakeQueue(s, c, step.ok, t);
        } else {
          OtherTaskQueue(s, c, step, t);
          SameQueue(s, t);
        }
      case Link(k, move) =>
        if QuietMove(move) {
          QuietLink(s, k, move, t);
          QuietQueue(s, t);
        } else {
          LinkQueue(s, k, move, t);
          SameQueue(s, t);
        }
      case Reaping(n, pass) =>
        match pass {
          case ReapNotify(woken) => QuietReapNotify(s, n, woken, t); QuietQueue(s, t);
          case _ => ReapQueue(s, n, pass, t);
        }
    }
  }

  lemma QuietQueue(s: State, t: State)
    requires Quiet(s, t)
    ensures QueueStep(s, t)
  {
    hide SameRelays, SameConns;
    SamePoolsQueue(s, t);
  }

  lemma SameQueue(s: State, t: State)
    requires t.pools == s.pools
    ensures QueueStep(s, t)
  {
  }

  lemma LinkQueue(s: State, k: nat, move: LinkStep, t: State)
    requires NextLink(s, k, move) == Some(t) && !QuietMove(move)
    ensures t.pools == s.pools
  {
    hide ParseResponseCid, Without, OfConn, MarkSwept;
    hide DoWrite, DoBreak, DoClose, DoReceive, DoAnswer, DoIgnore, DoDeliver;
  }

  lemma ReapQueue(s: State, n: NodeId, pass: ReaperStep, t: State)
    requires NextReaping(s, n, pass) == Some(t) && !pass.ReapNotify?
    ensures QueueStep(s, t)
  {
  }

  /** In every run, warmed up or not, no queue outgrows its pool's limit, which never changes. */
  lemma {:induction false} QueueWithinLimit(states: seq<State>, actions: seq<Action>, i: nat, n: NodeId)
    requires IsRun(states, actions) && i < |states| && n in states[0].pools
    ensures n in states[i].pools && states[i].pools[n].maxPerBroker == states[0].pools[n].maxPerBroker
    ensures |states[i].pools[n].idle| <= states[i].pools[n].maxPerBroker
    decreases i
  {
    hide Next;
    if i > 0 {
      hide Init;
      NextQueue(states[i - 1], actions[i - 1], states[i]);
      QueueWithinLimit(states, actions, i - 1, n);
    }
  }
}
