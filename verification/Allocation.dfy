/** The compare-and-swap loop that hands out upstream ids, under any interleaving of any
    number of tasks and with no assumption on how long an id stays in use. */
module Allocation {
  import opened Wire
  import opened Remap
  import opened Rewrite
  import opened Pool
  import opened Proxy
  import opened Registry

  predicate Carries(pc: Pc) {
    Numbered(pc) || pc.Cancelling?
  }

  /** A task holds the id of its own allocation, or a counter value it read earlier. */
  ghost predicate TaskCounts(log: seq<Request>, c: ClientId, r: Relay) {
    && LoadOk(log, c, r)
    && (Carries(r.pc) ==> r.pc.num < |log| && log[r.pc.num].client == c && r.pc.cidU == CidOf(r.pc.num))
  }

  ghost predicate CounterOk(s: State) {
    && s.nextCid == CounterAfter(|s.log|)
    && forall c :: c in s.relays ==> TaskCounts(s.log, c, s.relays[c])
  }

  lemma InitCounter(s: State)
    requires Init(s)
    ensures CounterOk(s)
  {
  }

  // ---- Steps other than the load and the swap ----

  /** The same allocations by the same clients. */
  ghost predicate SameDraws(s: State, t: State) {
    t.nextCid == s.nextCid && |t.log| == |s.log| && forall n :: 0 <= n < |s.log| ==> t.log[n].client == s.log[n].client
  }

  /** No id and no counter value that was not there before. */
  predicate NothingDrawn(p: Pc, q: Pc) {
    && (q.Loaded? ==> q == p)
    && (Carries(q) ==> Carries(p) && q.num == p.num && q.cidU == p.cidU)
  }

  ghost predicate NoDraw(s: State, t: State) {
    && SameDraws(s, t)
    && forall c :: c in t.relays ==> NothingDrawn(if c in s.relays then s.relays[c].pc else Reading, t.relays[c].pc)
  }

  lemma NoDrawKeeps(s: State, t: State)
    requires CounterOk(s) && NoDraw(s, t)
    ensures CounterOk(t)
  {
    hide CidOf, CounterAfter;
    forall c | c in t.relays ensures TaskCounts(t.log, c, t.relays[c]) {
      if c in s.relays {
        assert TaskCounts(s.log, c, s.relays[c]);
      }
    }
  }

  lemma NoDrawByRelay(s: State, c: ClientId, t: State)
    requires c in t.relays && t.relays == s.relays[c := t.relays[c]] && SameDraws(s, t)
    requires NothingDrawn(if c in s.relays then s.relays[c].pc else Reading, t.relays[c].pc)
    ensures NoDraw(s, t)
  {
  }

  lemma NotifiedDraws(s: State, n: NodeId, woken: Option<ClientId>, t: State)
    requires n in s.pools && Notified(s, n, woken) == Some(t)
    ensures NoDraw(s, t)
  {
  }

  lemma NotifyDraws(s: State, c: ClientId, woken: Option<ClientId>, t: State)
    requires CounterOk(s) && DoNotifyOne(s, c, woken) == Some(t)
    ensures CounterOk(t)
  {
    var next := At(s, c).next;
    var mid := Goto(s, c, if next.Some? then Seeking(next.value) else Ended);
    assert NoDraw(s, mid);
    NotifiedDraws(mid, s.relays[c].node, woken, t);
    hide CounterOk, NoDraw;
    NoDrawKeeps(s, mid);
    NoDrawKeeps(mid, t);
  }

  lemma InputDraws(s: State, c: ClientId, step: TaskStep, t: State)
    requires NextTask(s, c, step) == Some(t)
    requires step.Connect? || step.ReadFrame? || step.EndInput? || step.Decide? || step.TimeOut? || step.Check?
    ensures NoDraw(s, t)
  {
    hide ParseRequestHeader, NoDraw;
    NoDrawByRelay(s, c, t);
  }

  lemma IdleDraws(s: State, c: ClientId, t: State)
    requires DoPushIdle(s, c) == Some(t) || DoTakeIdle(s, c) == Some(t)
    ensures NoDraw(s, t)
  {
    hide Returned, NoDraw;
    NoDrawByRelay(s, c, t);
  }

  lemma ReserveDraws(s: State, c: ClientId, t: State)
    requires DoReserve(s, c) == Some(t) || DoAwait(s, c) == Some(t)
    ensures NoDraw(s, t)
  {
    hide NoDraw;
    NoDrawByRelay(s, c, t);
  }

  lemma HandshakeDraws(s: State, c: ClientId, ok: bool, t: State)
    requires DoHandshake(s, c, ok) == Some(t)
    ensures NoDraw(s, t)
  {
    hide NoDraw, Unreserved;
    NoDrawByRelay(s, c, t);
  }

  lemma PutDraws(s: State, c: ClientId, t: State)
    requires DoPut(s, c) == Some(t)
    ensures NoDraw(s, t)
  {
    hide NoDraw, ParseRequestHeader;
    NoDrawByRelay(s, c, t);
  }

  lemma SendDraws(s: State, c: ClientId, t: State)
    requires DoSend(s, c) == Some(t)
    ensures NoDraw(s, t)
  {
    hide NoDraw, Forwarded;
    NoDrawByRelay(s, c, t);
  }

  lemma CancelDraws(s: State, c: ClientId, t: State)
    requires DoCancelTake(s, c) == Some(t)
    ensures NoDraw(s, t)
  {
    hide NoDraw;
    NoDrawByRelay(s, c, t);
  }

  lemma TallyDraws(s: State, c: ClientId, step: TaskStep, t: State)
    requires NextTask(s, c, step) == Some(t)
    requires step.TallyMap? || step.TallyRequest? || step.CancelTallyMap? || step.CancelTallyRequest?
    ensures NoDraw(s, t)
  {
    hide NoDraw;
    NoDrawByRelay(s, c, t);
  }

  lemma ForwardDraws(s: State, c: ClientId, t: State)
    requires DoForward(s, c) == Some(t) || DoCloseResponses(s, c) == Some(t)
    ensures NoDraw(s, t)
  {
    hide NoDraw;
    NoDrawByRelay(s, c, t);
  }

  lemma DeliverDraws(s: State, k: ConnId, t: State)
    requires DoDeliver(s, k) == Some(t)
    ensures NoDraw(s, t)
  {
    hide RouteResponse;
  }

  lemma LinkDraws(s: State, k: ConnId, move: LinkStep, t: State)
    requires NextLink(s, k, move) == Some(t)
    ensures NoDraw(s, t)
  {
    hide DoDeliver, Without, OfConn, ParseResponseCid;
    if move.Deliver? {
      DeliverDraws(s, k, t);
    } else {
      assert t.relays == s.relays;
    }
  }

  // ---- The load and the swap ----

  lemma LoadCounts(s: State, c: ClientId, t: State)
    requires CounterOk(s) && DoLoad(s, c) == Some(t)
    ensures CounterOk(t)
  {
    hide CounterAfter, CidOf;
    forall d | d in t.relays ensures TaskCounts(t.log, d, t.relays[d]) {
      if d != c {
        assert TaskCounts(s.log, d, s.relays[d]);
      }
    }
  }

  lemma OthersCount(log: seq<Request>, q: Request, d: ClientId, r: Relay)
    requires TaskCounts(log, d, r) && q.client != d
    ensures TaskCounts(log + [q], d, r)
  {
    hide CounterAfter, CidOf;
  }

  /** A swap that succeeds is the allocation numbered |s.log|, whoever else allocated since the load. */
  lemma SwapWins(s: State, c: ClientId, t: State)
    requires CounterOk(s) && DoSwap(s, c) == Some(t) && SwapSucceeds(s, c)
    ensures |t.log| == |s.log| + 1 && t.log[..|s.log|] == s.log && t.log[|s.log|].client == c
    ensures t.relays == s.relays[c := s.relays[c].(pc := Drew(s.relays[c].pc.data, CidOf(|s.log|), |s.log|))]
    ensures t.nextCid == CounterAfter(|t.log|)
  {
    hide ParseRequestHeader, TaskCounts;
    SwapCounts(|s.log|);
    hide CounterAfter, CidOf, Successor;
  }

  lemma SwapInterleaves(s: State, c: ClientId, t: State)
    requires CounterOk(s) && DoSwap(s, c) == Some(t)
    ensures CounterOk(t)
  {
    if SwapSucceeds(s, c) {
      SwapWins(s, c, t);
      hide DoSwap, CounterAfter, CidOf;
      var q := t.log[|s.log|];
      assert t.log == s.log + [q];
      hide LoadOk;
      forall d | d in t.relays ensures TaskCounts(t.log, d, t.relays[d]) {
        if d != c {
          OthersCount(s.log, q, d, s.relays[d]);
        } else {
          HolderCounts(t.log, c, t.relays[c]);
        }
      }
    } else {
      hide ParseRequestHeader, CounterOk;
      assert t.relays == s.relays[c := s.relays[c].(pc := Checked(At(s, c).data))];
      NoDrawByRelay(s, c, t);
      NoDrawKeeps(s, t);
    }
  }

  lemma HolderCounts(log: seq<Request>, c: ClientId, r: Relay)
    requires r.pc.Drew? && r.pc.num < |log| && log[r.pc.num].client == c && r.pc.cidU == CidOf(r.pc.num)
    ensures TaskCounts(log, c, r)
  {
  }

  lemma CountersAgree(a: nat, b: nat)
    requires a <= b
    ensures CounterAfter(a) == CounterAfter(b) <==> (b - a) % 0x7FFF_FFFF == 0
  {
    var d := b - a;
    assert b == 0x7FFF_FFFF * (b / 0x7FFF_FFFF) + b % 0x7FFF_FFFF;
    assert a == 0x7FFF_FFFF * (a / 0x7FFF_FFFF) + a % 0x7FFF_FFFF;
    assert d == 0x7FFF_FFFF * (d / 0x7FFF_FFFF) + d % 0x7FFF_FFFF;
  }

  /** A swap succeeds exactly when a whole number of cycles was allocated since the load, and
      one that fails was beaten by another client. */
  lemma SwapFailsOnlyToRivals(s: State, c: ClientId, t: State)
    requires CounterOk(s) && DoSwap(s, c) == Some(t)
    ensures var seen := s.relays[c].pc.seen;
            && seen <= |s.log|
            && (SwapSucceeds(s, c) <==> (|s.log| - seen) % 0x7FFF_FFFF == 0)
            && (!SwapSucceeds(s, c) ==> |s.log| > seen)
            && (forall n :: seen <= n < |s.log| ==> s.log[n].client != c)
  {
    hide ParseRequestHeader;
    assert TaskCounts(s.log, c, s.relays[c]);
    CountersAgree(s.relays[c].pc.seen, |s.log|);
    hide CounterAfter;
  }

  lemma TaskCounter(s: State, c: ClientId, step: TaskStep, t: State)
    requires CounterOk(s) && NextTask(s, c, step) == Some(t)
    ensures CounterOk(t)
  {
    hide CounterOk, NoDraw;
    hide DoConnect, DoReadFrame, DoEndInput, DoDecide, DoPushIdle, DoNotifyOne, DoTakeIdle, DoReserve, DoHandshake,
         DoAwait, DoTimeOut, DoCheck, DoLoad, DoSwap, DoPut, DoTallyMap, DoTallyRequest, DoSend, DoCancelTake,
         DoCancelTallyMap, DoCancelTallyRequest, DoForward, DoCloseResponses;
    match step {
      case NotifyOne(woken) => NotifyDraws(s, c, woken, t); return;
      case Load => LoadCounts(s, c, t); return;
      case Swap => SwapInterleaves(s, c, t); return;
      case PushIdle => IdleDraws(s, c, t);
      case TakeIdle => IdleDraws(s, c, t);
      case Reserve => ReserveDraws(s, c, t);
      case Await => ReserveDraws(s, c, t);
      case Handshake(ok) => HandshakeDraws(s, c, ok, t);
      case Put => PutDraws(s, c, t);
      case Send => SendDraws(s, c, t);
      case CancelTake => CancelDraws(s, c, t);
      case TallyMap => TallyDraws(s, c, step, t);
      case TallyRequest => TallyDraws(s, c, step, t);
      case CancelTallyMap => TallyDraws(s, c, step, t);
      case CancelTallyRequest => TallyDraws(s, c, step, t);
      case Forward => ForwardDraws(s, c, t);
      case CloseResponses => ForwardDraws(s, c, t);
      case _ => InputDraws(s, c, step, t);
    }
    NoDrawKeeps(s, t);
  }

  lemma ReaperDraws(s: State, n: NodeId, pass: ReaperStep, t: State)
    requires NextReaping(s, n, pass) == Some(t)
    ensures NoDraw(s, t)
  {
    if pass.ReapNotify? {
      var mid := WithPool(s, n, s.pools[n].(reaper := Asleep));
      NotifiedDraws(mid, n, pass.woken, t);
    }
  }

  lemma NextCounter(s: State, a: Action, t: State)
    requires CounterOk(s) && Next(s, a) == Some(t)
    ensures CounterOk(t)
  {
    hide CounterOk, NoDraw, NextTask, NextLink, NextReaping;
    match a {
      case Task(c, step) => TaskCounter(s, c, step, t);
      case Link(k, move) => LinkDraws(s, k, move, t); NoDrawKeeps(s, t);
      case Reaping(n, pass) => ReaperDraws(s, n, pass, t); NoDrawKeeps(s, t);
    }
  }

  lemma {:induction false} RunCounter(states: seq<State>, actions: seq<Action>, i: nat)
    requires IsRun(states, actions) && i < |states|
    ensures CounterOk(states[i])
    decreases i
  {
    hide CounterOk, Next, Init;
    if i == 0 {
      InitCounter(states[0]);
    } else {
      RunCounter(states, actions, i - 1);
      NextCounter(states[i - 1], actions[i - 1], states[i]);
    }
  }

  /** In every run, whatever the interleaving: a swap draws either nothing or the id of the next
      allocation in the one order all tasks share; it draws nothing only because other clients
      allocated since its load. */
  lemma AllocationIsLinearizable(states: seq<State>, actions: seq<Action>, i: nat, c: ClientId)
    requires IsRun(states, actions) && i < |actions| && actions[i] == Task(c, Swap)
    ensures var s, t := states[i], states[i + 1];
            && c in s.relays && s.relays[c].pc.Loaded? && s.relays[c].pc.seen <= |s.log| && c in t.relays
            && (forall n :: s.relays[c].pc.seen <= n < |s.log| ==> s.log[n].client != c)
            && if (|s.log| - s.relays[c].pc.seen) % 0x7FFF_FFFF == 0
               then t.relays[c].pc == Drew(s.relays[c].pc.data, CidOf(|s.log|), |s.log|) && |t.log| == |s.log| + 1
               else t.relays[c].pc == Checked(s.relays[c].pc.data) && t.log == s.log && |s.log| > s.relays[c].pc.seen
  {
    RunCounter(states, actions, i);
    var s, t := states[i], states[i + 1];
    hide Init, CounterOk;
    assert DoSwap(s, c) == Some(t);
    hide Next, IsRun;
    SwapFailsOnlyToRivals(s, c, t);
    if SwapSucceeds(s, c) {
      SwapWins(s, c, t);
    } else {
      hide ParseRequestHeader;
    }
  }

  /** Ids drawn by any two tasks fewer than 2^31 - 1 allocations apart differ. */
  lemma HeldIdsDiffer(states: seq<State>, actions: seq<Action>, i: nat, c: ClientId, d: ClientId)
    requires IsRun(states, actions) && i < |states| && c in states[i].relays && d in states[i].relays && c != d
    requires Carries(states[i].relays[c].pc) && Carries(states[i].relays[d].pc)
    ensures var p, q := states[i].relays[c].pc, states[i].relays[d].pc;
            p.num != q.num && (-0x7FFF_FFFF < p.num - q.num < 0x7FFF_FFFF ==> p.cidU != q.cidU)
  {
    RunCounter(states, actions, i);
    var s := states[i];
    assert TaskCounts(s.log, c, s.relays[c]) && TaskCounts(s.log, d, s.relays[d]);
    hide CidOf, CounterAfter, IsRun, CounterOk;
    var p, q := s.relays[c].pc, s.relays[d].pc;
    if p.num < q.num < p.num + 0x7FFF_FFFF {
      CidsDistinct(p.num, q.num);
    } else if q.num < p.num < q.num + 0x7FFF_FFFF {
      CidsDistinct(q.num, p.num);
    }
  }
}
