/** The pooled mode over whole runs: replies reach the clients that asked for them. */
module NoCrossTalk {
  import opened Wire
  import opened Remap
  import opened Rewrite
  import opened Proxy
  import opened Pool
  import opened Registry
  import opened RegistrySteps
  import opened History

  lemma HandshakeInv(s: State, c: nat, ok: bool, t: State)
    requires Inv(s) && DoHandshake(s, c, ok) == Some(t)
    ensures Inv(t)
  {
    if ok {
      var q := FreshConn(s.relays[c].node);
      var mid := WithConn(s, s.nextConn, q).(nextConn := s.nextConn + 1);
      assert ConnOk(s.log, s.nextConn, q);
      hide Inv, ConnOk;
      ConnStep(s, s.nextConn, mid);
      assert t == WithRelay(mid, c, t.relays[c]);
      hide DoHandshake;
      PlainRelayStep(mid, c, t);
    } else {
      hide Inv;
      PlainRelayStep(s, c, t);
    }
  }

  lemma LoadInv(s: State, c: nat, t: State)
    requires Inv(s) && DoLoad(s, c) == Some(t)
    ensures Inv(t)
  {
    InvRelay(s, c);
    InvBooks(s);
    hide Inv;
    hide DeliveredOk;
    hide RoutesOk;
    hide DistinctCids;
    hide CounterAfter;
    RelayStep(s, c, t);
  }

  lemma TallyMapInv(s: State, c: nat, t: State)
    requires Inv(s) && DoTallyMap(s, c) == Some(t)
    ensures Inv(t)
  {
    InvRelay(s, c);
    hide Inv;
    hide DeliveredOk;
    hide CidOf;
    RelayStep(s, c, t);
  }

  lemma TallyRequestInv(s: State, c: nat, t: State)
    requires Inv(s) && DoTallyRequest(s, c) == Some(t)
    ensures Inv(t)
  {
    InvRelay(s, c);
    hide Inv;
    hide DeliveredOk;
    hide CidOf;
    RelayStep(s, c, t);
  }

  lemma ConnectInv(s: State, c: nat, node: NodeId, t: State)
    requires Inv(s) && DoConnect(s, c, node) == Some(t)
    ensures Inv(t)
  {
    hide Inv;
    RelayStep(s, c, t);
  }

  lemma ForwardInv(s: State, c: nat, t: State)
    requires Inv(s) && DoForward(s, c) == Some(t)
    ensures Inv(t)
  {
    InvRelay(s, c);
    var r := s.relays[c];
    assert r.out + [r.resp[0]] + r.resp[1..] == r.out + r.resp;
    hide Inv;
    hide DeliveredOk;
    hide CidOf;
    RelayStep(s, c, t);
  }

  lemma CloseResponsesInv(s: State, c: nat, t: State)
    requires Inv(s) && DoCloseResponses(s, c) == Some(t)
    ensures Inv(t)
  {
    InvRelay(s, c);
    hide Inv;
    hide DeliveredOk;
    hide CidOf;
    RelayStep(s, c, t);
  }

  // Steps of a request task that carry no allocation number: it moves on, its lease may change.

  lemma EndInv(s: State, c: nat, t: State)
    requires Inv(s) && (DoEndInput(s, c) == Some(t) || DoTimeOut(s, c) == Some(t))
    ensures Inv(t)
  {
    hide Inv;
    PlainRelayStep(s, c, t);
  }

  lemma CheckInv(s: State, c: nat, t: State)
    requires Inv(s) && (DoCheck(s, c) == Some(t))
    ensures Inv(t)
  {
    hide Inv;
    PlainRelayStep(s, c, t);
  }

  lemma CancelTallyInv(s: State, c: nat, t: State)
    requires Inv(s) && (DoCancelTallyMap(s, c) == Some(t) || DoCancelTallyRequest(s, c) == Some(t))
    ensures Inv(t)
  {
    hide Inv;
    PlainRelayStep(s, c, t);
  }

  lemma TakeIdleInv(s: State, c: nat, t: State)
    requires Inv(s) && (DoTakeIdle(s, c) == Some(t))
    ensures Inv(t)
  {
    hide Inv;
    PlainRelayStep(s, c, t);
  }

  lemma ReserveInv(s: State, c: nat, t: State)
    requires Inv(s) && (DoReserve(s, c) == Some(t) || DoAwait(s, c) == Some(t))
    ensures Inv(t)
  {
    hide Inv;
    PlainRelayStep(s, c, t);
  }

  lemma PushIdleInv(s: State, c: nat, t: State)
    requires Inv(s) && (DoPushIdle(s, c) == Some(t))
    ensures Inv(t)
  {
    hide Inv;
    PlainRelayStep(s, c, t);
  }

  lemma ReadOrDecideInv(s: State, c: nat, data: Bytes, leaseOver: bool, t: State)
    requires Inv(s) && (DoReadFrame(s, c, data) == Some(t) || DoDecide(s, c, leaseOver) == Some(t))
    ensures Inv(t)
  {
    hide Inv;
    hide ParseRequestHeader;
    PlainRelayStep(s, c, t);
  }

  lemma NotifyInv(s: State, c: nat, woken: Option<nat>, t: State)
    requires Inv(s) && DoNotifyOne(s, c, woken) == Some(t)
    ensures Inv(t)
  {
    hide Inv;
    var next := At(s, c).next;
    var mid := Goto(s, c, if next.Some? then Seeking(next.value) else Ended);
    PlainRelayStep(s, c, mid);
    NotifiedInv(mid, s.relays[c].node, woken, t);
  }

  // A connection whose traffic and reader hold the same as before.

  lemma BreakInv(s: State, k: nat, t: State)
    requires Inv(s) && DoBreak(s, k) == Some(t)
    ensures Inv(t)
  {
    InvConn(s, k);
    hide Inv, ItemsOk, ReaderOk;
    ConnStep(s, k, t);
  }

  lemma SweepTallyInv(s: State, k: nat, t: State)
    requires Inv(s) && (DoSweepTallyMap(s, k) == Some(t) || DoSweepTallyRequest(s, k) == Some(t))
    ensures Inv(t)
  {
    InvConn(s, k);
    hide Inv, ItemsOk, ReaderOk;
    ConnStep(s, k, t);
  }

  lemma ReadTallyInv(s: State, k: nat, t: State)
    requires Inv(s) && (DoReadTallyMap(s, k) == Some(t) || DoReadTallyRequest(s, k) == Some(t))
    ensures Inv(t)
  {
    InvConn(s, k);
    hide Inv, ItemsOk, CidOf, ParseResponseCid;
    ConnStep(s, k, t);
  }

  lemma ReaperInv(s: State, n: NodeId, pass: ReaperStep, t: State)
    requires Inv(s) && NextReaping(s, n, pass) == Some(t)
    ensures Inv(t)
  {
    hide Inv;
    if pass.ReapNotify? {
      var mid := WithPool(s, n, s.pools[n].(reaper := Asleep));
      PlainStep(s, mid);
      NotifiedInv(mid, n, pass.woken, t);
    } else {
      PlainStep(s, t);
    }
  }

  /** An action that hands out an id hands out one that is not outstanding. */
  ghost predicate FreshAction(s: State, a: Action) {
    Draws(s, a) ==> Fresh(s.log)
  }

  lemma TaskInv(s: State, c: nat, step: TaskStep, t: State)
    requires Inv(s) && NextTask(s, c, step) == Some(t)
    requires step.Swap? && SwapSucceeds(s, c) ==> Fresh(s.log)
    ensures Inv(t)
  {
    hide Inv, SwapSucceeds, Fresh;
    hide DoConnect, DoReadFrame, DoEndInput, DoDecide, DoPushIdle, DoNotifyOne, DoTakeIdle, DoReserve, DoHandshake,
         DoAwait, DoTimeOut, DoCheck, DoLoad, DoSwap, DoPut, DoTallyMap, DoTallyRequest, DoSend, DoCancelTake,
         DoCancelTallyMap, DoCancelTallyRequest, DoForward, DoCloseResponses;
    match step {
      case Connect(node) => ConnectInv(s, c, node, t);
      case ReadFrame(data) => ReadOrDecideInv(s, c, data, false, t);
      case Decide(leaseOver) => ReadOrDecideInv(s, c, [], leaseOver, t);
      case EndInput => EndInv(s, c, t);
      case PushIdle => PushIdleInv(s, c, t);
      case NotifyOne(woken) => NotifyInv(s, c, woken, t);
      case TakeIdle => TakeIdleInv(s, c, t);
      case Reserve => ReserveInv(s, c, t);
      case Handshake(ok) => HandshakeInv(s, c, ok, t);
      case Await => ReserveInv(s, c, t);
      case TimeOut => EndInv(s, c, t);
      case Check => CheckInv(s, c, t);
      case Load => LoadInv(s, c, t);
      case Swap => SwapInv(s, c, t);
      case Put => PutInv(s, c, t);
      case TallyMap => TallyMapInv(s, c, t);
      case TallyRequest => TallyRequestInv(s, c, t);
      case Send => SendInv(s, c, t);
      case CancelTake => CancelInv(s, c, t);
      case CancelTallyMap => CancelTallyInv(s, c, t);
      case CancelTallyRequest => CancelTallyInv(s, c, t);
      case Forward => ForwardInv(s, c, t);
      case CloseResponses => CloseResponsesInv(s, c, t);
    }
  }

  lemma LinkInv(s: State, k: nat, move: LinkStep, t: State)
    requires Inv(s) && NextLink(s, k, move) == Some(t)
    ensures Inv(t)
  {
    hide Inv;
    hide DoWrite, DoBreak, DoSweep, DoSweepTallyMap, DoSweepTallyRequest, DoClose, DoReceive, DoAnswer, DoIgnore,
         DoFetch, DoReadTallyMap, DoReadTallyRequest, DoDeliver;
    match move {
      case Write => WriteInv(s, k, t);
      case Break => BreakInv(s, k, t);
      case Sweep => SweepInv(s, k, t);
      case SweepTallyMap => SweepTallyInv(s, k, t);
      case SweepTallyRequest => SweepTallyInv(s, k, t);
      case Close => CloseInv(s, k, t);
      case Receive => ReceiveInv(s, k, t);
      case Answer(i, payload) => AnswerInv(s, k, i, payload, t);
      case Ignore => IgnoreInv(s, k, t);
      case Fetch => FetchInv(s, k, t);
      case ReadTallyMap => ReadTallyInv(s, k, t);
      case ReadTallyRequest => ReadTallyInv(s, k, t);
      case Deliver => DeliverInv(s, k, t);
    }
  }

  lemma NextInv(s: State, a: Action, t: State)
    requires Inv(s) && Next(s, a) == Some(t) && FreshAction(s, a)
    ensures Inv(t)
  {
    hide Inv, NextTask, NextLink, NextReaping, SwapSucceeds, Fresh;
    match a {
      case Task(c, step) => TaskInv(s, c, step, t);
      case Link(k, move) => LinkInv(s, k, move, t);
      case Reaping(n, pass) => ReaperInv(s, n, pass, t);
    }
  }

  /** A run in which no id is handed out again while its previous request is outstanding. */
  ghost predicate IsFreshRun(states: seq<State>, actions: seq<Action>) {
    && IsRun(states, actions)
    && forall i :: 0 <= i < |actions| ==> FreshAction(states[i], actions[i])
  }

  lemma {:induction false} RunInv(states: seq<State>, actions: seq<Action>, i: nat)
    requires IsFreshRun(states, actions) && i < |states|
    ensures Inv(states[i])
    decreases i
  {
    if i == 0 {
      InitInv(states[0]);
    } else {
      RunInv(states, actions, i - 1);
      hide Inv;
      hide Next;
      hide FreshAction;
      NextInv(states[i - 1], actions[i - 1], states[i]);
    }
  }

  /** Every frame ever put on a client's response channel answers a request that this client
      sent: it is the broker's one reply to that request, routed under that request's own
      header, and it carries the client's own correlation id. No request has two such frames. */
  lemma NoCrossTalk(states: seq<State>, actions: seq<Action>, i: nat, c: nat)
    requires IsFreshRun(states, actions) && i < |states| && c in states[i].relays
    ensures var s := states[i];
            var ds := s.relays[c].out + s.relays[c].resp;
            && (forall j :: 0 <= j < |ds| ==>
                  && ds[j].num < |s.log|
                  && var q := s.log[ds[j].num];
                     && q.client == c && q.reply.Some? && |q.reply.value| >= 4
                     && ds[j].frame == Routed(q, s.rewriteMap)
                     && ParseResponseCid(ds[j].frame) == Some(q.header.cid))
            && (forall j, l :: 0 <= j < l < |ds| ==> ds[j].num != ds[l].num)
  {
    RunInv(states, actions, i);
    var s := states[i];
    InvRelay(s, c);
    var ds := s.relays[c].out + s.relays[c].resp;
    hide Inv;
    hide RouteResponse;
    forall j | 0 <= j < |ds| ensures ParseResponseCid(ds[j].frame) == Some(s.log[ds[j].num].header.cid) {
      var q := s.log[ds[j].num];
      RoutedCid(q.reply.value, q.header.cid, q.header.apiKey, q.header.version, s.rewriteMap);
    }
  }

  /** ...and byte for byte what the 1:1 relay forwards for the same reply. */
  lemma PooledRunRefinesOneToOne(states: seq<State>, actions: seq<Action>, i: nat, c: nat, j: nat)
    requires IsFreshRun(states, actions) && i < |states| && c in states[i].relays
    requires j < |states[i].relays[c].out + states[i].relays[c].resp|
    ensures var s := states[i];
            var d := (s.relays[c].out + s.relays[c].resp)[j];
            && d.num < |s.log| && s.log[d.num].reply.Some? && |s.log[d.num].reply.value| >= 4
            && var q := s.log[d.num];
               d.frame == OneToOneReply(PutI32(q.header.cid) + q.reply.value[4..], q.header.apiKey, q.header.version, s.rewriteMap)
  {
    RunInv(states, actions, i);
    var s := states[i];
    InvRelay(s, c);
    hide Inv;
    var d := (s.relays[c].out + s.relays[c].resp)[j];
    var q := s.log[d.num];
    var reply := q.reply.value;
    I32Spelled(reply);
    assert reply == PutI32(GetI32(reply)) + reply[4..];
    PooledRefinesOneToOne(reply[4..], GetI32(reply), q.header.cid, q.header.apiKey, q.header.version, s.rewriteMap);
  }

  // ---- When the assumption holds ----

  /** As long as fewer than 2^31 - 1 ids separate the oldest outstanding request from the
      newest, the next id is fresh. */
  lemma FreshWithinCycle(log: seq<Request>)
    requires forall a :: 0 <= a < |log| && Outstanding(log[a]) ==> |log| - a < 0x7FFF_FFFF
    ensures Fresh(log)
  {
    hide Outstanding;
    forall a | 0 <= a < |log| && Outstanding(log[a]) ensures CidOf(a) != CidOf(|log|) {
      CidsDistinct(a, |log|);
    }
  }

  lemma {:induction false} LogGrows(states: seq<State>, actions: seq<Action>, i: nat, j: nat)
    requires IsRun(states, actions) && i <= j < |states|
    ensures |states[i].log| <= |states[j].log|
    decreases j
  {
    hide Next, Init;
    if i < j {
      LogGrows(states, actions, i, j - 1);
      NextLogs(states[j - 1], actions[j - 1], states[j]);
    }
  }

  /** A run with at most 2^31 - 1 allocations needs no assumption at all. */
  lemma FirstCycleIsFresh(states: seq<State>, actions: seq<Action>)
    requires IsRun(states, actions) && |states[|actions|].log| <= 0x7FFF_FFFF
    ensures IsFreshRun(states, actions)
  {
    forall i | 0 <= i < |actions| ensures FreshAction(states[i], actions[i]) {
      if Draws(states[i], actions[i]) {
        LogGrows(states, actions, i + 1, |actions|);
        NextLogs(states[i], actions[i], states[i + 1]);
        FreshWithinCycle(states[i].log);
      }
    }
  }
}
