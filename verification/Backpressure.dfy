/** No channel ever holds more than it was made for, whoever is slow. */
module Backpressure {
  import opened Wire
  import opened Remap
  import opened Rewrite
  import opened Pool
  import opened Proxy

  /** A client's response channel holds 256 replies, a connection's write channel 256 requests, the one
      between its two loops 64 replies. */
  ghost predicate WithinChannels(s: State) {
    && (forall c :: c in s.relays ==> |s.relays[c].resp| <= 256)
    && (forall k :: k in s.conns ==> |s.conns[k].queue| <= 256 && |s.conns[k].inbox| <= 64)
  }

  /** One client and one connection changed at most. */
  lemma OneChanged(s: State, c: ClientId, k: ConnId, t: State)
    requires WithinChannels(s)
    requires t.relays == s.relays || (c in t.relays && t.relays == s.relays[c := t.relays[c]] && |t.relays[c].resp| <= 256)
    requires || t.conns == s.conns
             || (k in t.conns && t.conns == s.conns[k := t.conns[k]]
                 && |t.conns[k].queue| <= 256 && |t.conns[k].inbox| <= 64)
    ensures WithinChannels(t)
  {
  }

  lemma WakesWithin(s: State, n: NodeId, woken: Option<ClientId>, t: State)
    requires WithinChannels(s) && n in s.pools && Notified(s, n, woken) == Some(t)
    ensures WithinChannels(t)
  {
    assert woken.Some? ==> |s.relays[woken.value].resp| <= 256;
    hide WithinChannels;
    OneChanged(s, if woken.Some? then woken.value else 0, 0, t);
  }

  lemma NotifyWithin(s: State, c: ClientId, woken: Option<ClientId>, t: State)
    requires WithinChannels(s) && DoNotifyOne(s, c, woken) == Some(t)
    ensures WithinChannels(t)
  {
    var r := s.relays[c];
    var mid := WithRelay(s, c, r.(pc := if r.pc.next.Some? then Seeking(r.pc.next.value) else Ended));
    OneChanged(s, c, 0, mid);
    hide WithinChannels;
    WakesWithin(mid, r.node, woken, t);
  }

  lemma SendWithin(s: State, c: ClientId, t: State)
    requires WithinChannels(s) && DoSend(s, c) == Some(t)
    ensures WithinChannels(t)
  {
    hide WithinChannels, Forwarded;
    ClientWithin(s, c);
    LinkIsWithin(s, s.relays[c].lease.value);
    OneChanged(s, c, s.relays[c].lease.value, t);
  }

  lemma HandshakeWithin(s: State, c: ClientId, ok: bool, t: State)
    requires WithinChannels(s) && DoHandshake(s, c, ok) == Some(t)
    ensures WithinChannels(t)
  {
    hide WithinChannels, Unreserved;
    ClientWithin(s, c);
    OneChanged(s, c, s.nextConn, t);
  }

  lemma OneMoved(s: State, c: ClientId, t: State)
    requires WithinChannels(s) && t.conns == s.conns
    requires c in t.relays && t.relays == s.relays[c := t.relays[c]] && |t.relays[c].resp| <= 256
    ensures WithinChannels(t)
  {
  }

  lemma ClientWithin(s: State, c: ClientId)
    requires WithinChannels(s) && c in s.relays
    ensures |s.relays[c].resp| <= 256
  {
  }

  lemma LinkIsWithin(s: State, k: ConnId)
    requires WithinChannels(s) && k in s.conns
    ensures |s.conns[k].queue| <= 256 && |s.conns[k].inbox| <= 64
  {
  }

  /** Steps at the input. */
  predicate Reads(step: TaskStep) {
    step.Connect? || step.ReadFrame? || step.EndInput? || step.Decide? || step.PushIdle?
  }

  lemma ReadsWithin(s: State, c: ClientId, step: TaskStep, t: State)
    requires WithinChannels(s) && NextTask(s, c, step) == Some(t) && Reads(step)
    ensures WithinChannels(t)
  {
    hide WithinChannels;
    if c in s.relays {
      ClientWithin(s, c);
    }
    hide ParseRequestHeader, Returned, Mark, Move, OwnerOf, DoAwait, DoTimeOut, DoCheck, DoLoad, DoTallyMap,
         DoTallyRequest, DoCancelTake, DoCancelTallyMap, DoCancelTallyRequest, DoForward, DoCloseResponses, DoTakeIdle,
         DoReserve, DoSwap, DoPut, DoNotifyOne, DoSend, DoHandshake;
    OneMoved(s, c, t);
  }

  /** Steps that change little but the client's own place in the program. */
  predicate MovesOn(step: TaskStep) {
    step.Await? || step.TimeOut? || step.Check? || step.Load?
    || step.TallyMap? || step.TallyRequest?
  }

  lemma MovesOnWithin(s: State, c: ClientId, step: TaskStep, t: State)
    requires WithinChannels(s) && NextTask(s, c, step) == Some(t) && MovesOn(step)
    ensures WithinChannels(t)
  {
    hide WithinChannels;
    if c in s.relays {
      ClientWithin(s, c);
    }
    hide ParseRequestHeader, Returned, Mark, Move, OwnerOf, DoConnect, DoReadFrame, DoEndInput, DoDecide, DoPushIdle,
         DoCancelTake, DoCancelTallyMap, DoCancelTallyRequest, DoForward, DoCloseResponses, DoTakeIdle, DoReserve,
         DoSwap, DoPut, DoNotifyOne, DoSend, DoHandshake;
    OneMoved(s, c, t);
  }

  /** Steps out of the map, and the response task's. */
  predicate Finishes(step: TaskStep) {
    step.CancelTake? || step.CancelTallyMap? || step.CancelTallyRequest? || step.Forward?
    || step.CloseResponses?
  }

  lemma FinishesWithin(s: State, c: ClientId, step: TaskStep, t: State)
    requires WithinChannels(s) && NextTask(s, c, step) == Some(t) && Finishes(step)
    ensures WithinChannels(t)
  {
    hide WithinChannels;
    if c in s.relays {
      ClientWithin(s, c);
    }
    hide ParseRequestHeader, Returned, Mark, Move, OwnerOf, GiveBack, DoConnect, DoReadFrame, DoEndInput, DoDecide,
         DoPushIdle, DoAwait, DoTimeOut, DoCheck, DoLoad, DoTallyMap, DoTallyRequest, DoTakeIdle, DoReserve, DoSwap,
         DoPut, DoNotifyOne, DoSend, DoHandshake;
    OneMoved(s, c, t);
  }

  lemma TakeIdleWithin(s: State, c: ClientId, t: State)
    requires WithinChannels(s) && DoTakeIdle(s, c) == Some(t)
    ensures WithinChannels(t)
  {
    hide WithinChannels;
    ClientWithin(s, c);
    OneMoved(s, c, t);
  }

  lemma ReserveWithin(s: State, c: ClientId, t: State)
    requires WithinChannels(s) && DoReserve(s, c) == Some(t)
    ensures WithinChannels(t)
  {
    hide WithinChannels;
    ClientWithin(s, c);
    OneMoved(s, c, t);
  }

  lemma SwapWithin(s: State, c: ClientId, t: State)
    requires WithinChannels(s) && DoSwap(s, c) == Some(t)
    ensures WithinChannels(t)
  {
    hide WithinChannels, ParseRequestHeader, Successor;
    ClientWithin(s, c);
    OneMoved(s, c, t);
  }

  lemma PutWithin(s: State, c: ClientId, t: State)
    requires WithinChannels(s) && DoPut(s, c) == Some(t)
    ensures WithinChannels(t)
  {
    hide WithinChannels, ParseRequestHeader, Mark;
    ClientWithin(s, c);
    OneMoved(s, c, t);
  }

  lemma TaskWithin(s: State, c: ClientId, step: TaskStep, t: State)
    requires WithinChannels(s) && NextTask(s, c, step) == Some(t)
    ensures WithinChannels(t)
  {
    hide WithinChannels, DoNotifyOne, DoSend, DoHandshake, DoTakeIdle, DoReserve, DoSwap, DoPut;
    if Reads(step) {
      hide NextTask;
      ReadsWithin(s, c, step, t);
    } else if MovesOn(step) {
      hide NextTask;
      MovesOnWithin(s, c, step, t);
    } else if Finishes(step) {
      hide NextTask;
      FinishesWithin(s, c, step, t);
    } else {
      match step {
        case NotifyOne(woken) => NotifyWithin(s, c, woken, t);
        case TakeIdle => TakeIdleWithin(s, c, t);
        case Reserve => ReserveWithin(s, c, t);
        case Swap => SwapWithin(s, c, t);
        case Put => PutWithin(s, c, t);
        case Send => SendWithin(s, c, t);
        case Handshake(ok) => HandshakeWithin(s, c, ok, t);
      }
    }
  }

  /** `try_send` drops what a full response channel cannot take. */
  lemma DeliverWithin(s: State, k: ConnId, t: State)
    requires WithinChannels(s) && DoDeliver(s, k) == Some(t)
    ensures WithinChannels(t)
  {
    hide WithinChannels, RouteResponse, Move;
    LinkIsWithin(s, k);
    OneChanged(s, s.conns[k].reader.entry.client, k, t);
  }

  lemma LinkWithin(s: State, k: ConnId, move: LinkStep, t: State)
    requires WithinChannels(s) && NextLink(s, k, move) == Some(t)
    ensures WithinChannels(t)
  {
    if move.Deliver? {
      hide WithinChannels, DoDeliver;
      DeliverWithin(s, k, t);
    } else {
      hide WithinChannels;
      LinkIsWithin(s, k);
      hide DoDeliver, Move, Mark, OwnerOf, MarkSwept, LoseConn, Replied, ParseResponseCid, Without, OfConn,
           PutI32, GetI32;
      OneChanged(s, 0, k, t);
    }
  }

  lemma ReapingWithin(s: State, n: NodeId, pass: ReaperStep, t: State)
    requires WithinChannels(s) && NextReaping(s, n, pass) == Some(t)
    ensures WithinChannels(t)
  {
    match pass {
      case ReapNotify(woken) =>
        var mid := WithPool(s, n, s.pools[n].(reaper := Asleep));
        assert WithinChannels(mid);
        hide WithinChannels;
        WakesWithin(mid, n, woken, t);
      case _ =>
    }
  }

  lemma NextWithin(s: State, a: Action, t: State)
    requires WithinChannels(s) && Next(s, a) == Some(t)
    ensures WithinChannels(t)
  {
    hide WithinChannels, NextTask, NextLink, NextReaping;
    match a {
      case Task(c, step) => TaskWithin(s, c, step, t);
      case Link(k, move) => LinkWithin(s, k, move, t);
      case Reaping(n, pass) => ReapingWithin(s, n, pass, t);
    }
  }

  /** In every state of every run: the slowest client and the slowest broker hold up no more than their
      channels take. */
  lemma {:induction false} ChannelsStayWithin(states: seq<State>, actions: seq<Action>, i: nat)
    requires IsRun(states, actions) && i < |states|
    ensures forall c :: c in states[i].relays ==> |states[i].relays[c].resp| <= 256
    ensures forall k :: k in states[i].conns ==> |states[i].conns[k].queue| <= 256 && |states[i].conns[k].inbox| <= 64
    ensures WithinChannels(states[i])
    decreases i
  {
    if i > 0 {
      ChannelsStayWithin(states, actions, i - 1);
      assert Next(states[i - 1], actions[i - 1]) == Some(states[i]);
      hide Next;
      NextWithin(states[i - 1], actions[i - 1], states[i]);
    }
  }
}
