/** Every request in the books is a frame its client really sent. */
module Provenance {
  import opened Wire
  import opened Remap
  import opened Rewrite
  import opened Pool
  import opened Proxy
  import opened Registry
  import opened RegistrySteps
  import opened History
  import NoCrossTalk

  /** The client's frame a task is working on. */
  function Cargo(pc: Pc): Option<Bytes> {
    match pc
    case Framed(d) => Some(d)
    case Returning(_, next) => next
    case Pushed(next) => next
    case Seeking(d) => Some(d)
    case SawEmpty(d) => Some(d)
    case Connecting(d) => Some(d)
    case Waiting(d) => Some(d)
    case Parked(d) => Some(d)
    case Admitting(d) => Some(d)
    case Checked(d) => Some(d)
    case Loaded(d, _, _) => Some(d)
    case Drew(d, _, _) => Some(d)
    case Listed(d, _, _) => Some(d)
    case Tallied(d, _, _) => Some(d)
    case Sending(d, _, _) => Some(d)
    case _ => None
  }

  /** A task carries what it carried before, or has just read it. */
  predicate CargoMoves(c: ClientId, p: Pc, q: Pc, a: Action) {
    Cargo(q).None? || Cargo(q) == Cargo(p) || a == Task(c, ReadFrame(Cargo(q).value))
  }

  ghost predicate RelaysCarry(s: State, a: Action, t: State) {
    forall c :: c in t.relays ==> CargoMoves(c, if c in s.relays then s.relays[c].pc else Reading, t.relays[c].pc, a)
  }

  lemma CarriesBy(s: State, c: ClientId, a: Action, t: State)
    requires c in t.relays && t.relays == s.relays[c := t.relays[c]]
    requires CargoMoves(c, if c in s.relays then s.relays[c].pc else Reading, t.relays[c].pc, a)
    ensures RelaysCarry(s, a, t)
  {
  }

  lemma NotifiedCarries(s: State, n: NodeId, woken: Option<ClientId>, a: Action, t: State)
    requires n in s.pools && Notified(s, n, woken) == Some(t)
    ensures forall c :: c in t.relays ==> c in s.relays && Cargo(t.relays[c].pc) == Cargo(s.relays[c].pc)
  {
  }

  lemma NotifyCarries(s: State, c: ClientId, woken: Option<ClientId>, a: Action, t: State)
    requires DoNotifyOne(s, c, woken) == Some(t)
    ensures RelaysCarry(s, a, t)
  {
    var next := At(s, c).next;
    var mid := Goto(s, c, if next.Some? then Seeking(next.value) else Ended);
    assert forall d :: d in mid.relays ==> d in s.relays && Cargo(mid.relays[d].pc) == Cargo(s.relays[d].pc);
    NotifiedCarries(mid, s.relays[c].node, woken, a, t);
  }

  lemma InputCarries(s: State, c: ClientId, step: TaskStep, t: State)
    requires NextTask(s, c, step) == Some(t)
    requires step.Connect? || step.ReadFrame? || step.EndInput? || step.Decide? || step.TimeOut? || step.Check?
    ensures RelaysCarry(s, Task(c, step), t)
  {
    hide ParseRequestHeader, RelaysCarry;
    CarriesBy(s, c, Task(c, step), t);
  }

  lemma PushCarries(s: State, c: ClientId, t: State)
    requires DoPushIdle(s, c) == Some(t)
    ensures RelaysCarry(s, Task(c, PushIdle), t)
  {
    hide Returned, RelaysCarry;
    CarriesBy(s, c, Task(c, PushIdle), t);
  }

  lemma TakeCarries(s: State, c: ClientId, t: State)
    requires DoTakeIdle(s, c) == Some(t)
    ensures RelaysCarry(s, Task(c, TakeIdle), t)
  {
    hide RelaysCarry;
    CarriesBy(s, c, Task(c, TakeIdle), t);
  }

  lemma ReserveCarries(s: State, c: ClientId, t: State)
    requires DoReserve(s, c) == Some(t)
    ensures RelaysCarry(s, Task(c, Reserve), t)
  {
    hide RelaysCarry;
    CarriesBy(s, c, Task(c, Reserve), t);
  }

  lemma HandshakeCarries(s: State, c: ClientId, ok: bool, t: State)
    requires DoHandshake(s, c, ok) == Some(t)
    ensures RelaysCarry(s, Task(c, Handshake(ok)), t)
  {
    hide Unreserved, RelaysCarry;
    CarriesBy(s, c, Task(c, Handshake(ok)), t);
  }

  lemma AwaitCarries(s: State, c: ClientId, t: State)
    requires DoAwait(s, c) == Some(t)
    ensures RelaysCarry(s, Task(c, Await), t)
  {
    hide RelaysCarry;
    CarriesBy(s, c, Task(c, Await), t);
  }

  lemma LoadCarries(s: State, c: ClientId, t: State)
    requires DoLoad(s, c) == Some(t)
    ensures RelaysCarry(s, Task(c, Load), t)
  {
    hide RelaysCarry;
    CarriesBy(s, c, Task(c, Load), t);
  }

  lemma TallyCarries(s: State, c: ClientId, step: TaskStep, t: State)
    requires NextTask(s, c, step) == Some(t)
    requires step.TallyMap? || step.TallyRequest? || step.CancelTallyMap? || step.CancelTallyRequest?
    ensures RelaysCarry(s, Task(c, step), t)
  {
    hide RelaysCarry;
    CarriesBy(s, c, Task(c, step), t);
  }

  lemma ForwardCarries(s: State, c: ClientId, step: TaskStep, t: State)
    requires NextTask(s, c, step) == Some(t) && (step.Forward? || step.CloseResponses?)
    ensures RelaysCarry(s, Task(c, step), t)
  {
    hide RelaysCarry, Cargo;
    CarriesBy(s, c, Task(c, step), t);
  }

  lemma SwapPc(s: State, c: ClientId, t: State)
    requires DoSwap(s, c) == Some(t)
    ensures c in s.relays && c in t.relays && t.relays == s.relays[c := t.relays[c]]
    ensures s.relays[c].pc.Loaded?
    ensures t.relays[c].pc == Checked(s.relays[c].pc.data)
         || (t.relays[c].pc.Drew? && t.relays[c].pc.data == s.relays[c].pc.data)
  {
    hide ParseRequestHeader, Successor;
  }

  lemma SwapCarries(s: State, c: ClientId, t: State)
    requires DoSwap(s, c) == Some(t)
    ensures RelaysCarry(s, Task(c, Swap), t)
  {
    SwapPc(s, c, t);
    hide DoSwap, RelaysCarry;
    CarriesBy(s, c, Task(c, Swap), t);
  }

  lemma PutCarries(s: State, c: ClientId, t: State)
    requires DoPut(s, c) == Some(t)
    ensures RelaysCarry(s, Task(c, Put), t)
  {
    hide ParseRequestHeader, RelaysCarry;
    CarriesBy(s, c, Task(c, Put), t);
  }

  lemma SendCarries(s: State, c: ClientId, t: State)
    requires DoSend(s, c) == Some(t)
    ensures RelaysCarry(s, Task(c, Send), t)
  {
    hide Forwarded, RelaysCarry;
    CarriesBy(s, c, Task(c, Send), t);
  }

  lemma CancelCarries(s: State, c: ClientId, t: State)
    requires DoCancelTake(s, c) == Some(t)
    ensures RelaysCarry(s, Task(c, CancelTake), t)
  {
    hide RelaysCarry, Mark, Move;
    CarriesBy(s, c, Task(c, CancelTake), t);
  }

  lemma TaskCarries(s: State, c: ClientId, step: TaskStep, t: State)
    requires NextTask(s, c, step) == Some(t)
    ensures RelaysCarry(s, Task(c, step), t)
  {
    hide RelaysCarry;
    hide DoConnect, DoReadFrame, DoEndInput, DoDecide, DoPushIdle, DoNotifyOne, DoTakeIdle, DoReserve, DoHandshake,
         DoAwait, DoTimeOut, DoCheck, DoLoad, DoSwap, DoPut, DoTallyMap, DoTallyRequest, DoSend, DoCancelTake,
         DoCancelTallyMap, DoCancelTallyRequest, DoForward, DoCloseResponses;
    match step {
      case Swap => SwapCarries(s, c, t);
      case Put => PutCarries(s, c, t);
      case Send => SendCarries(s, c, t);
      case CancelTake => CancelCarries(s, c, t);
      case NotifyOne(woken) => NotifyCarries(s, c, woken, Task(c, step), t);
      case PushIdle => PushCarries(s, c, t);
      case TakeIdle => TakeCarries(s, c, t);
      case Reserve => ReserveCarries(s, c, t);
      case Handshake(ok) => HandshakeCarries(s, c, ok, t);
      case Await => AwaitCarries(s, c, t);
      case Load => LoadCarries(s, c, t);
      case TallyMap => TallyCarries(s, c, step, t);
      case TallyRequest => TallyCarries(s, c, step, t);
      case CancelTallyMap => TallyCarries(s, c, step, t);
      case CancelTallyRequest => TallyCarries(s, c, step, t);
      case Forward => ForwardCarries(s, c, step, t);
      case CloseResponses => ForwardCarries(s, c, step, t);
      case _ => InputCarries(s, c, step, t);
    }
  }

  lemma DeliverCarries(s: State, k: ConnId, t: State)
    requires DoDeliver(s, k) == Some(t)
    ensures RelaysCarry(s, Link(k, Deliver), t)
  {
    hide RouteResponse, Cargo, HeaderOk;
  }

  lemma LinkCarries(s: State, k: ConnId, move: LinkStep, t: State)
    requires NextLink(s, k, move) == Some(t)
    ensures RelaysCarry(s, Link(k, move), t)
  {
    hide DoDeliver, DoFetch, Cargo, HeaderOk, GetI32, PutI32, Without, OfConn;
    match move {
      case Deliver => DeliverCarries(s, k, t);
      case Fetch => FetchCarries(s, k, t);
      case Write => hide LoseConn, MarkSwept; assert t.relays == s.relays;
      case Receive => hide LoseConn, MarkSwept; assert t.relays == s.relays;
      case _ => assert t.relays == s.relays;
    }
  }

  lemma FetchCarries(s: State, k: ConnId, t: State)
    requires DoFetch(s, k) == Some(t)
    ensures RelaysCarry(s, Link(k, Fetch), t)
  {
    hide ParseResponseCid, Cargo, HeaderOk;
  }

  lemma NextCarries(s: State, a: Action, t: State)
    requires Next(s, a) == Some(t)
    ensures RelaysCarry(s, a, t)
  {
    hide RelaysCarry, NextTask, NextLink, NextReaping;
    match a {
      case Task(c, step) => TaskCarries(s, c, step, t);
      case Link(k, move) => LinkCarries(s, k, move, t);
      case Reaping(n, pass) => ReaperCarries(s, n, pass, t);
    }
  }

  lemma ReaperCarries(s: State, n: NodeId, pass: ReaperStep, t: State)
    requires NextReaping(s, n, pass) == Some(t)
    ensures RelaysCarry(s, Reaping(n, pass), t)
  {
    if pass.ReapNotify? {
      var mid := WithPool(s, n, s.pools[n].(reaper := Asleep));
      NotifiedCarries(mid, n, pass.woken, Reaping(n, pass), t);
    }
  }

  // ---- Over whole runs ----

  ghost predicate WasRead(actions: seq<Action>, i: nat, c: ClientId, data: Bytes) {
    exists j :: 0 <= j < i && j < |actions| && actions[j] == Task(c, ReadFrame(data))
  }

  ghost predicate AllRead(s: State, actions: seq<Action>, i: nat) {
    && (forall c :: c in s.relays && Cargo(s.relays[c].pc).Some? ==> WasRead(actions, i, c, Cargo(s.relays[c].pc).value))
    && (forall n :: 0 <= n < |s.log| ==> HeaderOk(s.log[n]) && WasRead(actions, i, s.log[n].client, s.log[n].data))
  }

  lemma ReadLater(actions: seq<Action>, i: nat, c: ClientId, data: Bytes)
    requires i < |actions| && (WasRead(actions, i, c, data) || actions[i] == Task(c, ReadFrame(data)))
    ensures WasRead(actions, i + 1, c, data)
  {
    if WasRead(actions, i, c, data) {
      var j :| 0 <= j < i && j < |actions| && actions[j] == Task(c, ReadFrame(data));
    }
  }

  lemma StepRead(s: State, actions: seq<Action>, i: nat, t: State)
    requires AllRead(s, actions, i) && i < |actions| && Next(s, actions[i]) == Some(t)
    ensures AllRead(t, actions, i + 1)
  {
    NextCarries(s, actions[i], t);
    NextLogs(s, actions[i], t);
    hide Next, WasRead, ParseRequestHeader;
    forall c | c in t.relays && Cargo(t.relays[c].pc).Some?
      ensures WasRead(actions, i + 1, c, Cargo(t.relays[c].pc).value)
    {
      ReadLater(actions, i, c, Cargo(t.relays[c].pc).value);
    }
    forall n | 0 <= n < |t.log| ensures WasRead(actions, i + 1, t.log[n].client, t.log[n].data) {
      ReadLater(actions, i, t.log[n].client, t.log[n].data);
    }
  }

  lemma {:induction false} RunRead(states: seq<State>, actions: seq<Action>, i: nat)
    requires IsRun(states, actions) && i < |states|
    ensures AllRead(states[i], actions, i)
    decreases i
  {
    hide Next;
    if i > 0 {
      hide Init, AllRead;
      RunRead(states, actions, i - 1);
      StepRead(states[i - 1], actions, i - 1, states[i]);
    }
  }

  /** A frame on a client's response channel answers a frame this very client had sent: it carries that
      frame's correlation id, and its body is the broker's reply routed under that frame's key
      and version. */
  lemma RepliesAnswerFramesSent(states: seq<State>, actions: seq<Action>, i: nat, c: ClientId, j: nat)
    requires NoCrossTalk.IsFreshRun(states, actions) && i < |states| && c in states[i].relays
    requires j < |states[i].relays[c].out + states[i].relays[c].resp|
    ensures var s := states[i];
            var d := (s.relays[c].out + s.relays[c].resp)[j];
            && d.num < |s.log|
            && var q := s.log[d.num];
               && WasRead(actions, i, c, q.data) && ParseRequestHeader(q.data).Some?
               && q.reply.Some? && |q.reply.value| >= 4
               && var h := ParseRequestHeader(q.data).value;
                  && ParseResponseCid(d.frame) == Some(h.cid)
                  && d.frame == RouteResponse(q.reply.value, h.cid, h.apiKey, h.version, s.rewriteMap)
  {
    NoCrossTalk.NoCrossTalk(states, actions, i, c);
    RunRead(states, actions, i);
    hide IsRun, NoCrossTalk.FreshAction, RouteResponse, ParseResponseCid;
    var s := states[i];
    var d := (s.relays[c].out + s.relays[c].resp)[j];
    assert HeaderOk(s.log[d.num]);
  }

  lemma OnItsWay(s: State, k: ConnId, x: Sent)
    requires Inv(s) && k in s.conns && (x in s.conns[k].queue || x in s.conns[k].wire)
    ensures x.num < |s.log| && s.log[x.num].conn == k && |s.log[x.num].data| >= 8
    ensures x.frame == Forwarded(s.log[x.num].data, CidOf(x.num))
  {
    InvConn(s, k);
    hide Inv, Forwarded, CidOf;
    HeaderBytes(s.log[x.num].data);
  }

  /** A frame in a connection's queue or on its wire is a frame its client sent, byte for byte but for the
      id, which is the one drawn for it: the broker reads the client's own key and version. */
  lemma FramesSentAreTheClients(states: seq<State>, actions: seq<Action>, i: nat, k: ConnId, x: Sent)
    requires NoCrossTalk.IsFreshRun(states, actions) && i < |states| && k in states[i].conns
    requires x in states[i].conns[k].queue || x in states[i].conns[k].wire
    ensures var s := states[i];
            && x.num < |s.log| && s.log[x.num].conn == k
            && WasRead(actions, i, s.log[x.num].client, s.log[x.num].data)
            && Readdressed(s.log[x.num].data, CidOf(x.num), x.frame)
            && ParseRequestHeader(x.frame) == Some(s.log[x.num].header.(cid := CidOf(x.num)))
  {
    NoCrossTalk.RunInv(states, actions, i);
    var s := states[i];
    OnItsWay(s, k, x);
    RunRead(states, actions, i);
    hide IsRun, NoCrossTalk.FreshAction, Inv, Forwarded, ParseRequestHeader, CidOf, Readdressed;
    assert HeaderOk(s.log[x.num]);
    ForwardedBytes(s.log[x.num].data, CidOf(x.num));
    ReaddressedHeader(s.log[x.num].data, CidOf(x.num), x.frame);
  }
}
