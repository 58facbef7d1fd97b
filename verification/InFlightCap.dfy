/** How far the check-then-insert race can take the map beyond its cap. */
module InFlightCap {
  import opened Sets
  import opened Wire
  import opened Remap
  import opened Rewrite
  import opened Pool
  import opened Proxy
  import opened Profile

  function PastOf(relays: map<nat, Relay>): map<nat, int> {
    map c | c in relays :: Past(relays[c])
  }

  /** Tasks between the in-flight check and the insertion. */
  ghost function PastCheck(s: State): int {
    Total(PastOf(s.relays))
  }

  lemma PastNonNegative(s: State)
    ensures PastCheck(s) >= 0
  {
    TotalNonNegative(PastOf(s.relays));
  }

  lemma PastChange(s: State, t: State, c: nat)
    requires c in t.relays && t.relays == s.relays[c := t.relays[c]]
    ensures PastCheck(t) == PastCheck(s) - (if c in s.relays then Past(s.relays[c]) else 0) + Past(t.relays[c])
  {
    assert PastOf(t.relays) == PastOf(s.relays)[c := Past(t.relays[c])];
    TotalUpdate(PastOf(s.relays), c, Past(t.relays[c]));
    hide Past;
  }

  lemma QuietPast(s: State, t: State)
    requires Quiet(s, t)
    ensures PastCheck(t) == PastCheck(s) && t.routes == s.routes && t.maxInFlight == s.maxInFlight
  {
    forall c | c in s.relays ensures Past(t.relays[c]) == Past(s.relays[c]) {
      assert SameProfile(s.relays[c], t.relays[c]);
    }
    assert PastOf(t.relays) == PastOf(s.relays);
  }

  /** Entries in the map and entries on their way into it. */
  ghost function Load(s: State): int {
    |s.routes| + PastCheck(s)
  }

  lemma SizeAfter(routes: Routes, cid: Int32, e: Entry)
    ensures |routes[cid := e]| <= |routes| + 1
    ensures |routes - {cid}| <= |routes|
  {
    assert routes[cid := e].Keys == routes.Keys + {cid};
    assert |routes.Keys + {cid}| <= |routes.Keys| + 1;
    SubsetSize((routes - {cid}).Keys, routes.Keys);
  }

  /** Only passing the check adds to the load, and it does so only below the cap. */
  ghost predicate LoadStep(s: State, t: State) {
    && t.maxInFlight == s.maxInFlight
    && (Load(t) <= Load(s) || (Load(t) == Load(s) + 1 && |t.routes| < s.maxInFlight))
  }

  lemma CheckLoad(s: State, c: nat, t: State)
    requires DoCheck(s, c) == Some(t)
    ensures LoadStep(s, t)
  {
    PastChange(s, t, c);
  }

  lemma PutLoad(s: State, c: nat, t: State)
    requires DoPut(s, c) == Some(t)
    ensures LoadStep(s, t)
  {
    hide ParseRequestHeader;
    SizeAfter(s.routes, s.relays[c].pc.cidU, t.routes[s.relays[c].pc.cidU]);
    PastChange(s, t, c);
  }

  lemma CancelShape(s: State, c: nat, t: State)
    requires DoCancelTake(s, c) == Some(t)
    ensures c in s.relays && c in t.relays && s.relays[c].pc.Cancelling?
    ensures t.relays == s.relays[c := s.relays[c].(pc := t.relays[c].pc)]
    ensures t.relays[c].pc.CancelledMap? || t.relays[c].pc.Ended?
    ensures t.routes == s.routes - {s.relays[c].pc.cidU} && t.maxInFlight == s.maxInFlight
  {
    hide Mark, Move, OwnerOf;
  }

  lemma CancelLoad(s: State, c: nat, t: State)
    requires DoCancelTake(s, c) == Some(t)
    ensures LoadStep(s, t)
  {
    CancelShape(s, c, t);
    hide DoCancelTake;
    SizeAfter(s.routes, s.relays[c].pc.cidU, Entry(0, 0, 0, 0, 0));
    PastChange(s, t, c);
  }

  lemma ConnectLoad(s: State, c: nat, node: NodeId, t: State)
    requires DoConnect(s, c, node) == Some(t)
    ensures LoadStep(s, t)
  {
    PastChange(s, t, c);
  }

  lemma IdleLoad(s: State, c: nat, t: State)
    requires DoPushIdle(s, c) == Some(t) || DoTakeIdle(s, c) == Some(t)
    ensures LoadStep(s, t)
  {
    hide Returned;
    PastChange(s, t, c);
  }

  lemma ReserveLoad(s: State, c: nat, t: State)
    requires DoReserve(s, c) == Some(t)
    ensures LoadStep(s, t)
  {
    PastChange(s, t, c);
  }

  lemma HandshakeLoad(s: State, c: nat, ok: bool, t: State)
    requires DoHandshake(s, c, ok) == Some(t)
    ensures LoadStep(s, t)
  {
    hide Unreserved;
    PastChange(s, t, c);
  }

  lemma TallyLoad(s: State, c: nat, step: TaskStep, t: State)
    requires NextTask(s, c, step) == Some(t)
    requires step.TallyMap? || step.TallyRequest? || step.CancelTallyMap? || step.CancelTallyRequest?
    ensures LoadStep(s, t)
  {
    PastChange(s, t, c);
  }

  lemma SendLoad(s: State, c: nat, t: State)
    requires DoSend(s, c) == Some(t)
    ensures LoadStep(s, t)
  {
    hide Forwarded;
    PastChange(s, t, c);
  }

  lemma TaskLoad(s: State, c: nat, step: TaskStep, t: State)
    requires NextTask(s, c, step) == Some(t)
    ensures LoadStep(s, t)
  {
    hide LoadStep;
    if QuietStep(step) {
      hide NextTask, Quiet;
      QuietTask(s, c, step, t);
      QuietPast(s, t);
      QuietLoad(s, t);
      return;
    }
    hide DoConnect, DoReadFrame, DoEndInput, DoDecide, DoPushIdle, DoNotifyOne, DoTakeIdle, DoReserve, DoHandshake,
         DoAwait, DoTimeOut, DoCheck, DoLoad, DoSwap, DoPut, DoTallyMap, DoTallyRequest, DoSend, DoCancelTake,
         DoCancelTallyMap, DoCancelTallyRequest, DoForward, DoCloseResponses;
    match step {
      case Check => CheckLoad(s, c, t);
      case Put => PutLoad(s, c, t);
      case CancelTake => CancelLoad(s, c, t);
      case Connect(node) => ConnectLoad(s, c, node, t);
      case PushIdle => IdleLoad(s, c, t);
      case TakeIdle => IdleLoad(s, c, t);
      case Reserve => ReserveLoad(s, c, t);
      case Handshake(ok) => HandshakeLoad(s, c, ok, t);
      case Send => SendLoad(s, c, t);
      case _ => TallyLoad(s, c, step, t);
    }
  }

  lemma QuietLoad(s: State, t: State)
    requires PastCheck(t) == PastCheck(s) && t.routes == s.routes && t.maxInFlight == s.maxInFlight
    ensures LoadStep(s, t)
  {
  }

  lemma LinkShape(s: State, k: nat, move: LinkStep, t: State)
    requires NextLink(s, k, move) == Some(t) && !QuietMove(move)
    ensures t.relays == s.relays && t.routes.Keys <= s.routes.Keys && t.maxInFlight == s.maxInFlight
  {
    hide DoWrite, DoBreak, DoClose, DoReceive, DoAnswer, DoIgnore, DoDeliver, MarkSwept, ParseResponseCid, Mark, Move, OwnerOf;
  }

  lemma LinkLoad(s: State, k: nat, move: LinkStep, t: State)
    requires NextLink(s, k, move) == Some(t)
    ensures LoadStep(s, t)
  {
    if QuietMove(move) {
      hide NextLink, Quiet, LoadStep;
      QuietLink(s, k, move, t);
      QuietPast(s, t);
      QuietLoad(s, t);
    } else {
      LinkShape(s, k, move, t);
      hide NextLink;
      SubsetSize(t.routes.Keys, s.routes.Keys);
    }
  }

  lemma NextLoad(s: State, a: Action, t: State)
    requires Next(s, a) == Some(t)
    ensures LoadStep(s, t)
  {
    hide NextTask, NextLink, LoadStep;
    match a {
      case Task(c, step) => TaskLoad(s, c, step, t);
      case Link(k, move) => LinkLoad(s, k, move, t);
      case Reaping(n, pass) => ReapLoad(s, n, pass, t);
    }
  }

  lemma ReapLoad(s: State, n: NodeId, pass: ReaperStep, t: State)
    requires NextReaping(s, n, pass) == Some(t)
    ensures LoadStep(s, t)
  {
    if pass.ReapNotify? {
      hide Quiet, DoReapNotify, LoadStep;
      QuietReapNotify(s, n, pass.woken, t);
      QuietPast(s, t);
      QuietLoad(s, t);
    } else {
      assert t.relays == s.relays;
    }
  }

  /** With at most T tasks ever between check and insertion, the map and those tasks together
      never exceed the cap by more than T - 1. */
  lemma {:induction false} CapWithinRace(states: seq<State>, actions: seq<Action>, tasks: nat, i: nat)
    requires IsRun(states, actions) && i < |states| && tasks >= 1
    requires forall j :: 0 <= j < |states| ==> PastCheck(states[j]) <= tasks
    ensures states[i].maxInFlight == states[0].maxInFlight
    ensures Load(states[i]) <= states[0].maxInFlight + tasks - 1
    decreases i
  {
    hide Next;
    if i == 0 {
      assert PastOf(states[0].relays) == map[];
    } else {
      hide Init;
      CapWithinRace(states, actions, tasks, i - 1);
      NextLoad(states[i - 1], actions[i - 1], states[i]);
    }
  }

  /** One inserting task at a time keeps the map within the cap. */
  lemma CapExactForOneTask(states: seq<State>, actions: seq<Action>, i: nat)
    requires IsRun(states, actions) && i < |states|
    requires forall j :: 0 <= j < |states| ==> PastCheck(states[j]) <= 1
    ensures |states[i].routes| <= states[0].maxInFlight
  {
    hide Next, Init;
    CapWithinRace(states, actions, 1, i);
    PastNonNegative(states[i]);
  }
}
