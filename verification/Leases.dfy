/** Leases are exclusive and every one of them is given back or dropped exactly once. */
module Leases {
  import opened Wire
  import opened Remap
  import opened Rewrite
  import opened Pool
  import opened Proxy
  import opened Profile

  /** Leases taken are returned, dropped, or the one now held. */
  predicate Ledger(r: Relay) {
    r.taken == r.returned + r.dropped + (if Grip(r).Some? then 1 else 0)
  }

  ghost predicate RelayLeaseOk(s: State, r: Relay) {
    && LeaseShape(r) && Ledger(r) && r.node in s.pools
    && (Grip(r).Some? ==> Grip(r).value in s.conns && s.conns[Grip(r).value].node == r.node)
  }

  ghost predicate IdleOk(s: State, n: NodeId, idle: seq<ConnId>) {
    && NoRepeats(idle)
    && (forall k :: k in idle ==> k in s.conns && s.conns[k].node == n)
    && (forall k, c :: k in idle && c in s.relays ==> Grip(s.relays[c]) != Some(k))
  }

  ghost predicate Exclusive(s: State) {
    forall c, d :: c in s.relays && d in s.relays && c != d && Grip(s.relays[c]).Some? ==>
      Grip(s.relays[d]) != Grip(s.relays[c])
  }

  ghost predicate LeasesOk(s: State) {
    && (forall c :: c in s.relays ==> RelayLeaseOk(s, s.relays[c]))
    && Exclusive(s)
    && (forall n :: n in s.pools ==> IdleOk(s, n, s.pools[n].idle))
    && (forall k :: k in s.conns ==> k < s.nextConn)
  }

  lemma InitLeases(s: State)
    requires Init(s)
    ensures LeasesOk(s)
  {
    forall n | n in s.pools ensures IdleOk(s, n, s.pools[n].idle) {
    }
  }

  /** Nobody's grip, ledger or idle queue changed. */
  ghost predicate SameLeases(s: State, t: State) {
    && t.relays.Keys == s.relays.Keys
    && (forall c :: c in s.relays ==>
          && t.relays[c].node == s.relays[c].node && Grip(t.relays[c]) == Grip(s.relays[c])
          && (Ledger(s.relays[c]) ==> Ledger(t.relays[c]))
          && (LeaseShape(s.relays[c]) ==> LeaseShape(t.relays[c])))
    && t.nextConn == s.nextConn && t.conns.Keys == s.conns.Keys
    && (forall k :: k in s.conns ==> t.conns[k].node == s.conns[k].node)
    && t.pools.Keys == s.pools.Keys
    && (forall n :: n in s.pools ==> t.pools[n].idle == s.pools[n].idle)
  }

  lemma SameLeasesKeep(s: State, t: State)
    requires LeasesOk(s) && SameLeases(s, t)
    ensures LeasesOk(t)
  {
    hide Grip, LeaseShape, Ledger, NoRepeats;
    forall c | c in t.relays ensures RelayLeaseOk(t, t.relays[c]) {
      assert RelayLeaseOk(s, s.relays[c]);
    }
    forall n | n in t.pools ensures IdleOk(t, n, t.pools[n].idle) {
      assert IdleOk(s, n, s.pools[n].idle);
    }
  }

  lemma QuietLeases(s: State, t: State)
    requires LeasesOk(s) && Quiet(s, t)
    ensures LeasesOk(t)
  {
    assert SameLeases(s, t) by {
      hide Grip, LeaseShape, LeasesOk;
    }
    SameLeasesKeep(s, t);
  }

  // ---- Steps that keep every lease where it is ----

  lemma SameByRelay(s: State, c: nat, t: State)
    requires c in s.relays && c in t.relays && t.relays == s.relays[c := t.relays[c]]
    requires t.relays[c].node == s.relays[c].node && Grip(t.relays[c]) == Grip(s.relays[c])
    requires Ledger(s.relays[c]) ==> Ledger(t.relays[c])
    requires LeaseShape(s.relays[c]) ==> LeaseShape(t.relays[c])
    requires t.conns == s.conns && t.nextConn == s.nextConn && t.pools.Keys == s.pools.Keys
    requires forall n :: n in s.pools ==> t.pools[n].idle == s.pools[n].idle
    ensures SameLeases(s, t)
  {
    hide Grip, LeaseShape, Ledger;
  }

  lemma ReserveSame(s: State, c: nat, t: State)
    requires DoReserve(s, c) == Some(t)
    ensures SameLeases(s, t)
  {
    SameByRelay(s, c, t);
  }

  lemma CheckSame(s: State, c: nat, t: State)
    requires DoCheck(s, c) == Some(t)
    ensures SameLeases(s, t)
  {
    SameByRelay(s, c, t);
  }

  lemma PutSame(s: State, c: nat, t: State)
    requires DoPut(s, c) == Some(t)
    ensures SameLeases(s, t)
  {
    hide ParseRequestHeader;
    SameByRelay(s, c, t);
  }

  lemma TallySame(s: State, c: nat, t: State)
    requires DoTallyMap(s, c) == Some(t) || DoTallyRequest(s, c) == Some(t)
    ensures SameLeases(s, t)
  {
    SameByRelay(s, c, t);
  }

  lemma CancelSame(s: State, c: nat, t: State)
    requires DoCancelTake(s, c) == Some(t)
    ensures SameLeases(s, t)
  {
    SameByRelay(s, c, t);
  }

  lemma CancelTallySame(s: State, c: nat, t: State)
    requires DoCancelTallyMap(s, c) == Some(t) || DoCancelTallyRequest(s, c) == Some(t)
    ensures SameLeases(s, t)
  {
    SameByRelay(s, c, t);
  }

  lemma SameByConn(s: State, k: nat, t: State)
    requires k in s.conns && k in t.conns && t.conns == s.conns[k := t.conns[k]] && t.conns[k].node == s.conns[k].node
    requires t.relays == s.relays && t.nextConn == s.nextConn && t.pools == s.pools
    ensures SameLeases(s, t)
  {
    hide Grip, LeaseShape, Ledger;
  }

  lemma LinkSame(s: State, k: nat, move: LinkStep, t: State)
    requires NextLink(s, k, move) == Some(t) && !QuietMove(move)
    ensures SameLeases(s, t)
  {
    hide SameLeases, ParseResponseCid, Without, OfConn, MarkSwept;
    hide DoWrite, DoBreak, DoClose, DoReceive, DoAnswer, DoIgnore, DoDeliver;
    SameByConn(s, k, t);
  }

  // ---- Steps that move a lease ----

  /** One relay changed its grip, to nothing or to a connection no other relay holds. */
  lemma OthersKeep(s: State, c: nat, t: State)
    requires LeasesOk(s) && c in t.relays && t.relays == s.relays[c := t.relays[c]]
    requires t.conns == s.conns && t.pools.Keys == s.pools.Keys
    requires RelayLeaseOk(t, t.relays[c])
    requires Grip(t.relays[c]).Some? ==> forall d :: d in s.relays && d != c ==> Grip(s.relays[d]) != Grip(t.relays[c])
    ensures forall d :: d in t.relays ==> RelayLeaseOk(t, t.relays[d])
    ensures Exclusive(t)
  {
    hide Grip, LeaseShape, Ledger, IdleOk;
    forall d | d in t.relays ensures RelayLeaseOk(t, t.relays[d]) {
      if d != c {
        assert RelayLeaseOk(s, s.relays[d]);
      }
    }
  }

  /** A relay lets go of its connection, which may join the idle queue. */
  lemma LetGo(s: State, c: nat, t: State)
    requires LeasesOk(s) && c in s.relays && c in t.relays && t.relays == s.relays[c := t.relays[c]]
    requires t.relays[c].node == s.relays[c].node && Grip(t.relays[c]).None? && Grip(s.relays[c]).Some?
    requires Ledger(t.relays[c]) && LeaseShape(t.relays[c])
    requires t.conns == s.conns && t.nextConn == s.nextConn && t.pools.Keys == s.pools.Keys
    requires forall n :: n in s.pools ==>
               || t.pools[n].idle == s.pools[n].idle
               || (n == s.relays[c].node && t.pools[n].idle == s.pools[n].idle + [Grip(s.relays[c]).value])
    ensures LeasesOk(t)
  {
    hide Grip, LeaseShape, Ledger;
    var k := Grip(s.relays[c]).value;
    assert RelayLeaseOk(s, s.relays[c]);
    OthersKeep(s, c, t);
    hide RelayLeaseOk, IdleOk;
    forall n | n in t.pools ensures IdleOk(t, n, t.pools[n].idle) {
      IdleGains(s, c, t, n, k);
    }
  }

  lemma IdleGains(s: State, c: nat, t: State, n: NodeId, k: ConnId)
    requires n in s.pools && n in t.pools && IdleOk(s, n, s.pools[n].idle) && c in s.relays && c in t.relays
    requires t.relays == s.relays[c := t.relays[c]] && t.conns == s.conns
    requires Grip(t.relays[c]).None? && Grip(s.relays[c]) == Some(k) && Exclusive(s)
    requires k in s.conns && s.conns[k].node == s.relays[c].node
    requires t.pools[n].idle == s.pools[n].idle || (n == s.relays[c].node && t.pools[n].idle == s.pools[n].idle + [k])
    ensures IdleOk(t, n, t.pools[n].idle)
  {
    hide Grip;
    assert k !in s.pools[n].idle;
    forall j, d | j in t.pools[n].idle && d in t.relays ensures Grip(t.relays[d]) != Some(j) {
      assert j == k || j in s.pools[n].idle;
    }
  }

  lemma PushIdleLeases(s: State, c: nat, t: State)
    requires LeasesOk(s) && DoPushIdle(s, c) == Some(t)
    ensures LeasesOk(t)
  {
    assert RelayLeaseOk(s, s.relays[c]);
    hide LeasesOk;
    LetGo(s, c, t);
  }

  lemma SendLeases(s: State, c: nat, t: State)
    requires LeasesOk(s) && DoSend(s, c) == Some(t)
    ensures LeasesOk(t)
  {
    assert RelayLeaseOk(s, s.relays[c]);
    hide LeasesOk, Forwarded;
    if s.conns[s.relays[c].lease.value].phase.Gone? {
      LetGo(s, c, t);
    } else {
      var mid := Goto(s, c, Reading);
      SameByRelay(s, c, mid);
      SameByConn(mid, s.relays[c].lease.value, t);
      hide SameLeases, DoSend;
      SameLeasesKeep(s, mid);
      SameLeasesKeep(mid, t);
    }
  }

  /** A relay with empty hands takes a connection nobody holds out of its idle queue, if it was there. */
  lemma TakeUp(s: State, c: nat, k: nat, t: State)
    requires LeasesOk(s) && c in s.relays && c in t.relays && t.relays == s.relays[c := t.relays[c]]
    requires t.relays[c].node == s.relays[c].node && Grip(s.relays[c]).None? && Grip(t.relays[c]) == Some(k)
    requires Ledger(t.relays[c]) && LeaseShape(t.relays[c])
    requires t.conns == s.conns && t.nextConn == s.nextConn && t.pools.Keys == s.pools.Keys
    requires k in s.conns && s.conns[k].node == s.relays[c].node
    requires forall d :: d in s.relays ==> Grip(s.relays[d]) != Some(k)
    requires forall n :: n in s.pools ==>
               || (k !in s.pools[n].idle && t.pools[n].idle == s.pools[n].idle)
               || (s.pools[n].idle != [] && s.pools[n].idle[0] == k && t.pools[n].idle == s.pools[n].idle[1..])
    ensures LeasesOk(t)
  {
    hide Grip, LeaseShape, Ledger;
    assert RelayLeaseOk(s, s.relays[c]);
    OthersKeep(s, c, t);
    hide RelayLeaseOk, IdleOk;
    forall n | n in t.pools ensures IdleOk(t, n, t.pools[n].idle) {
      IdleLoses(s, c, t, n, k);
    }
  }

  lemma IdleLoses(s: State, c: nat, t: State, n: NodeId, k: ConnId)
    requires n in s.pools && n in t.pools && IdleOk(s, n, s.pools[n].idle) && c in s.relays && c in t.relays
    requires t.relays == s.relays[c := t.relays[c]] && t.conns == s.conns && Grip(t.relays[c]) == Some(k)
    requires || (k !in s.pools[n].idle && t.pools[n].idle == s.pools[n].idle)
             || (s.pools[n].idle != [] && s.pools[n].idle[0] == k && t.pools[n].idle == s.pools[n].idle[1..])
    ensures IdleOk(t, n, t.pools[n].idle)
  {
    hide Grip;
    forall j | j in t.pools[n].idle ensures j in s.pools[n].idle && j != k {
    }
  }

  lemma FoundEmpty(s: State, c: nat, t: State)
    requires LeasesOk(s) && DoTakeIdle(s, c) == Some(t) && s.pools[s.relays[c].node].idle == []
    ensures LeasesOk(t)
  {
    hide LeasesOk;
    SameByRelay(s, c, t);
    SameLeasesKeep(s, t);
  }

  lemma TookFront(s: State, c: nat, t: State)
    requires LeasesOk(s) && DoTakeIdle(s, c) == Some(t) && s.pools[s.relays[c].node].idle != []
    ensures LeasesOk(t)
  {
    var n := s.relays[c].node;
    var k := s.pools[n].idle[0];
    assert RelayLeaseOk(s, s.relays[c]) && IdleOk(s, n, s.pools[n].idle);
    IdleApart(s, n, k);
    hide LeasesOk, IdleOk;
    TakeUp(s, c, k, t);
  }

  lemma IdleApart(s: State, n: NodeId, k: ConnId)
    requires LeasesOk(s) && n in s.pools && k in s.pools[n].idle
    ensures forall m :: m in s.pools && m != n ==> k !in s.pools[m].idle
  {
    hide Grip, RelayLeaseOk, NoRepeats;
    assert IdleOk(s, n, s.pools[n].idle);
    forall m | m in s.pools && m != n ensures k !in s.pools[m].idle {
      assert IdleOk(s, m, s.pools[m].idle);
    }
  }

  lemma TakeIdleLeases(s: State, c: nat, t: State)
    requires LeasesOk(s) && DoTakeIdle(s, c) == Some(t)
    ensures LeasesOk(t)
  {
    hide LeasesOk;
    if s.pools[s.relays[c].node].idle == [] {
      FoundEmpty(s, c, t);
    } else {
      TookFront(s, c, t);
    }
  }

  lemma NewConn(s: State, node: NodeId, t: State)
    requires LeasesOk(s) && t == WithConn(s, s.nextConn, FreshConn(node)).(nextConn := s.nextConn + 1)
    ensures LeasesOk(t)
    ensures forall d :: d in s.relays ==> Grip(s.relays[d]) != Some(s.nextConn)
    ensures forall n :: n in s.pools ==> s.nextConn !in s.pools[n].idle
  {
    hide Grip, LeaseShape, Ledger;
    forall d | d in t.relays ensures RelayLeaseOk(t, t.relays[d]) && Grip(s.relays[d]) != Some(s.nextConn) {
      assert RelayLeaseOk(s, s.relays[d]);
    }
    forall n | n in t.pools ensures IdleOk(t, n, t.pools[n].idle) && s.nextConn !in s.pools[n].idle {
      assert IdleOk(s, n, s.pools[n].idle);
    }
  }

  /** A relay that has connected holds its first or next lease. */
  lemma TakesFirst(r: Relay, k: ConnId)
    requires r.pc.Connecting? && LeaseShape(r) && Ledger(r)
    ensures var q := r.(pc := Admitting(r.pc.data), lease := Some(k), taken := r.taken + 1);
            Grip(r).None? && Grip(q) == Some(k) && Ledger(q) && LeaseShape(q)
  {
  }

  lemma HandshakeOkLeases(s: State, c: nat, t: State)
    requires LeasesOk(s) && DoHandshake(s, c, true) == Some(t)
    ensures LeasesOk(t)
  {
    var r := s.relays[c];
    assert RelayLeaseOk(s, r);
    var mid := WithConn(s, s.nextConn, FreshConn(r.node)).(nextConn := s.nextConn + 1);
    assert t == WithRelay(mid, c, r.(pc := Admitting(r.pc.data), lease := Some(s.nextConn), taken := r.taken + 1));
    TakesFirst(r, s.nextConn);
    hide LeasesOk, RelayLeaseOk, DoHandshake, FreshConn, Grip, LeaseShape, Ledger;
    NewConn(s, r.node, mid);
    TakeUp(mid, c, s.nextConn, t);
  }

  lemma HandshakeLeases(s: State, c: nat, ok: bool, t: State)
    requires LeasesOk(s) && DoHandshake(s, c, ok) == Some(t)
    ensures LeasesOk(t)
  {
    hide LeasesOk;
    if ok {
      HandshakeOkLeases(s, c, t);
    } else {
      SameByRelay(s, c, t);
      SameLeasesKeep(s, t);
    }
  }

  lemma ConnectLeases(s: State, c: nat, node: NodeId, t: State)
    requires LeasesOk(s) && DoConnect(s, c, node) == Some(t)
    ensures LeasesOk(t)
  {
    hide Ledger, LeaseShape;
    assert Ledger(t.relays[c]) && LeaseShape(t.relays[c]) by {
      assert t.relays[c] == FreshRelay(node);
      FreshLedger(node);
    }
    forall d | d in t.relays ensures RelayLeaseOk(t, t.relays[d]) {
      if d != c {
        assert RelayLeaseOk(s, s.relays[d]);
      }
    }
    forall n | n in t.pools ensures IdleOk(t, n, t.pools[n].idle) {
      assert IdleOk(s, n, s.pools[n].idle);
    }
  }

  lemma FreshLedger(node: NodeId)
    ensures Ledger(FreshRelay(node)) && LeaseShape(FreshRelay(node))
  {
  }

  lemma ReapLeases(s: State, n: NodeId, expired: set<ConnId>, t: State)
    requires LeasesOk(s) && DoReap(s, n, expired) == Some(t)
    ensures LeasesOk(t)
  {
    KeepNoRepeats(s.pools[n].idle, expired);
    hide Grip, LeaseShape, Ledger, NoRepeats;
    forall d | d in t.relays ensures RelayLeaseOk(t, t.relays[d]) {
      assert RelayLeaseOk(s, s.relays[d]);
    }
    forall m | m in t.pools ensures IdleOk(t, m, t.pools[m].idle) {
      assert IdleOk(s, m, s.pools[m].idle);
      assert IdleOk(s, n, s.pools[n].idle);
    }
  }

  lemma ReapCountLeases(s: State, n: NodeId, t: State)
    requires LeasesOk(s) && DoReapCount(s, n) == Some(t)
    ensures LeasesOk(t)
  {
    assert SameLeases(s, t) by {
      hide LeasesOk, Grip, LeaseShape, Ledger;
    }
    SameLeasesKeep(s, t);
  }

  // ---- All steps ----

  lemma TaskLeases(s: State, c: nat, step: TaskStep, t: State)
    requires LeasesOk(s) && NextTask(s, c, step) == Some(t)
    ensures LeasesOk(t)
  {
    hide LeasesOk, SameLeases, Quiet;
    if QuietStep(step) {
      hide NextTask;
      QuietTask(s, c, step, t);
      QuietLeases(s, t);
      return;
    }
    hide DoConnect, DoReadFrame, DoEndInput, DoDecide, DoPushIdle, DoNotifyOne, DoTakeIdle, DoReserve, DoHandshake,
         DoAwait, DoTimeOut, DoCheck, DoLoad, DoSwap, DoPut, DoTallyMap, DoTallyRequest, DoSend, DoCancelTake,
         DoCancelTallyMap, DoCancelTallyRequest, DoForward, DoCloseResponses;
    match step {
      case Connect(node) => ConnectLeases(s, c, node, t);
      case PushIdle => PushIdleLeases(s, c, t);
      case TakeIdle => TakeIdleLeases(s, c, t);
      case Handshake(ok) => HandshakeLeases(s, c, ok, t);
      case Send => SendLeases(s, c, t);
      case Reserve => ReserveSame(s, c, t); SameLeasesKeep(s, t);
      case Check => CheckSame(s, c, t); SameLeasesKeep(s, t);
      case Put => PutSame(s, c, t); SameLeasesKeep(s, t);
      case TallyMap => TallySame(s, c, t); SameLeasesKeep(s, t);
      case TallyRequest => TallySame(s, c, t); SameLeasesKeep(s, t);
      case CancelTake => CancelSame(s, c, t); SameLeasesKeep(s, t);
      case CancelTallyMap => CancelTallySame(s, c, t); SameLeasesKeep(s, t);
      case CancelTallyRequest => CancelTallySame(s, c, t); SameLeasesKeep(s, t);
    }
  }

  lemma NextLeases(s: State, a: Action, t: State)
    requires LeasesOk(s) && Next(s, a) == Some(t)
    ensures LeasesOk(t)
  {
    hide LeasesOk, SameLeases, Quiet, NextTask, NextLink, DoReap, DoReapCount, DoReapNotify;
    match a {
      case Task(c, step) => TaskLeases(s, c, step, t);
      case Link(k, move) =>
        if QuietMove(move) {
          QuietLink(s, k, move, t);
          QuietLeases(s, t);
        } else {
          LinkSame(s, k, move, t);
          SameLeasesKeep(s, t);
        }
      case Reaping(n, pass) =>
        match pass {
          case Reap(expired) => ReapLeases(s, n, expired, t);
          case ReapCount => ReapCountLeases(s, n, t);
          case ReapNotify(woken) => QuietReapNotify(s, n, woken, t); QuietLeases(s, t);
        }
    }
  }

  lemma {:induction false} RunLeases(states: seq<State>, actions: seq<Action>, i: nat)
    requires IsRun(states, actions) && i < |states|
    ensures LeasesOk(states[i])
    decreases i
  {
    hide LeasesOk, Next, Init;
    if i == 0 {
      InitLeases(states[0]);
    } else {
      RunLeases(states, actions, i - 1);
      NextLeases(states[i - 1], actions[i - 1], states[i]);
    }
  }

  /** In every reachable state the connections in the idle queues and those held by
      relays are pairwise distinct. */
  lemma LeasesAreExclusive(states: seq<State>, actions: seq<Action>, i: nat)
    requires IsRun(states, actions) && i < |states|
    ensures var s := states[i];
            && (forall c, d :: c in s.relays && d in s.relays && c != d && Grip(s.relays[c]).Some? ==>
                  Grip(s.relays[c]) != Grip(s.relays[d]))
            && (forall n, c, k :: n in s.pools && c in s.relays && k in s.pools[n].idle ==> Grip(s.relays[c]) != Some(k))
            && (forall n :: n in s.pools ==> NoRepeats(s.pools[n].idle))
            && (forall n, m, k :: n in s.pools && m in s.pools && n != m && k in s.pools[n].idle ==> k !in s.pools[m].idle)
  {
    RunLeases(states, actions, i);
    var s := states[i];
    hide Grip;
    forall n | n in s.pools ensures IdleOk(s, n, s.pools[n].idle) {
    }
  }

  /** However a relay's task ends, each lease it took was released once or dropped once,
      and only the lease of a failed send is dropped. */
  lemma EveryLeaseIsSettledOnce(states: seq<State>, actions: seq<Action>, i: nat, c: nat)
    requires IsRun(states, actions) && i < |states| && c in states[i].relays && states[i].relays[c].pc.Ended?
    ensures var r := states[i].relays[c]; r.taken == r.returned + r.dropped && r.dropped <= 1
  {
    RunLeases(states, actions, i);
    assert RelayLeaseOk(states[i], states[i].relays[c]);
  }
}
