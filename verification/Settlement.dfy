/** Every registration is settled exactly once: answered, cancelled by its own client, or swept
    with its own connection. Until then it is in the map. */
module Settlement {
  import opened Sets
  import opened Wire
  import opened Remap
  import opened Rewrite
  import opened Pool
  import opened Proxy
  import opened Registry
  import opened RegistrySteps
  import opened History
  import opened NoCrossTalk

  predicate Settled(f: Fate) {
    f.Answered? || f.Cancelled? || f.Swept?
  }

  /** How an action may change the fate of a request. */
  predicate FateMoves(q: Request, f: Fate, a: Action) {
    || f == q.fate
    || (q.fate.Drawn? && f.Registered? && a == Task(q.client, Put))
    || (q.fate.Registered? && f.Cancelled? && a == Task(q.client, CancelTake))
    || (q.fate.Registered? && f.Swept? && a == Link(q.conn, Sweep))
    || (q.fate.Registered? && f.Answered? && a == Link(q.conn, Fetch))
  }

  ghost predicate FatesMove(s: State, a: Action, t: State) {
    && |s.log| <= |t.log|
    && (forall n :: 0 <= n < |s.log| ==>
          && FateMoves(s.log[n], t.log[n].fate, a)
          && t.log[n].client == s.log[n].client && t.log[n].conn == s.log[n].conn)
    && (forall n :: |s.log| <= n < |t.log| ==> t.log[n].fate.Drawn?)
  }

  lemma OneMoves(s: State, a: Action, t: State, n: nat)
    requires Advanced(s.log, t.log, n) && FateMoves(s.log[n], t.log[n].fate, a)
    ensures FatesMove(s, a, t)
  {
  }

  lemma PutMoves(s: State, c: ClientId, t: State)
    requires Inv(s) && DoPut(s, c) == Some(t)
    ensures FatesMove(s, Task(c, Put), t)
  {
    InvRelay(s, c);
    hide Inv, CidOf, DeliveredOk, ParseRequestHeader, FatesMove;
    PutEffect(s, c, t, s.relays[c].pc.num, s.relays[c].lease.value);
    OneMoves(s, Task(c, Put), t, s.relays[c].pc.num);
  }

  /** A settled request has no registration left to cancel. */
  lemma HeldOwner(s: State, c: ClientId)
    requires Inv(s) && c in s.relays && s.relays[c].pc.Cancelling?
    ensures var pc := s.relays[c].pc;
            && pc.num < |s.log| && s.log[pc.num].client == c && s.owner.Keys == s.routes.Keys
            && (pc.cidU in s.routes ==> s.owner[pc.cidU] == pc.num && s.log[pc.num].fate.Registered?)
  {
    InvRelay(s, c);
    hide RelayOk;
    var n := s.relays[c].pc.num;
    assert n < |s.log| && s.relays[c].pc.cidU == CidOf(n) && Outstanding(s.log[n]) && s.log[n].client == c by {
      hide Inv, LoadOk, DeliveredOk, CidOf;
    }
    OwnerIs(s, n);
    InvBooks(s);
    hide Inv, CidOf, DistinctCids, Outstanding, CounterAfter;
  }

  lemma CancelMoves(s: State, c: ClientId, t: State)
    requires Inv(s) && DoCancelTake(s, c) == Some(t)
    ensures FatesMove(s, Task(c, CancelTake), t)
  {
    HeldOwner(s, c);
    var pc := s.relays[c].pc;
    hide Inv, FatesMove;
    CancelEffect(s, c, t, pc.num, pc.cidU);
    OneMoves(s, Task(c, CancelTake), t, pc.num);
  }

  lemma SweepMoves(s: State, k: ConnId, t: State)
    requires Inv(s) && DoSweep(s, k) == Some(t)
    ensures FatesMove(s, Link(k, Sweep), t)
  {
    SweepFates(s, k, t);
    hide Inv, DoSweep;
    forall n | 0 <= n < |s.log| ensures FateMoves(s.log[n], t.log[n].fate, Link(k, Sweep)) {
    }
  }

  lemma FetchMoves(s: State, k: ConnId, t: State)
    requires Inv(s) && DoFetch(s, k) == Some(t)
    ensures FatesMove(s, Link(k, Fetch), t)
  {
    InvConn(s, k);
    var x := s.conns[k].inbox[0];
    assert ItemOk(s.log, k, x, Received);
    FetchReader(s.log, k, x);
    hide ItemOk, ItemsOk, ReaderOk, ConnOk, ParseResponseCid, CidOf, Outstanding, FatesMove;
    OwnerIs(s, x.num);
    InvBooks(s);
    hide Inv, DistinctCids, CounterAfter;
    FetchEffect(s, k, t, x.num, CidOf(x.num));
    assert CidOf(x.num) in s.routes ==> s.log[x.num].fate.Registered?;
    hide DoFetch;
    OneMoves(s, Link(k, Fetch), t, x.num);
  }

  lemma SwapMoves(s: State, c: ClientId, t: State)
    requires DoSwap(s, c) == Some(t)
    ensures FatesMove(s, Task(c, Swap), t)
  {
    hide ParseRequestHeader, Successor;
  }

  lemma SendMoves(s: State, c: ClientId, t: State)
    requires DoSend(s, c) == Some(t)
    ensures FatesMove(s, Task(c, Send), t)
  {
    hide Forwarded;
  }

  lemma SameMoves(s: State, a: Action, t: State)
    requires t.log == s.log
    ensures FatesMove(s, a, t)
  {
  }

  lemma TaskMoves(s: State, c: ClientId, step: TaskStep, t: State)
    requires Inv(s) && NextTask(s, c, step) == Some(t)
    ensures FatesMove(s, Task(c, step), t)
  {
    hide Inv, FatesMove;
    hide DoConnect, DoReadFrame, DoEndInput, DoDecide, DoPushIdle, DoNotifyOne, DoTakeIdle, DoReserve, DoHandshake,
         DoAwait, DoTimeOut, DoCheck, DoLoad, DoSwap, DoPut, DoTallyMap, DoTallyRequest, DoSend, DoCancelTake,
         DoCancelTallyMap, DoCancelTallyRequest, DoForward, DoCloseResponses;
    match step {
      case Swap => SwapMoves(s, c, t);
      case Put => PutMoves(s, c, t);
      case Send => SendMoves(s, c, t);
      case CancelTake => CancelMoves(s, c, t);
      case _ =>
        OtherTasksLogNothing(s, c, step, t);
        SameMoves(s, Task(c, step), t);
    }
  }

  /** Traffic moves requests between places and leaves their fates alone. */
  lemma TrafficMoves(s: State, k: ConnId, move: LinkStep, t: State)
    requires NextLink(s, k, move) == Some(t) && !move.Sweep? && !move.Fetch?
    ensures FatesMove(s, Link(k, move), t)
  {
    hide DoSweep, DoFetch, DoDeliver, GetI32, PutI32;
    if move.Deliver? {
      DeliverMoves(s, k, t);
    }
  }

  lemma DeliverMoves(s: State, k: ConnId, t: State)
    requires DoDeliver(s, k) == Some(t)
    ensures FatesMove(s, Link(k, Deliver), t)
  {
    hide RouteResponse;
  }

  lemma NextFates(s: State, a: Action, t: State)
    requires Inv(s) && Next(s, a) == Some(t)
    ensures FatesMove(s, a, t)
  {
    hide Inv, FatesMove, NextTask, DoSweep, DoFetch;
    match a {
      case Task(c, step) => TaskMoves(s, c, step, t);
      case Link(k, Sweep) => SweepMoves(s, k, t);
      case Link(k, Fetch) => FetchMoves(s, k, t);
      case Link(k, move) => hide NextLink; TrafficMoves(s, k, move, t);
      case Reaping(n, pass) => SameMoves(s, a, t);
    }
  }

  /** In a run, only the client that sent a request registers or cancels it, and only the
      connection it went out on answers or sweeps it. */
  lemma OnlyItsOwnSettleIt(states: seq<State>, actions: seq<Action>, i: nat, n: nat)
    requires IsFreshRun(states, actions) && i < |actions| && n < |states[i].log|
    ensures n < |states[i + 1].log| && FateMoves(states[i].log[n], states[i + 1].log[n].fate, actions[i])
  {
    RunInv(states, actions, i);
    NextFates(states[i], actions[i], states[i + 1]);
    hide Inv, IsFreshRun, FateMoves;
  }

  /** What became of a registration never changes again. */
  lemma {:induction false} SettledForGood(states: seq<State>, actions: seq<Action>, i: nat, j: nat, n: nat)
    requires IsFreshRun(states, actions) && i <= j < |states| && n < |states[i].log| && Settled(states[i].log[n].fate)
    ensures n < |states[j].log| && states[j].log[n].fate == states[i].log[n].fate
    decreases j
  {
    hide IsFreshRun;
    if i < j {
      SettledForGood(states, actions, i, j - 1, n);
      assert |actions| + 1 == |states| by {
        RunLengths(states, actions);
      }
      OnlyItsOwnSettleIt(states, actions, j - 1, n);
    }
  }

  lemma RunLengths(states: seq<State>, actions: seq<Action>)
    requires IsFreshRun(states, actions)
    ensures |states| == |actions| + 1
  {
    hide Init, Next, FreshAction;
  }

  // ---- Conservation ----

  ghost function WithFate(log: seq<Request>, f: Fate): (r: set<nat>)
    ensures forall n: nat :: n in r <==> n < |log| && log[n].fate == f
  {
    set n: nat | n < |log| && log[n].fate == f
  }

  /** A map that pairs its keys with the elements of a set, one for one. */
  lemma {:induction false} PairsUp(m: map<Int32, nat>, s: set<nat>)
    requires forall a :: a in m ==> m[a] in s
    requires forall a, b :: a in m && b in m && a != b ==> m[a] != m[b]
    requires forall n :: n in s ==> n in m.Values
    ensures |m| == |s|
    decreases s
  {
    if s == {} {
      assert m.Keys == {};
    } else {
      var n :| n in s;
      var a :| a in m && m[a] == n;
      var rest := m - {a};
      forall x | x in s - {n} ensures x in rest.Values {
        var b :| b in m && m[b] == x;
        assert b in rest && rest[b] == x;
      }
      PairsUp(rest, s - {n});
      assert m.Keys == rest.Keys + {a};
      assert |m.Keys| == |rest.Keys| + 1;
    }
  }

  /** The map holds one entry for each registered request. */
  lemma MapSize(log: seq<Request>, routes: Routes, owner: map<Int32, nat>)
    requires RoutesOk(log, routes, owner)
    ensures |routes| == |WithFate(log, Registered)|
  {
    hide CidOf;
    forall a, b | a in owner && b in owner && a != b ensures owner[a] != owner[b] {
      assert CidOf(owner[a]) == a && CidOf(owner[b]) == b;
    }
    PairsUp(owner, WithFate(log, Registered));
    assert |owner.Keys| == |routes.Keys|;
  }

  lemma FatesPartition(log: seq<Request>)
    ensures |log| == |WithFate(log, Drawn)| + |WithFate(log, Registered)| + |WithFate(log, Answered)|
                   + |WithFate(log, Cancelled)| + |WithFate(log, Swept)|
  {
    var all := UpTo(|log|);
    var ab := WithFate(log, Drawn) + WithFate(log, Registered);
    var cd := WithFate(log, Answered) + WithFate(log, Cancelled);
    assert all == ab + cd + WithFate(log, Swept);
    assert |ab + cd| == |ab| + |cd|;
    assert |ab + cd + WithFate(log, Swept)| == |ab + cd| + |WithFate(log, Swept)|;
  }

  /** At every moment of a run each id drawn is still unregistered, in the map, answered,
      cancelled or swept, and in exactly one of these ways. */
  lemma RequestsAreConserved(states: seq<State>, actions: seq<Action>, i: nat)
    requires IsFreshRun(states, actions) && i < |states|
    ensures var s := states[i];
            |s.log| == |WithFate(s.log, Drawn)| + |s.routes| + |WithFate(s.log, Answered)|
                     + |WithFate(s.log, Cancelled)| + |WithFate(s.log, Swept)|
    ensures forall n :: 0 <= n < |states[i].log| ==>
              (states[i].log[n].fate.Registered?
               <==> CidOf(n) in states[i].owner && states[i].owner[CidOf(n)] == n && CidOf(n) in states[i].routes)
    ensures forall n :: 0 <= n < |states[i].log| && states[i].log[n].fate.Registered? ==>
              states[i].routes[CidOf(n)] == EntryOf(states[i].log[n])
  {
    RunInv(states, actions, i);
    var s := states[i];
    InvBooks(s);
    hide Inv, IsFreshRun, CidOf, DistinctCids, CounterAfter;
    MapSize(s.log, s.routes, s.owner);
    FatesPartition(s.log);
  }
}
