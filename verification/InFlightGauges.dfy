/** The two in-flight gauges against the size of the map, over whole runs. */
module InFlightGauges {
  import opened Wire
  import opened Remap
  import opened Rewrite
  import opened Pool
  import opened Proxy
  import opened Profile
  import opened Registry
  import opened RegistrySteps
  import opened NoCrossTalk

  function MapDebts(relays: map<nat, Relay>): map<nat, int> {
    map c | c in relays :: MapDebt(relays[c])
  }

  function RequestDebts(relays: map<nat, Relay>): map<nat, int> {
    map c | c in relays :: RequestDebt(relays[c])
  }

  function ConnMapDebts(conns: map<nat, Conn>): map<nat, int> {
    map k | k in conns :: ConnMapDebt(conns[k])
  }

  function ConnRequestDebts(conns: map<nat, Conn>): map<nat, int> {
    map k | k in conns :: ConnRequestDebt(conns[k])
  }

  /** Each gauge is the map size, minus the insertions it has yet to count, plus the removals. */
  ghost predicate GaugesOk(s: State) {
    && s.mapGauge == |s.routes| + Total(MapDebts(s.relays)) + Total(ConnMapDebts(s.conns))
    && s.requestGauge == |s.routes| + Total(RequestDebts(s.relays)) + Total(ConnRequestDebts(s.conns))
  }

  lemma {:induction false} AllZero(ws: map<nat, int>)
    requires forall c :: c in ws ==> ws[c] == 0
    ensures Total(ws) == 0
    decreases |ws|
  {
    if ws != map[] {
      var c :| c in ws && Total(ws) == ws[c] + Total(ws - {c});
      AllZero(ws - {c});
    }
  }

  lemma InitGauges(s: State)
    requires Init(s)
    ensures GaugesOk(s)
  {
    AllZero(MapDebts(s.relays));
    AllZero(RequestDebts(s.relays));
    AllZero(ConnMapDebts(s.conns));
    AllZero(ConnRequestDebts(s.conns));
  }

  lemma SameDebts(s: State, t: State)
    requires SameRelays(s, t) && SameConns(s, t)
    ensures MapDebts(t.relays) == MapDebts(s.relays) && RequestDebts(t.relays) == RequestDebts(s.relays)
    ensures ConnMapDebts(t.conns) == ConnMapDebts(s.conns) && ConnRequestDebts(t.conns) == ConnRequestDebts(s.conns)
  {
    forall c | c in s.relays ensures MapDebt(t.relays[c]) == MapDebt(s.relays[c]) && RequestDebt(t.relays[c]) == RequestDebt(s.relays[c]) {
      assert SameProfile(s.relays[c], t.relays[c]);
    }
    forall k | k in s.conns ensures ConnMapDebt(t.conns[k]) == ConnMapDebt(s.conns[k]) && ConnRequestDebt(t.conns[k]) == ConnRequestDebt(s.conns[k]) {
      assert SameConnProfile(s.conns[k], t.conns[k]);
    }
  }

  lemma QuietGauges(s: State, t: State)
    requires GaugesOk(s) && Quiet(s, t)
    ensures GaugesOk(t)
  {
    SameDebts(s, t);
  }

  // ---- One relay or one connection changes what it owes ----

  function OwesMap(s: State, c: nat): int {
    if c in s.relays then MapDebt(s.relays[c]) else 0
  }

  function OwesRequest(s: State, c: nat): int {
    if c in s.relays then RequestDebt(s.relays[c]) else 0
  }

  lemma MapDebtChange(relays: map<nat, Relay>, c: nat, r: Relay)
    ensures Total(MapDebts(relays[c := r])) == Total(MapDebts(relays)) - (if c in relays then MapDebt(relays[c]) else 0) + MapDebt(r)
  {
    assert MapDebts(relays[c := r]) == MapDebts(relays)[c := MapDebt(r)];
    TotalUpdate(MapDebts(relays), c, MapDebt(r));
  }

  lemma RequestDebtChange(relays: map<nat, Relay>, c: nat, r: Relay)
    ensures Total(RequestDebts(relays[c := r]))
         == Total(RequestDebts(relays)) - (if c in relays then RequestDebt(relays[c]) else 0) + RequestDebt(r)
  {
    assert RequestDebts(relays[c := r]) == RequestDebts(relays)[c := RequestDebt(r)];
    TotalUpdate(RequestDebts(relays), c, RequestDebt(r));
  }

  lemma RelayGauges(s: State, t: State, c: nat)
    requires GaugesOk(s) && c in t.relays && t.relays == s.relays[c := t.relays[c]] && t.conns == s.conns
    requires t.mapGauge - s.mapGauge == |t.routes| - |s.routes| + OwesMap(t, c) - OwesMap(s, c)
    requires t.requestGauge - s.requestGauge == |t.routes| - |s.routes| + OwesRequest(t, c) - OwesRequest(s, c)
    ensures GaugesOk(t)
  {
    MapDebtChange(s.relays, c, t.relays[c]);
    RequestDebtChange(s.relays, c, t.relays[c]);
    hide MapDebt, RequestDebt, Total, MapDebts, RequestDebts, ConnMapDebts, ConnRequestDebts;
  }

  function ConnOwesMap(s: State, k: nat): int {
    if k in s.conns then ConnMapDebt(s.conns[k]) else 0
  }

  function ConnOwesRequest(s: State, k: nat): int {
    if k in s.conns then ConnRequestDebt(s.conns[k]) else 0
  }

  lemma ConnMapDebtChange(conns: map<nat, Conn>, k: nat, q: Conn)
    ensures Total(ConnMapDebts(conns[k := q]))
         == Total(ConnMapDebts(conns)) - (if k in conns then ConnMapDebt(conns[k]) else 0) + ConnMapDebt(q)
  {
    assert ConnMapDebts(conns[k := q]) == ConnMapDebts(conns)[k := ConnMapDebt(q)];
    TotalUpdate(ConnMapDebts(conns), k, ConnMapDebt(q));
  }

  lemma ConnRequestDebtChange(conns: map<nat, Conn>, k: nat, q: Conn)
    ensures Total(ConnRequestDebts(conns[k := q]))
         == Total(ConnRequestDebts(conns)) - (if k in conns then ConnRequestDebt(conns[k]) else 0) + ConnRequestDebt(q)
  {
    assert ConnRequestDebts(conns[k := q]) == ConnRequestDebts(conns)[k := ConnRequestDebt(q)];
    TotalUpdate(ConnRequestDebts(conns), k, ConnRequestDebt(q));
  }

  lemma ConnGauges(s: State, t: State, k: nat)
    requires GaugesOk(s) && k in t.conns && t.conns == s.conns[k := t.conns[k]] && t.relays == s.relays
    requires t.mapGauge - s.mapGauge == |t.routes| - |s.routes| + ConnOwesMap(t, k) - ConnOwesMap(s, k)
    requires t.requestGauge - s.requestGauge == |t.routes| - |s.routes| + ConnOwesRequest(t, k) - ConnOwesRequest(s, k)
    ensures GaugesOk(t)
  {
    ConnMapDebtChange(s.conns, k, t.conns[k]);
    ConnRequestDebtChange(s.conns, k, t.conns[k]);
    hide ConnMapDebt, ConnRequestDebt, Total, MapDebts, RequestDebts, ConnMapDebts, ConnRequestDebts;
  }

  lemma SizeAfterPut(routes: Routes, cid: Int32, e: Entry)
    requires cid !in routes
    ensures |routes[cid := e]| == |routes| + 1
  {
    assert routes[cid := e].Keys == routes.Keys + {cid};
  }

  lemma SizeAfterTake(routes: Routes, cid: Int32)
    requires cid in routes
    ensures |routes - {cid}| == |routes| - 1
  {
    assert routes.Keys == (routes - {cid}).Keys + {cid};
  }

  // ---- Steps ----

  lemma ConnectGauges(s: State, c: nat, node: NodeId, t: State)
    requires GaugesOk(s) && DoConnect(s, c, node) == Some(t)
    ensures GaugesOk(t)
  {
    hide GaugesOk;
    RelayGauges(s, t, c);
  }

  lemma PoolStepGauges(s: State, c: nat, t: State)
    requires GaugesOk(s) && (DoPushIdle(s, c) == Some(t) || DoTakeIdle(s, c) == Some(t))
    ensures GaugesOk(t)
  {
    hide GaugesOk, Returned;
    RelayGauges(s, t, c);
  }

  lemma AdmissionGauges(s: State, c: nat, t: State)
    requires GaugesOk(s) && (DoReserve(s, c) == Some(t) || DoCheck(s, c) == Some(t))
    ensures GaugesOk(t)
  {
    hide GaugesOk;
    RelayGauges(s, t, c);
  }

  lemma HandshakeGauges(s: State, c: nat, ok: bool, t: State)
    requires GaugesOk(s) && DoHandshake(s, c, ok) == Some(t) && s.nextConn !in s.conns
    ensures GaugesOk(t)
  {
    hide GaugesOk, Unreserved;
    if ok {
      var mid := WithConn(s, s.nextConn, FreshConn(s.relays[c].node));
      ConnGauges(s, mid, s.nextConn);
      RelayGauges(mid, t, c);
    } else {
      RelayGauges(s, t, c);
    }
  }

  lemma SendGauges(s: State, c: nat, t: State)
    requires GaugesOk(s) && DoSend(s, c) == Some(t)
    ensures GaugesOk(t)
  {
    hide GaugesOk, Forwarded;
    var k := s.relays[c].lease.value;
    if s.conns[k].phase.Gone? {
      RelayGauges(s, t, c);
    } else {
      var mid := Goto(s, c, Reading);
      RelayGauges(s, mid, c);
      ConnGauges(mid, t, k);
    }
  }

  /** The id being registered is not in the map yet. */
  lemma PutIsNew(s: State, c: nat, t: State)
    requires Inv(s) && DoPut(s, c) == Some(t)
    ensures s.relays[c].pc.cidU !in s.routes
  {
    InvRelay(s, c);
    OwnerIs(s, s.relays[c].pc.num);
    InvBooks(s);
    hide DeliveredOk, CidOf, Inv, DistinctCids, DoPut;
  }

  lemma PutGauges(s: State, c: nat, t: State)
    requires GaugesOk(s) && DoPut(s, c) == Some(t) && s.relays[c].pc.cidU !in s.routes
    ensures GaugesOk(t)
  {
    hide GaugesOk, ParseRequestHeader;
    SizeAfterPut(s.routes, s.relays[c].pc.cidU, t.routes[s.relays[c].pc.cidU]);
    RelayGauges(s, t, c);
  }

  lemma TallyGauges(s: State, c: nat, t: State)
    requires GaugesOk(s) && (DoTallyMap(s, c) == Some(t) || DoTallyRequest(s, c) == Some(t))
    ensures GaugesOk(t)
  {
    hide GaugesOk;
    RelayGauges(s, t, c);
  }

  lemma CancelTallyGauges(s: State, c: nat, t: State)
    requires GaugesOk(s) && (DoCancelTallyMap(s, c) == Some(t) || DoCancelTallyRequest(s, c) == Some(t))
    ensures GaugesOk(t)
  {
    hide GaugesOk;
    RelayGauges(s, t, c);
  }

  lemma CancelGauges(s: State, c: nat, t: State)
    requires GaugesOk(s) && s.owner.Keys == s.routes.Keys && DoCancelTake(s, c) == Some(t)
    ensures GaugesOk(t)
  {
    hide GaugesOk, Mark, Move;
    var cid := s.relays[c].pc.cidU;
    if cid in s.routes {
      SizeAfterTake(s.routes, cid);
    }
    RelayGauges(s, t, c);
  }

  lemma SweepGauges(s: State, k: nat, t: State)
    requires GaugesOk(s) && DoSweep(s, k) == Some(t)
    ensures GaugesOk(t)
  {
    hide GaugesOk, MarkSwept, Without, OfConn;
    SweepCounts(s.routes, k);
    ConnGauges(s, t, k);
  }

  lemma FetchGauges(s: State, k: nat, t: State)
    requires GaugesOk(s) && s.owner.Keys == s.routes.Keys && DoFetch(s, k) == Some(t)
    ensures GaugesOk(t)
  {
    FetchShape(s, k, t);
    hide GaugesOk, DoFetch;
    ConnGauges(s, t, k);
  }

  lemma FetchShape(s: State, k: nat, t: State)
    requires DoFetch(s, k) == Some(t)
    ensures k in s.conns && k in t.conns && t.conns == s.conns[k := t.conns[k]] && t.relays == s.relays
    ensures t.conns[k].phase == s.conns[k].phase && t.mapGauge == s.mapGauge && t.requestGauge == s.requestGauge
    ensures s.conns[k].reader.Resting? && (t.conns[k].reader.TookMap? || t.conns[k].reader.Resting?)
    ensures |t.routes| == |s.routes| - (if t.conns[k].reader.TookMap? then 1 else 0)
  {
    hide Mark, Move, OwnerOf;
    var cid := ParseResponseCid(s.conns[k].inbox[0].frame);
    hide ParseResponseCid;
    if cid.Some? && cid.value in s.routes {
      SizeAfterTake(s.routes, cid.value);
    }
  }

  lemma SweepTallyGauges(s: State, k: nat, t: State)
    requires GaugesOk(s) && (DoSweepTallyMap(s, k) == Some(t) || DoSweepTallyRequest(s, k) == Some(t))
    ensures GaugesOk(t)
  {
    hide GaugesOk;
    ConnGauges(s, t, k);
  }

  lemma ReadTallyGauges(s: State, k: nat, t: State)
    requires GaugesOk(s) && (DoReadTallyMap(s, k) == Some(t) || DoReadTallyRequest(s, k) == Some(t))
    ensures GaugesOk(t)
  {
    hide GaugesOk;
    ConnGauges(s, t, k);
  }

  lemma TaskGauges(s: State, c: nat, step: TaskStep, t: State)
    requires GaugesOk(s) && Inv(s) && NextTask(s, c, step) == Some(t)
    ensures GaugesOk(t)
  {
    hide GaugesOk, Quiet, RoutesOk, RelayOk, ConnOk, DistinctCids;
    assert s.nextConn !in s.conns;
    InvBooks(s);
    assert s.owner.Keys == s.routes.Keys by { BooksKeys(s); }
    hide Inv;
    if QuietStep(step) {
      hide NextTask;
      QuietTask(s, c, step, t);
      QuietGauges(s, t);
      return;
    }
    hide DoConnect, DoReadFrame, DoEndInput, DoDecide, DoPushIdle, DoNotifyOne, DoTakeIdle, DoReserve, DoHandshake,
         DoAwait, DoTimeOut, DoCheck, DoLoad, DoSwap, DoPut, DoTallyMap, DoTallyRequest, DoSend, DoCancelTake,
         DoCancelTallyMap, DoCancelTallyRequest, DoForward, DoCloseResponses;
    match step {
      case Handshake(ok) => HandshakeGauges(s, c, ok, t);
      case Put => PutIsNew(s, c, t); PutGauges(s, c, t);
      case TallyMap => TallyGauges(s, c, t);
      case TallyRequest => TallyGauges(s, c, t);
      case Send => SendGauges(s, c, t);
      case CancelTake => CancelGauges(s, c, t);
      case CancelTallyMap => CancelTallyGauges(s, c, t);
      case CancelTallyRequest => CancelTallyGauges(s, c, t);
      case Connect(node) => ConnectGauges(s, c, node, t);
      case PushIdle => PoolStepGauges(s, c, t);
      case TakeIdle => PoolStepGauges(s, c, t);
      case Reserve => AdmissionGauges(s, c, t);
      case Check => AdmissionGauges(s, c, t);
    }
  }

  lemma BooksKeys(s: State)
    requires RoutesOk(s.log, s.routes, s.owner)
    ensures s.owner.Keys == s.routes.Keys
  {
  }

  lemma LinkGauges(s: State, k: nat, move: LinkStep, t: State)
    requires GaugesOk(s) && s.owner.Keys == s.routes.Keys && NextLink(s, k, move) == Some(t)
    ensures GaugesOk(t)
  {
    hide GaugesOk, Quiet;
    if QuietMove(move) {
      hide NextLink;
      QuietLink(s, k, move, t);
      QuietGauges(s, t);
      return;
    }
    hide DoWrite, DoBreak, DoSweep, DoSweepTallyMap, DoSweepTallyRequest, DoClose, DoReceive, DoAnswer, DoIgnore,
         DoFetch, DoReadTallyMap, DoReadTallyRequest, DoDeliver;
    match move {
      case Sweep => SweepGauges(s, k, t);
      case Fetch => FetchGauges(s, k, t);
      case SweepTallyMap => SweepTallyGauges(s, k, t);
      case SweepTallyRequest => SweepTallyGauges(s, k, t);
      case ReadTallyMap => ReadTallyGauges(s, k, t);
      case ReadTallyRequest => ReadTallyGauges(s, k, t);
    }
  }

  lemma NextGauges(s: State, a: Action, t: State)
    requires GaugesOk(s) && Inv(s) && Next(s, a) == Some(t)
    ensures GaugesOk(t)
  {
    InvBooks(s);
    BooksKeys(s);
    hide GaugesOk, Inv, RoutesOk, DistinctCids, NextTask, NextLink, Quiet;
    match a {
      case Task(c, step) => TaskGauges(s, c, step, t);
      case Link(k, move) => LinkGauges(s, k, move, t);
      case Reaping(n, pass) =>
        if pass.ReapNotify? {
          QuietReapNotify(s, n, pass.woken, t);
          QuietGauges(s, t);
        } else {
          ReapGauges(s, n, pass, t);
        }
    }
  }

  lemma ReapGauges(s: State, n: NodeId, pass: ReaperStep, t: State)
    requires GaugesOk(s) && NextReaping(s, n, pass) == Some(t) && !pass.ReapNotify?
    ensures GaugesOk(t)
  {
    assert t.relays == s.relays && t.conns == s.conns;
  }

  /** In every reachable state each gauge differs from the map size exactly by the updates
      that tasks still owe it. */
  lemma {:induction false} GaugesFollowTheMap(states: seq<State>, actions: seq<Action>, i: nat)
    requires IsFreshRun(states, actions) && i < |states|
    ensures GaugesOk(states[i])
    decreases i
  {
    hide GaugesOk, Inv, Next, Init, FreshAction;
    if i == 0 {
      InitGauges(states[0]);
    } else {
      GaugesFollowTheMap(states, actions, i - 1);
      RunInv(states, actions, i - 1);
      NextGauges(states[i - 1], actions[i - 1], states[i]);
    }
  }

  /** No task is between a change of the map and the gauge updates it owes. */
  ghost predicate Quiescent(s: State) {
    && (forall c :: c in s.relays ==> MapDebt(s.relays[c]) == 0 && RequestDebt(s.relays[c]) == 0)
    && (forall k :: k in s.conns ==> ConnMapDebt(s.conns[k]) == 0 && ConnRequestDebt(s.conns[k]) == 0)
  }

  /** At every quiescent state both gauges equal the number of registered requests. */
  lemma GaugesAreExactAtRest(states: seq<State>, actions: seq<Action>, i: nat)
    requires IsFreshRun(states, actions) && i < |states| && Quiescent(states[i])
    ensures states[i].mapGauge == states[i].requestGauge == |states[i].routes|
  {
    var s := states[i];
    GaugesFollowTheMap(states, actions, i);
    AllZero(MapDebts(s.relays));
    AllZero(RequestDebts(s.relays));
    AllZero(ConnMapDebts(s.conns));
    AllZero(ConnRequestDebts(s.conns));
  }
}
