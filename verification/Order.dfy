/** With brokers that answer in order, replies keep the order of their requests on each connection. */
module Order {
  import opened Wire
  import opened Remap
  import opened Rewrite
  import opened Pool
  import opened Proxy
  import opened Profile
  import opened Leases
  import opened Registry
  import opened RegistrySteps
  import opened NoCrossTalk

  function Nums(xs: seq<Sent>): (r: seq<nat>)
    ensures |r| == |xs| && forall i :: 0 <= i < |xs| ==> r[i] == xs[i].num
  {
    seq(|xs|, i requires 0 <= i < |xs| => xs[i].num)
  }

  /** The requests in flight on a connection, the furthest along first: the reply being
      routed, the replies received and under way, the frames on the wire and in the queue. */
  function Line(q: Conn): seq<nat> {
    (if q.reader.Resting? then [] else [q.reader.num]) + Nums(q.inbox) + Nums(q.replies) + Nums(q.wire) + Nums(q.queue)
  }

  ghost predicate Increasing(xs: seq<nat>) {
    forall i, j :: 0 <= i < j < |xs| ==> xs[i] < xs[j]
  }

  function Deliveries(r: Relay): seq<Delivery> {
    r.out + r.resp
  }

  /** The connection allocation n went out on. */
  function ConnOf(log: seq<Request>, n: nat): ConnId {
    if n < |log| then log[n].conn else 0
  }

  /** A task that has drawn an id is behind everything on its connection. */
  ghost predicate HolderLast(s: State, r: Relay) {
    Numbered(r.pc) && r.lease.Some? && r.lease.value in s.conns ==>
      forall x :: x in Line(s.conns[r.lease.value]) ==> x < r.pc.num
  }

  /** What was delivered from a connection is ahead of everything still on it. */
  ghost predicate DeliveredFirst(s: State, ds: seq<Delivery>) {
    forall i :: 0 <= i < |ds| ==>
      var k := ConnOf(s.log, ds[i].num);
      && (k in s.conns ==> forall x :: x in Line(s.conns[k]) ==> ds[i].num < x)
      && (forall d :: d in s.relays && Numbered(s.relays[d].pc) && s.relays[d].lease == Some(k) ==>
            ds[i].num < s.relays[d].pc.num)
  }

  ghost predicate DeliveredInOrder(log: seq<Request>, ds: seq<Delivery>) {
    forall i, j :: 0 <= i < j < |ds| && ConnOf(log, ds[i].num) == ConnOf(log, ds[j].num) ==> ds[i].num < ds[j].num
  }

  ghost predicate RelayOrder(s: State, r: Relay) {
    HolderLast(s, r) && DeliveredFirst(s, Deliveries(r)) && DeliveredInOrder(s.log, Deliveries(r))
  }

  ghost predicate OrderOk(s: State) {
    && (forall k :: k in s.conns ==> Increasing(Line(s.conns[k])))
    && (forall c :: c in s.relays ==> RelayOrder(s, s.relays[c]))
  }

  lemma InitOrder(s: State)
    requires Init(s)
    ensures OrderOk(s)
  {
  }

  // ---- Steps that only take requests off the lines ----

  ghost predicate Subline(a: seq<nat>, b: seq<nat>) {
    (forall x :: x in a ==> x in b) && (Increasing(b) ==> Increasing(a))
  }

  ghost predicate SameConnOf(s: State, t: State) {
    |s.log| <= |t.log| && forall n :: 0 <= n < |s.log| ==> t.log[n].conn == s.log[n].conn
  }

  ghost predicate LinesShrink(s: State, t: State) {
    forall k :: k in t.conns ==> if k in s.conns then Subline(Line(t.conns[k]), Line(s.conns[k])) else Line(t.conns[k]) == []
  }

  /** The same deliveries, and no allocation number that was not held before. */
  ghost predicate RelayShrinks(r: Relay, q: Relay) {
    && Deliveries(q) == Deliveries(r)
    && (Numbered(q.pc) ==> Numbered(r.pc) && q.pc.num == r.pc.num && q.lease == r.lease)
  }

  ghost predicate RelaysShrink(s: State, t: State) {
    forall c :: c in t.relays ==>
      if c in s.relays then RelayShrinks(s.relays[c], t.relays[c])
      else Deliveries(t.relays[c]) == [] && !Numbered(t.relays[c].pc)
  }

  ghost predicate Known(s: State) {
    && (forall c, i :: c in s.relays && 0 <= i < |Deliveries(s.relays[c])| ==> Deliveries(s.relays[c])[i].num < |s.log|)
    && (forall c :: c in s.relays && Numbered(s.relays[c].pc) && s.relays[c].lease.Some? ==> s.relays[c].lease.value in s.conns)
  }

  lemma InvKnown(s: State)
    requires Inv(s) && LeasesOk(s)
    ensures Known(s)
  {
    forall c | c in s.relays
      ensures forall i :: 0 <= i < |Deliveries(s.relays[c])| ==> Deliveries(s.relays[c])[i].num < |s.log|
      ensures Numbered(s.relays[c].pc) && s.relays[c].lease.Some? ==> s.relays[c].lease.value in s.conns
    {
      InvRelay(s, c);
      assert RelayLeaseOk(s, s.relays[c]);
      hide Inv, LeasesOk;
    }
  }

  lemma ShrinkOrder(s: State, t: State)
    requires OrderOk(s) && Known(s) && SameConnOf(s, t) && LinesShrink(s, t) && RelaysShrink(s, t)
    ensures OrderOk(t)
  {
    hide Line, Numbered, Deliveries, Increasing;
    forall c | c in t.relays ensures RelayOrder(t, t.relays[c]) {
      if c in s.relays {
        ShrinkRelay(s, t, c);
      }
    }
    LinesStayIncreasing(s, t);
  }

  lemma LinesStayIncreasing(s: State, t: State)
    requires OrderOk(s) && LinesShrink(s, t)
    ensures forall k :: k in t.conns ==> Increasing(Line(t.conns[k]))
  {
    hide Line;
  }

  lemma ShrinkRelay(s: State, t: State, c: nat)
    requires OrderOk(s) && Known(s) && SameConnOf(s, t) && LinesShrink(s, t) && RelaysShrink(s, t)
    requires c in t.relays && c in s.relays
    ensures RelayOrder(t, t.relays[c])
  {
    hide Line, Numbered, Deliveries, Increasing;
    var r, q := s.relays[c], t.relays[c];
    assert RelayOrder(s, r) && RelayShrinks(r, q);
    var ds := Deliveries(r);
    forall i | 0 <= i < |ds| ensures ConnOf(t.log, ds[i].num) == ConnOf(s.log, ds[i].num) {
    }
  }

  lemma ShrinkByRelay(s: State, t: State, c: nat)
    requires OrderOk(s) && Known(s) && SameConnOf(s, t) && t.conns == s.conns
    requires c in t.relays && t.relays == s.relays[c := t.relays[c]]
    requires if c in s.relays then RelayShrinks(s.relays[c], t.relays[c])
             else Deliveries(t.relays[c]) == [] && !Numbered(t.relays[c].pc)
    ensures OrderOk(t)
  {
    hide Line, Numbered, Deliveries, Increasing, OrderOk, Known;
    ShrinkOrder(s, t);
  }

  lemma ShrinkByConn(s: State, t: State, k: nat)
    requires OrderOk(s) && Known(s) && SameConnOf(s, t) && t.relays == s.relays
    requires k in t.conns && t.conns == s.conns[k := t.conns[k]]
    requires if k in s.conns then Subline(Line(t.conns[k]), Line(s.conns[k])) else Line(t.conns[k]) == []
    ensures OrderOk(t)
  {
    hide Line, Numbered, Deliveries, Increasing, OrderOk, Known;
    ShrinkOrder(s, t);
  }

  lemma NotifiedOrder(s: State, n: NodeId, woken: Option<nat>, t: State)
    requires OrderOk(s) && Known(s) && n in s.pools && Notified(s, n, woken) == Some(t)
    ensures OrderOk(t)
  {
    hide OrderOk, Known;
    if woken.Some? {
      ShrinkByRelay(s, t, woken.value);
    } else {
      SameOrder(s, t);
    }
  }

  lemma SameOrder(s: State, t: State)
    requires OrderOk(s) && t.relays == s.relays && t.conns == s.conns && t.log == s.log
    ensures OrderOk(t)
  {
    hide Line, Numbered, Deliveries, Increasing;
    forall c | c in t.relays ensures RelayOrder(t, t.relays[c]) {
      assert RelayOrder(s, s.relays[c]);
    }
  }

  lemma NotifyOrder(s: State, c: nat, woken: Option<nat>, t: State)
    requires OrderOk(s) && Known(s) && DoNotifyOne(s, c, woken) == Some(t)
    ensures OrderOk(t)
  {
    var next := At(s, c).next;
    var mid := Goto(s, c, if next.Some? then Seeking(next.value) else Ended);
    hide OrderOk;
    ShrinkByRelay(s, mid, c);
    hide Deliveries;
    NotifiedOrder(mid, s.relays[c].node, woken, t);
  }

  lemma ConnectOrder(s: State, c: nat, node: NodeId, t: State)
    requires OrderOk(s) && Known(s) && DoConnect(s, c, node) == Some(t)
    ensures OrderOk(t)
  {
    hide OrderOk, Known;
    ShrinkByRelay(s, t, c);
  }

  lemma ReadOrDecideOrder(s: State, c: nat, data: Bytes, leaseOver: bool, t: State)
    requires OrderOk(s) && Known(s) && (DoReadFrame(s, c, data) == Some(t) || DoDecide(s, c, leaseOver) == Some(t))
    ensures OrderOk(t)
  {
    hide OrderOk, Known, ParseRequestHeader;
    ShrinkByRelay(s, t, c);
  }

  lemma EndOrder(s: State, c: nat, t: State)
    requires OrderOk(s) && Known(s) && (DoEndInput(s, c) == Some(t) || DoTimeOut(s, c) == Some(t) || DoCheck(s, c) == Some(t))
    ensures OrderOk(t)
  {
    hide OrderOk, Known;
    ShrinkByRelay(s, t, c);
  }

  lemma PoolOrder(s: State, c: nat, t: State)
    requires OrderOk(s) && Known(s) && (DoPushIdle(s, c) == Some(t) || DoTakeIdle(s, c) == Some(t))
    ensures OrderOk(t)
  {
    hide OrderOk, Known, Returned;
    ShrinkByRelay(s, t, c);
  }

  lemma WaitOrder(s: State, c: nat, t: State)
    requires OrderOk(s) && Known(s) && (DoReserve(s, c) == Some(t) || DoAwait(s, c) == Some(t))
    ensures OrderOk(t)
  {
    hide OrderOk, Known;
    ShrinkByRelay(s, t, c);
  }

  lemma HandshakeOrder(s: State, c: nat, ok: bool, t: State)
    requires OrderOk(s) && Known(s) && DoHandshake(s, c, ok) == Some(t) && s.nextConn !in s.conns
    ensures OrderOk(t)
  {
    hide OrderOk, Unreserved;
    if ok {
      var mid := Goto(s, c, Ended);
      ShrinkByRelay(s, mid, c);
      assert Known(mid);
      var end := WithConn(mid, s.nextConn, FreshConn(s.relays[c].node));
      assert Line(FreshConn(s.relays[c].node)) == [];
      ShrinkByConn(mid, end, s.nextConn);
      assert Known(end);
      ShrinkByRelay(end, t, c);
    } else {
      ShrinkByRelay(s, t, c);
    }
  }

  lemma LoadOrder(s: State, c: nat, t: State)
    requires OrderOk(s) && Known(s)
    requires DoLoad(s, c) == Some(t) || DoTallyMap(s, c) == Some(t) || DoTallyRequest(s, c) == Some(t)
    ensures OrderOk(t)
  {
    hide OrderOk, Known;
    ShrinkByRelay(s, t, c);
  }

  lemma PutOrder(s: State, c: nat, t: State)
    requires OrderOk(s) && Known(s) && DoPut(s, c) == Some(t)
    ensures OrderOk(t)
  {
    hide OrderOk, Known, ParseRequestHeader;
    ShrinkByRelay(s, t, c);
  }

  lemma CancelOrder(s: State, c: nat, t: State)
    requires OrderOk(s) && Known(s) && DoCancelTake(s, c) == Some(t)
    ensures OrderOk(t)
  {
    hide OrderOk, Known;
    ShrinkByRelay(s, t, c);
  }

  lemma CancelTallyOrder(s: State, c: nat, t: State)
    requires OrderOk(s) && Known(s) && (DoCancelTallyMap(s, c) == Some(t) || DoCancelTallyRequest(s, c) == Some(t))
    ensures OrderOk(t)
  {
    hide OrderOk, Known;
    ShrinkByRelay(s, t, c);
  }

  lemma ForwardOrder(s: State, c: nat, t: State)
    requires OrderOk(s) && Known(s) && (DoForward(s, c) == Some(t) || DoCloseResponses(s, c) == Some(t))
    ensures OrderOk(t)
  {
    hide OrderOk, Known;
    var r := s.relays[c];
    if r.resp != [] {
      assert r.out + [r.resp[0]] + r.resp[1..] == r.out + r.resp;
    }
    ShrinkByRelay(s, t, c);
  }

  // ---- Drawing an id ----

  /** Every number on a line or delivered belongs to an earlier allocation. */
  lemma LineKnown(log: seq<Request>, k: nat, q: Conn)
    requires ConnOk(log, k, q)
    ensures forall x :: x in Line(q) ==> x < |log|
  {
    hide CidOf, ParseResponseCid, Forwarded;
    forall x | x in Line(q) ensures x < |log| {
      ListKnown(log, k, q.inbox, Received);
      ListKnown(log, k, q.replies, Answering);
      ListKnown(log, k, q.wire, OnWire);
      ListKnown(log, k, q.queue, Queued);
    }
  }

  lemma ListKnown(log: seq<Request>, k: nat, xs: seq<Sent>, stage: Stage)
    requires ItemsOk(log, k, xs, stage)
    ensures forall x :: x in Nums(xs) ==> x < |log|
  {
    forall i | 0 <= i < |xs| ensures xs[i].num < |log| {
      assert ItemOk(log, k, xs[i], stage);
    }
  }

  /** Relay c now holds a number behind everything it can meet; nothing else moved. */
  lemma DrawOrder(s: State, t: State, c: nat, n: nat)
    requires OrderOk(s) && Known(s) && SameConnOf(s, t) && t.conns == s.conns && c in s.relays && c in t.relays
    requires t.relays == s.relays[c := s.relays[c].(pc := t.relays[c].pc)]
    requires Numbered(t.relays[c].pc) && t.relays[c].pc.num == n == |s.log|
    requires forall k, x :: k in s.conns && x in Line(s.conns[k]) ==> x < n
    ensures OrderOk(t)
  {
    hide Line, Increasing;
    forall d | d in t.relays ensures RelayOrder(t, t.relays[d]) {
      assert RelayOrder(s, s.relays[d]);
      var ds := Deliveries(s.relays[d]);
      assert Deliveries(t.relays[d]) == ds;
      assert forall i :: 0 <= i < |ds| ==> ds[i].num < n;
      DrawDelivered(s, t, c, n, ds);
    }
  }

  lemma DrawDelivered(s: State, t: State, c: nat, n: nat, ds: seq<Delivery>)
    requires DeliveredFirst(s, ds) && DeliveredInOrder(s.log, ds) && SameConnOf(s, t) && t.conns == s.conns
    requires c in s.relays && c in t.relays && t.relays == s.relays[c := s.relays[c].(pc := t.relays[c].pc)]
    requires Numbered(t.relays[c].pc) && t.relays[c].pc.num == n == |s.log|
    requires forall i :: 0 <= i < |ds| ==> ds[i].num < n
    ensures DeliveredFirst(t, ds) && DeliveredInOrder(t.log, ds)
  {
    hide Line;
    assert forall i :: 0 <= i < |ds| ==> ConnOf(t.log, ds[i].num) == ConnOf(s.log, ds[i].num);
  }

  lemma SwapOrder(s: State, c: nat, t: State)
    requires OrderOk(s) && Known(s) && Inv(s) && DoSwap(s, c) == Some(t)
    ensures OrderOk(t)
  {
    hide OrderOk, ParseRequestHeader, Successor, CidOf;
    if SwapSucceeds(s, c) {
      forall k, x | k in s.conns && x in Line(s.conns[k]) ensures x < |s.log| {
        hide Line, Inv;
        InvConn(s, k);
        LineKnown(s.log, k, s.conns[k]);
      }
      hide Inv, Known, Line;
      DrawOrder(s, t, c, |s.log|);
    } else {
      hide Inv, Known;
      ShrinkByRelay(s, t, c);
    }
  }

  // ---- Sending ----

  lemma SendOrder(s: State, c: nat, t: State)
    requires OrderOk(s) && Known(s) && LeasesOk(s) && DoSend(s, c) == Some(t)
    ensures OrderOk(t)
  {
    var r := s.relays[c];
    var k := r.lease.value;
    if s.conns[k].phase.Gone? {
      hide OrderOk, Known, LeasesOk, Forwarded;
      ShrinkByRelay(s, t, c);
    } else {
      NobodyElseHolds(s, c, k);
      SentEffect(s, c, t, k);
      hide LeasesOk, DoSend, Forwarded;
      AppendOrder(s, t, c, k);
    }
  }

  lemma NobodyElseHolds(s: State, c: nat, k: nat)
    requires LeasesOk(s) && c in s.relays && s.relays[c].lease == Some(k)
    ensures forall d :: d in s.relays && d != c ==> s.relays[d].lease != Some(k)
  {
    hide RelayLeaseOk, IdleOk, Grip;
    LeaseIsGrip(s.relays[c]);
    forall d | d in s.relays && d != c ensures s.relays[d].lease != Some(k) {
      LeaseIsGrip(s.relays[d]);
    }
  }

  lemma LeaseIsGrip(r: Relay)
    ensures r.lease.Some? ==> Grip(r) == r.lease
  {
  }

  lemma SentEffect(s: State, c: nat, t: State, k: nat)
    requires DoSend(s, c) == Some(t) && k == s.relays[c].lease.value && !s.conns[k].phase.Gone?
    ensures t.relays == s.relays[c := s.relays[c].(pc := Reading)]
    ensures t.conns.Keys == s.conns.Keys && (forall j :: j in t.conns && j != k ==> t.conns[j] == s.conns[j])
    ensures Line(t.conns[k]) == Line(s.conns[k]) + [s.relays[c].pc.num]
    ensures SameConnOf(s, t)
  {
    hide Forwarded;
    assert Nums(t.conns[k].queue) == Nums(s.conns[k].queue) + [s.relays[c].pc.num];
  }

  lemma AppendOrder(s: State, t: State, c: nat, k: nat)
    requires OrderOk(s) && Known(s) && SameConnOf(s, t)
    requires c in s.relays && Numbered(s.relays[c].pc) && s.relays[c].lease == Some(k) && k in s.conns
    requires t.relays == s.relays[c := s.relays[c].(pc := Reading)]
    requires t.conns.Keys == s.conns.Keys && (forall j :: j in t.conns && j != k ==> t.conns[j] == s.conns[j])
    requires Line(t.conns[k]) == Line(s.conns[k]) + [s.relays[c].pc.num]
    requires forall d :: d in s.relays && d != c ==> s.relays[d].lease != Some(k)
    ensures OrderOk(t)
  {
    hide Line;
    assert RelayOrder(s, s.relays[c]);
    var line := Line(t.conns[k]);
    assert forall i :: 0 <= i < |Line(s.conns[k])| ==> line[i] == Line(s.conns[k])[i] && line[i] in Line(s.conns[k]);
    assert Increasing(line);
    forall d | d in t.relays ensures RelayOrder(t, t.relays[d]) {
      assert RelayOrder(s, s.relays[d]);
      assert Deliveries(t.relays[d]) == Deliveries(s.relays[d]);
      AppendDelivered(s, t, c, k, Deliveries(s.relays[d]));
    }
  }

  lemma AppendDelivered(s: State, t: State, c: nat, k: nat, ds: seq<Delivery>)
    requires DeliveredFirst(s, ds) && DeliveredInOrder(s.log, ds) && SameConnOf(s, t)
    requires forall i :: 0 <= i < |ds| ==> ds[i].num < |s.log|
    requires c in s.relays && Numbered(s.relays[c].pc) && s.relays[c].lease == Some(k) && k in s.conns
    requires t.relays == s.relays[c := s.relays[c].(pc := Reading)]
    requires t.conns.Keys == s.conns.Keys && (forall j :: j in t.conns && j != k ==> t.conns[j] == s.conns[j])
    requires Line(t.conns[k]) == Line(s.conns[k]) + [s.relays[c].pc.num]
    ensures DeliveredFirst(t, ds) && DeliveredInOrder(t.log, ds)
  {
    hide Line;
    assert forall i :: 0 <= i < |ds| ==> ConnOf(t.log, ds[i].num) == ConnOf(s.log, ds[i].num);
  }

  // ---- Connection steps ----

  lemma SublineOfSame(a: seq<nat>, b: seq<nat>)
    requires a == b
    ensures Subline(a, b)
  {
  }

  /** Leaving out element i. */
  lemma SublineDrop(a: seq<nat>, b: seq<nat>, i: nat)
    requires i < |b| && a == b[..i] + b[i + 1..]
    ensures Subline(a, b)
  {
    forall x | x in a ensures x in b {
      var j :| 0 <= j < |a| && a[j] == x;
      assert x == b[if j < i then j else j + 1];
    }
  }

  lemma SublinePrefix(a: seq<nat>, b: seq<nat>)
    requires |a| <= |b| && a == b[..|a|]
    ensures Subline(a, b)
  {
  }

  lemma LinkLine(q: Conn, p: Conn)
    requires p.queue == q.queue && p.wire == q.wire && p.replies == q.replies && p.inbox == q.inbox
    requires p.reader.Resting? == q.reader.Resting? && (!q.reader.Resting? ==> p.reader.num == q.reader.num)
    ensures Line(p) == Line(q)
  {
  }

  lemma BreakOrder(s: State, k: nat, t: State)
    requires OrderOk(s) && Known(s) && DoBreak(s, k) == Some(t)
    ensures OrderOk(t)
  {
    LinkLine(s.conns[k], t.conns[k]);
    hide OrderOk, Known, Line;
    SublineOfSame(Line(t.conns[k]), Line(s.conns[k]));
    hide Subline;
    ShrinkByConn(s, t, k);
  }

  lemma SweepTallyOrder(s: State, k: nat, t: State)
    requires OrderOk(s) && Known(s) && (DoSweepTallyMap(s, k) == Some(t) || DoSweepTallyRequest(s, k) == Some(t))
    ensures OrderOk(t)
  {
    LinkLine(s.conns[k], t.conns[k]);
    hide OrderOk, Known, Line;
    SublineOfSame(Line(t.conns[k]), Line(s.conns[k]));
    hide Subline;
    ShrinkByConn(s, t, k);
  }

  lemma ReadTallyOrder(s: State, k: nat, t: State)
    requires OrderOk(s) && Known(s) && (DoReadTallyMap(s, k) == Some(t) || DoReadTallyRequest(s, k) == Some(t))
    ensures OrderOk(t)
  {
    LinkLine(s.conns[k], t.conns[k]);
    hide OrderOk, Known, Line;
    SublineOfSame(Line(t.conns[k]), Line(s.conns[k]));
    hide Subline;
    ShrinkByConn(s, t, k);
  }

  lemma SweepOrder(s: State, k: nat, t: State)
    requires OrderOk(s) && Known(s) && DoSweep(s, k) == Some(t)
    ensures OrderOk(t)
  {
    LinkLine(s.conns[k], t.conns[k]);
    hide OrderOk, Known, Line, Without, OfConn;
    SublineOfSame(Line(t.conns[k]), Line(s.conns[k]));
    hide Subline;
    ShrinkByConn(s, t, k);
  }

  lemma CloseOrder(s: State, k: nat, t: State)
    requires OrderOk(s) && Known(s) && DoClose(s, k) == Some(t)
    ensures OrderOk(t)
  {
    hide OrderOk, Known;
    SublinePrefix(Line(t.conns[k]), Line(s.conns[k]));
    hide Subline, Line;
    ShrinkByConn(s, t, k);
  }

  /** Moving the front of one list to the back of the next keeps the line. */
  lemma MoveFront(a: seq<Sent>, b: seq<Sent>)
    requires b != []
    ensures Nums(a + [b[0]]) + Nums(b[1..]) == Nums(a) + Nums(b)
  {
  }

  lemma WriteOrder(s: State, k: nat, t: State)
    requires OrderOk(s) && Known(s) && DoWrite(s, k) == Some(t)
    ensures OrderOk(t)
  {
    hide OrderOk, Known;
    var q := s.conns[k];
    MoveFront(q.wire, q.queue);
    var front := (if q.reader.Resting? then [] else [q.reader.num]) + Nums(q.inbox) + Nums(q.replies);
    assert Line(t.conns[k]) == front + (Nums(q.wire + [q.queue[0]]) + Nums(q.queue[1..]));
    assert Line(q) == front + (Nums(q.wire) + Nums(q.queue));
    hide Line;
    SublineOfSame(Line(t.conns[k]), Line(q));
    hide Subline;
    ShrinkByConn(s, t, k);
  }

  lemma ReceiveOrder(s: State, k: nat, t: State)
    requires OrderOk(s) && Known(s) && DoReceive(s, k) == Some(t)
    ensures OrderOk(t)
  {
    hide OrderOk, Known, Line;
    ReceivedLine(s.conns[k], t.conns[k]);
    SublineOfSame(Line(t.conns[k]), Line(s.conns[k]));
    hide Subline;
    ShrinkByConn(s, t, k);
  }

  lemma ReceivedLine(q: Conn, p: Conn)
    requires q.replies != [] && p == q.(replies := q.replies[1..], inbox := q.inbox + [q.replies[0]])
    ensures Line(p) == Line(q)
  {
    MoveFront(q.inbox, q.replies);
    hide Nums;
    var front := if q.reader.Resting? then [] else [q.reader.num];
    Regroup(front, Nums(p.inbox), Nums(p.replies), Nums(q.wire), Nums(q.queue));
    Regroup(front, Nums(q.inbox), Nums(q.replies), Nums(q.wire), Nums(q.queue));
  }

  lemma Regroup(a: seq<nat>, b: seq<nat>, c: seq<nat>, d: seq<nat>, e: seq<nat>)
    ensures a + b + c + d + e == a + (b + c) + d + e == a + (b + c + d + e)
  {
  }

  /** A broker that answers the oldest frame first. */
  lemma AnswerOrder(s: State, k: nat, payload: Bytes, t: State)
    requires OrderOk(s) && Known(s) && DoAnswer(s, k, 0, payload) == Some(t)
    ensures OrderOk(t)
  {
    hide OrderOk, Known, GetI32, PutI32;
    AnsweredLine(s.conns[k], t.conns[k]);
    hide Line;
    SublineOfSame(Line(t.conns[k]), Line(s.conns[k]));
    hide Subline;
    ShrinkByConn(s, t, k);
  }

  lemma AnsweredLine(q: Conn, p: Conn)
    requires q.wire != [] && p.wire == q.wire[..0] + q.wire[1..] && |p.replies| == |q.replies| + 1
    requires p.replies[..|q.replies|] == q.replies && p.replies[|q.replies|].num == q.wire[0].num
    requires p.queue == q.queue && p.inbox == q.inbox && p.reader == q.reader
    ensures Line(p) == Line(q)
  {
    assert Nums(p.replies) == Nums(q.replies) + [q.wire[0].num];
    assert Nums(q.wire) == [q.wire[0].num] + Nums(p.wire);
    hide Nums;
  }

  lemma IgnoreOrder(s: State, k: nat, t: State)
    requires OrderOk(s) && Known(s) && DoIgnore(s, k) == Some(t)
    ensures OrderOk(t)
  {
    hide OrderOk, Known;
    IgnoredLine(s.conns[k], t.conns[k]);
    hide Line, Subline;
    ShrinkByConn(s, t, k);
  }

  lemma IgnoredLine(q: Conn, p: Conn)
    requires q.wire != [] && p == q.(wire := q.wire[1..])
    ensures Subline(Line(p), Line(q))
  {
    var front := (if q.reader.Resting? then [] else [q.reader.num]) + Nums(q.inbox) + Nums(q.replies);
    var back := Nums(p.wire) + Nums(q.queue);
    assert Nums(q.wire) == [q.wire[0].num] + Nums(p.wire);
    assert Line(q) == front + ([q.wire[0].num] + back);
    assert Line(p) == front + back;
    hide Line, Nums, Subline;
    SublineDrop(Line(p), Line(q), |front|);
  }

  lemma FetchOrder(s: State, k: nat, t: State)
    requires OrderOk(s) && Known(s) && DoFetch(s, k) == Some(t)
    ensures OrderOk(t)
  {
    hide OrderOk, Known, ParseResponseCid, Line;
    FetchedLine(s.conns[k], t.conns[k]);
    hide Subline;
    ShrinkByConn(s, t, k);
  }

  lemma FetchedLine(q: Conn, p: Conn)
    requires q.reader.Resting? && q.inbox != [] && p == q.(inbox := q.inbox[1..], reader := p.reader)
    requires p.reader.Resting? || p.reader.num == q.inbox[0].num
    ensures Subline(Line(p), Line(q))
  {
    var x := q.inbox[0].num;
    assert Nums(q.inbox) == [x] + Nums(p.inbox);
    hide Nums;
    var back := Nums(p.inbox) + Nums(q.replies) + Nums(q.wire) + Nums(q.queue);
    Regroup([x], Nums(p.inbox), Nums(q.replies), Nums(q.wire), Nums(q.queue));
    Regroup([], Nums(p.inbox), Nums(q.replies), Nums(q.wire), Nums(q.queue));
    assert [] + Nums(q.inbox) == [x] + Nums(p.inbox);
    assert Line(q) == [x] + back;
    assert Line(p) == if p.reader.Resting? then back else [x] + back;
    hide Line;
    if p.reader.Resting? {
      SublineDrop(Line(p), Line(q), 0);
    } else {
      SublineOfSame(Line(p), Line(q));
    }
  }

  lemma DeliverLine(q: Conn, p: Conn)
    requires !q.reader.Resting? && p == q.(reader := Resting)
    ensures Line(q) == [q.reader.num] + Line(p)
  {
  }

  lemma DeliverOrder(s: State, k: nat, t: State)
    requires OrderOk(s) && Known(s) && Inv(s) && DoDeliver(s, k) == Some(t)
    ensures OrderOk(t)
  {
    hide OrderOk, Known, Line;
    var q := s.conns[k];
    var n, c := q.reader.num, q.reader.entry.client;
    var frame := DeliverFacts(s, k, t);
    hide DoDeliver, Inv;
    DeliverLine(q, t.conns[k]);
    if t.relays == s.relays {
      SublineDrop(Line(t.conns[k]), Line(q), 0);
      hide Subline;
      ShrinkByConn(s, t, k);
    } else {
      DeliveredOrder(s, t, c, k, n, frame);
    }
  }

  lemma OnlyThese(s: State, t: State, c: nat, k: nat)
    requires Elsewhere(s, t, c, k) && k in s.conns
    ensures k in t.conns && t.conns == s.conns[k := t.conns[k]]
    ensures c in s.relays ==> c in t.relays && t.relays == s.relays[c := t.relays[c]]
  {
  }

  lemma DeliverFacts(s: State, k: nat, t: State) returns (frame: Bytes)
    requires Inv(s) && DoDeliver(s, k) == Some(t)
    ensures var n, c := s.conns[k].reader.num, s.conns[k].reader.entry.client;
            && k in s.conns && !s.conns[k].reader.Resting?
            && n < |s.log| && ConnOf(s.log, n) == k && SameConnOf(s, t)
            && k in t.conns && t.conns == s.conns[k := t.conns[k]] && t.conns[k] == s.conns[k].(reader := Resting)
            && (t.relays == s.relays
                || (c in s.relays
                    && t.relays == s.relays[c := s.relays[c].(resp := s.relays[c].resp + [Delivery(n, frame)])]))
  {
    InvConn(s, k);
    hide Inv, ItemsOk, CidOf, ParseResponseCid, RouteResponse;
    var d := s.conns[k].reader;
    assert d.num < |s.log| && s.log[d.num].conn == k;
    hide ConnOk, ReaderOk;
    frame := RouteResponse(d.data, d.entry.cidD, d.entry.apiKey, d.entry.version, s.rewriteMap);
    DeliverEffect(s, k, t, d.num, d.entry.client, frame);
    OnlyThese(s, t, d.entry.client, k);
  }

  lemma DeliveredOrder(s: State, t: State, c: nat, k: nat, n: nat, frame: Bytes)
    requires OrderOk(s) && Known(s) && SameConnOf(s, t) && c in s.relays && k in s.conns && n < |s.log|
    requires ConnOf(s.log, n) == k
    requires t.relays == s.relays[c := s.relays[c].(resp := s.relays[c].resp + [Delivery(n, frame)])]
    requires k in t.conns && t.conns == s.conns[k := t.conns[k]] && Line(s.conns[k]) == [n] + Line(t.conns[k])
    ensures OrderOk(t)
  {
    var mid := WithConn(s, k, t.conns[k]).(log := t.log);
    hide Line, OrderOk, Known;
    SublineDrop(Line(t.conns[k]), Line(s.conns[k]), 0);
    ShrinkByConn(s, mid, k);
    HeadFirst(s, mid, c, k, n, frame);
    hide Deliveries, Increasing, Numbered;
    GainDelivery(mid, t, c, Delivery(n, frame));
  }

  /** The request at the head of a line may be delivered: it is ahead of the rest and behind what came before. */
  lemma HeadFirst(s: State, mid: State, c: nat, k: nat, n: nat, frame: Bytes)
    requires OrderOk(s) && Known(s) && c in s.relays && k in s.conns && ConnOf(s.log, n) == k && SameConnOf(s, mid) && n < |s.log|
    requires mid.relays == s.relays && k in mid.conns && mid.conns == s.conns[k := mid.conns[k]]
    requires Line(s.conns[k]) == [n] + Line(mid.conns[k])
    ensures DeliveredFirst(mid, [Delivery(n, frame)])
    ensures forall i :: 0 <= i < |Deliveries(s.relays[c])| && ConnOf(mid.log, Deliveries(s.relays[c])[i].num) == k
              ==> Deliveries(s.relays[c])[i].num < n
  {
    hide Line;
    var line := Line(s.conns[k]);
    assert line[0] == n && n in line && Increasing(line);
    assert RelayOrder(s, s.relays[c]);
    var ds := Deliveries(s.relays[c]);
    assert forall i :: 0 <= i < |ds| ==> ConnOf(mid.log, ds[i].num) == ConnOf(s.log, ds[i].num);
    assert DeliveredFirst(s, ds);
    forall x | x in Line(mid.conns[k]) ensures n < x {
      var j :| 0 <= j < |Line(mid.conns[k])| && Line(mid.conns[k])[j] == x;
      assert line[j + 1] == x;
    }
    forall d | d in s.relays && Numbered(s.relays[d].pc) && s.relays[d].lease == Some(k) ensures n < s.relays[d].pc.num {
      assert RelayOrder(s, s.relays[d]) && HolderLast(s, s.relays[d]);
    }
  }

  lemma GainDelivery(s: State, t: State, c: nat, x: Delivery)
    requires OrderOk(s) && c in s.relays && t.log == s.log && t.conns == s.conns
    requires t.relays == s.relays[c := s.relays[c].(resp := s.relays[c].resp + [x])]
    requires DeliveredFirst(s, [x])
    requires forall i :: 0 <= i < |Deliveries(s.relays[c])| && ConnOf(s.log, Deliveries(s.relays[c])[i].num) == ConnOf(s.log, x.num)
              ==> Deliveries(s.relays[c])[i].num < x.num
    ensures OrderOk(t)
  {
    hide Line, Increasing;
    forall d | d in t.relays ensures RelayOrder(t, t.relays[d]) {
      assert RelayOrder(s, s.relays[d]);
      SameFirst(s, t, Deliveries(s.relays[d]));
      if d == c {
        SameFirst(s, t, [x]);
        assert Deliveries(t.relays[c]) == Deliveries(s.relays[c]) + [x];
        FirstJoins(t, Deliveries(s.relays[c]), x);
      } else {
        assert Deliveries(t.relays[d]) == Deliveries(s.relays[d]);
      }
    }
  }

  lemma SameFirst(s: State, t: State, ds: seq<Delivery>)
    requires DeliveredFirst(s, ds) && t.log == s.log && t.conns == s.conns && t.relays.Keys == s.relays.Keys
    requires forall d :: d in s.relays ==> t.relays[d].pc == s.relays[d].pc && t.relays[d].lease == s.relays[d].lease
    ensures DeliveredFirst(t, ds)
  {
    hide Line;
  }

  lemma FirstJoins(t: State, ds: seq<Delivery>, x: Delivery)
    requires DeliveredFirst(t, ds) && DeliveredFirst(t, [x])
    ensures DeliveredFirst(t, ds + [x])
  {
    hide Line;
    var es := ds + [x];
    forall i | 0 <= i < |es|
      ensures es[i] == if i < |ds| then ds[i] else [x][0]
    {
    }
  }

  // ---- All steps ----

  lemma TaskOrder(s: State, c: nat, step: TaskStep, t: State)
    requires OrderOk(s) && Known(s) && Inv(s) && LeasesOk(s) && NextTask(s, c, step) == Some(t)
    ensures OrderOk(t)
  {
    hide OrderOk, Known, Inv, LeasesOk;
    hide DoConnect, DoReadFrame, DoEndInput, DoDecide, DoPushIdle, DoNotifyOne, DoTakeIdle, DoReserve, DoHandshake,
         DoAwait, DoTimeOut, DoCheck, DoLoad, DoSwap, DoPut, DoTallyMap, DoTallyRequest, DoSend, DoCancelTake,
         DoCancelTallyMap, DoCancelTallyRequest, DoForward, DoCloseResponses;
    match step {
      case Connect(node) => ConnectOrder(s, c, node, t);
      case ReadFrame(data) => ReadOrDecideOrder(s, c, data, false, t);
      case Decide(leaseOver) => ReadOrDecideOrder(s, c, [], leaseOver, t);
      case EndInput => EndOrder(s, c, t);
      case PushIdle => PoolOrder(s, c, t);
      case NotifyOne(woken) => NotifyOrder(s, c, woken, t);
      case TakeIdle => PoolOrder(s, c, t);
      case Reserve => WaitOrder(s, c, t);
      case Handshake(ok) => NextConnIsNew(s); HandshakeOrder(s, c, ok, t);
      case Await => WaitOrder(s, c, t);
      case TimeOut => EndOrder(s, c, t);
      case Check => EndOrder(s, c, t);
      case Load => LoadOrder(s, c, t);
      case Swap => SwapOrder(s, c, t);
      case Put => PutOrder(s, c, t);
      case TallyMap => LoadOrder(s, c, t);
      case TallyRequest => LoadOrder(s, c, t);
      case Send => SendOrder(s, c, t);
      case CancelTake => CancelOrder(s, c, t);
      case CancelTallyMap => CancelTallyOrder(s, c, t);
      case CancelTallyRequest => CancelTallyOrder(s, c, t);
      case Forward => ForwardOrder(s, c, t);
      case CloseResponses => ForwardOrder(s, c, t);
    }
  }

  lemma NextConnIsNew(s: State)
    requires LeasesOk(s)
    ensures s.nextConn !in s.conns
  {
    hide Exclusive, IdleOk, RelayLeaseOk;
  }

  lemma LinkOrder(s: State, k: nat, move: LinkStep, t: State)
    requires OrderOk(s) && Known(s) && Inv(s) && NextLink(s, k, move) == Some(t)
    requires move.Answer? ==> move.i == 0
    ensures OrderOk(t)
  {
    hide OrderOk, Known, Inv;
    hide DoWrite, DoBreak, DoSweep, DoSweepTallyMap, DoSweepTallyRequest, DoClose, DoReceive, DoAnswer, DoIgnore,
         DoFetch, DoReadTallyMap, DoReadTallyRequest, DoDeliver;
    match move {
      case Write => WriteOrder(s, k, t);
      case Break => BreakOrder(s, k, t);
      case Sweep => SweepOrder(s, k, t);
      case SweepTallyMap => SweepTallyOrder(s, k, t);
      case SweepTallyRequest => SweepTallyOrder(s, k, t);
      case Close => CloseOrder(s, k, t);
      case Receive => ReceiveOrder(s, k, t);
      case Answer(i, payload) => AnswerOrder(s, k, payload, t);
      case Ignore => IgnoreOrder(s, k, t);
      case Fetch => FetchOrder(s, k, t);
      case ReadTallyMap => ReadTallyOrder(s, k, t);
      case ReadTallyRequest => ReadTallyOrder(s, k, t);
      case Deliver => DeliverOrder(s, k, t);
    }
  }

  lemma SameKnown(s: State, t: State)
    requires Known(s) && t.relays == s.relays && t.conns == s.conns && t.log == s.log
    ensures Known(t)
  {
  }

  lemma ReaperOrder(s: State, n: NodeId, pass: ReaperStep, t: State)
    requires OrderOk(s) && Known(s) && NextReaping(s, n, pass) == Some(t)
    ensures OrderOk(t)
  {
    hide OrderOk, Known;
    if pass.ReapNotify? {
      var mid := WithPool(s, n, s.pools[n].(reaper := Asleep));
      SameOrder(s, mid);
      assert Known(mid) by {
        SameKnown(s, mid);
      }
      NotifiedOrder(mid, n, pass.woken, t);
    } else {
      SameOrder(s, t);
    }
  }

  /** The broker of this action, if it is an answer, answers the oldest frame it has. */
  ghost predicate InOrder(a: Action) {
    a.Link? && a.move.Answer? ==> a.move.i == 0
  }

  lemma NextOrder(s: State, a: Action, t: State)
    requires OrderOk(s) && Inv(s) && LeasesOk(s) && Next(s, a) == Some(t) && InOrder(a)
    ensures OrderOk(t)
  {
    InvKnown(s);
    hide OrderOk, Known, Inv, LeasesOk, NextTask, NextLink, NextReaping;
    match a {
      case Task(c, step) => TaskOrder(s, c, step, t);
      case Link(k, move) => LinkOrder(s, k, move, t);
      case Reaping(n, pass) => ReaperOrder(s, n, pass, t);
    }
  }

  ghost predicate IsFifoRun(states: seq<State>, actions: seq<Action>) {
    IsFreshRun(states, actions) && forall i :: 0 <= i < |actions| ==> InOrder(actions[i])
  }

  lemma {:induction false} RunOrder(states: seq<State>, actions: seq<Action>, i: nat)
    requires IsFifoRun(states, actions) && i < |states|
    ensures OrderOk(states[i])
    decreases i
  {
    hide OrderOk, Inv, LeasesOk, Next, Init, FreshAction;
    if i == 0 {
      InitOrder(states[0]);
    } else {
      RunOrder(states, actions, i - 1);
      RunInv(states, actions, i - 1);
      RunLeases(states, actions, i - 1);
      NextOrder(states[i - 1], actions[i - 1], states[i]);
    }
  }

  /** The requests queued, on the wire and being answered on one connection are in strictly
      increasing allocation order from the front of the line to the back. */
  lemma ConnectionsKeepOrder(states: seq<State>, actions: seq<Action>, i: nat, k: ConnId)
    requires IsFifoRun(states, actions) && i < |states| && k in states[i].conns
    ensures Increasing(Line(states[i].conns[k]))
  {
    RunOrder(states, actions, i);
    hide Line, RelayOrder;
  }

  /** Of the replies one client was handed, those that came from one connection are in the
      order of their requests, and every request still on that connection is later. */
  lemma RepliesKeepOrder(states: seq<State>, actions: seq<Action>, i: nat, c: nat)
    requires IsFifoRun(states, actions) && i < |states| && c in states[i].relays
    ensures var s := states[i];
            var ds := s.relays[c].out + s.relays[c].resp;
            && (forall a :: 0 <= a < |ds| ==> ds[a].num < |s.log| && s.log[ds[a].num].client == c)
            && (forall a, b :: 0 <= a < b < |ds| && s.log[ds[a].num].conn == s.log[ds[b].num].conn ==> ds[a].num < ds[b].num)
            && (forall a, k, x :: 0 <= a < |ds| && k == s.log[ds[a].num].conn && k in s.conns && x in Line(s.conns[k]) ==>
                  ds[a].num < x)
  {
    RunOrder(states, actions, i);
    RunInv(states, actions, i);
    var s := states[i];
    InvRelay(s, c);
    assert RelayOrder(s, s.relays[c]);
    hide Inv, Line, IsRun, OrderOk, CidOf, ParseResponseCid, Routed;
    assert Deliveries(s.relays[c]) == s.relays[c].out + s.relays[c].resp;
  }
}
