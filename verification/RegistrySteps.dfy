/** Every action keeps the registry invariant, provided no id is handed out
    while it is outstanding. */
module RegistrySteps {
  import opened Wire
  import opened Remap
  import opened Rewrite
  import opened Proxy
  import opened Registry

  // ---- Advancing one request ----

  /** The log after request n moved on: its fate, stage or reply may differ. */
  ghost predicate Advanced(log: seq<Request>, after: seq<Request>, n: nat) {
    && n < |log| == |after|
    && (forall i :: 0 <= i < |log| && i != n ==> after[i] == log[i])
    && after[n] == log[n].(fate := after[n].fate, stage := after[n].stage, reply := after[n].reply)
  }

  lemma ListKeeps(log: seq<Request>, after: seq<Request>, n: nat, k: nat, xs: seq<Sent>, stage: Stage)
    requires Advanced(log, after, n) && ItemsOk(log, k, xs, stage) && log[n].stage != stage
    ensures ItemsOk(after, k, xs, stage)
  {
    forall i | 0 <= i < |xs| ensures ItemOk(after, k, xs[i], stage) {
      assert ItemOk(log, k, xs[i], stage);
    }
  }

  lemma ListDrops(log: seq<Request>, after: seq<Request>, k: nat, xs: seq<Sent>, i: nat, stage: Stage)
    requires i < |xs| && ItemsOk(log, k, xs, stage) && Advanced(log, after, xs[i].num)
    ensures ItemsOk(after, k, xs[..i] + xs[i + 1..], stage)
  {
    var ys := xs[..i] + xs[i + 1..];
    forall j | 0 <= j < |ys| ensures ItemOk(after, k, ys[j], stage) {
      assert ItemOk(log, k, xs[if j < i then j else j + 1], stage);
    }
  }

  lemma ListTakes(log: seq<Request>, k: nat, xs: seq<Sent>, x: Sent, stage: Stage)
    requires ItemsOk(log, k, xs, stage) && ItemOk(log, k, x, stage)
    requires forall i :: 0 <= i < |xs| ==> xs[i].num != x.num
    ensures ItemsOk(log, k, xs + [x], stage)
  {
    hide ItemOk;
  }

  /** A request at another stage is not in the list. */
  lemma NotThere(log: seq<Request>, k: nat, xs: seq<Sent>, stage: Stage, n: nat)
    requires ItemsOk(log, k, xs, stage) && n < |log| && log[n].stage != stage
    ensures forall i :: 0 <= i < |xs| ==> xs[i].num != n
  {
    forall i | 0 <= i < |xs| ensures xs[i].num != n {
      assert ItemOk(log, k, xs[i], stage);
    }
  }

  /** A request that is not at the connection does not concern it. */
  lemma ConnKeeps(log: seq<Request>, after: seq<Request>, n: nat, k: nat, q: Conn)
    requires Advanced(log, after, n) && ConnOk(log, k, q)
    requires log[n].stage.Held? || log[n].stage.Lost? || log[n].stage.Delivered?
    ensures ConnOk(after, k, q)
  {
    ListKeeps(log, after, n, k, q.queue, Queued);
    ListKeeps(log, after, n, k, q.wire, OnWire);
    ListKeeps(log, after, n, k, q.replies, Answering);
    ListKeeps(log, after, n, k, q.inbox, Received);
  }

  lemma OtherListKeeps(log: seq<Request>, after: seq<Request>, n: nat, k: nat, xs: seq<Sent>, stage: Stage)
    requires Advanced(log, after, n) && ItemsOk(log, k, xs, stage) && log[n].conn != k
    ensures ItemsOk(after, k, xs, stage)
  {
    forall i | 0 <= i < |xs| ensures ItemOk(after, k, xs[i], stage) {
      assert ItemOk(log, k, xs[i], stage);
    }
  }

  lemma OtherConnKeeps(log: seq<Request>, after: seq<Request>, n: nat, k: nat, q: Conn)
    requires Advanced(log, after, n) && ConnOk(log, k, q) && log[n].conn != k
    ensures ConnOk(after, k, q)
  {
    OtherListKeeps(log, after, n, k, q.queue, Queued);
    OtherListKeeps(log, after, n, k, q.wire, OnWire);
    OtherListKeeps(log, after, n, k, q.replies, Answering);
    OtherListKeeps(log, after, n, k, q.inbox, Received);
  }

  lemma DeliveriesKeep(log: seq<Request>, after: seq<Request>, n: nat, c: nat, ds: seq<Delivery>, m: RewriteMap)
    requires Advanced(log, after, n) && DeliveredOk(log, c, ds, m)
    requires log[n].client != c || !log[n].stage.Delivered?
    ensures DeliveredOk(after, c, ds, m)
  {
    hide Routed;
  }

  lemma OtherRelayKeeps(log: seq<Request>, after: seq<Request>, n: nat, c: nat, r: Relay, m: RewriteMap)
    requires Advanced(log, after, n) && RelayOk(log, c, r, m)
    requires log[n].client != c || !(log[n].stage.Held? || log[n].stage.Delivered?)
    ensures RelayOk(after, c, r, m)
  {
    DeliveriesKeep(log, after, n, c, r.out + r.resp, m);
    hide DeliveredOk;
  }

  lemma DistinctKeeps(log: seq<Request>, after: seq<Request>, n: nat)
    requires Advanced(log, after, n) && DistinctCids(log)
    requires Outstanding(after[n]) ==> Outstanding(log[n])
    ensures DistinctCids(after)
  {
    hide Outstanding;
  }

  lemma RoutesKeep(log: seq<Request>, after: seq<Request>, n: nat, routes: Routes, owner: map<Int32, nat>)
    requires Advanced(log, after, n) && RoutesOk(log, routes, owner) && after[n].fate == log[n].fate
    ensures RoutesOk(after, routes, owner)
  {
  }

  /** Only relay c, connection k, the log and the registrations differ. */
  ghost predicate Elsewhere(s: State, t: State, c: nat, k: nat) {
    && t.nextCid == s.nextCid && t.rewriteMap == s.rewriteMap && t.nextConn == s.nextConn
    && t.relays.Keys == s.relays.Keys && t.conns.Keys == s.conns.Keys
    && (forall d :: d in t.relays && d != c ==> t.relays[d] == s.relays[d])
    && (forall j :: j in t.conns && j != k ==> t.conns[j] == s.conns[j])
  }

  lemma InvRelay(s: State, c: nat)
    requires Inv(s) && c in s.relays
    ensures RelayOk(s.log, c, s.relays[c], s.rewriteMap)
  {
    hide RelayOk;
    hide ConnOk;
    hide RoutesOk;
    hide DistinctCids;
    hide CounterAfter;
  }

  lemma InvConn(s: State, k: nat)
    requires Inv(s) && k in s.conns
    ensures k < s.nextConn && ConnOk(s.log, k, s.conns[k])
  {
    hide RelayOk;
    hide ConnOk;
    hide RoutesOk;
    hide DistinctCids;
    hide CounterAfter;
  }

  lemma InvBooks(s: State)
    requires Inv(s)
    ensures s.nextCid == CounterAfter(|s.log|)
    ensures RoutesOk(s.log, s.routes, s.owner) && DistinctCids(s.log)
  {
    hide RelayOk;
    hide ConnOk;
    hide RoutesOk;
    hide DistinctCids;
    hide CounterAfter;
  }

  /** One request moved on; only its own client's relay and its own connection changed with it. */
  lemma AdvanceInv(s: State, t: State, n: nat, c: nat, k: nat)
    requires Inv(s) && Advanced(s.log, t.log, n) && c == s.log[n].client && k == s.log[n].conn
    requires Elsewhere(s, t, c, k)
    requires RoutesOk(t.log, t.routes, t.owner)
    requires Outstanding(t.log[n]) ==> Outstanding(s.log[n])
    requires c in t.relays ==> RelayOk(t.log, c, t.relays[c], t.rewriteMap)
    requires k in t.conns ==> ConnOk(t.log, k, t.conns[k])
    ensures Inv(t)
  {
    hide RelayOk;
    hide ConnOk;
    hide RoutesOk;
    hide DistinctCids;
    hide Outstanding;
    hide CounterAfter;
    DistinctKeeps(s.log, t.log, n);
    forall d | d in t.relays ensures RelayOk(t.log, d, t.relays[d], t.rewriteMap) {
      if d != c {
        OtherRelayKeeps(s.log, t.log, n, d, s.relays[d], s.rewriteMap);
      }
    }
    forall j | j in t.conns ensures j < t.nextConn && ConnOk(t.log, j, t.conns[j]) {
      if j != k {
        OtherConnKeeps(s.log, t.log, n, j, s.conns[j]);
      }
    }
  }

  // ---- Allocation ----

  lemma ListExtends(log: seq<Request>, q: Request, k: nat, xs: seq<Sent>, stage: Stage)
    requires ItemsOk(log, k, xs, stage)
    ensures ItemsOk(log + [q], k, xs, stage)
  {
    forall i | 0 <= i < |xs| ensures ItemOk(log + [q], k, xs[i], stage) {
      assert ItemOk(log, k, xs[i], stage);
    }
  }

  lemma ConnExtends(log: seq<Request>, q: Request, k: nat, conn: Conn)
    requires ConnOk(log, k, conn)
    ensures ConnOk(log + [q], k, conn)
  {
    ListExtends(log, q, k, conn.queue, Queued);
    ListExtends(log, q, k, conn.wire, OnWire);
    ListExtends(log, q, k, conn.replies, Answering);
    ListExtends(log, q, k, conn.inbox, Received);
  }

  lemma DeliveriesExtend(log: seq<Request>, q: Request, c: nat, ds: seq<Delivery>, m: RewriteMap)
    requires DeliveredOk(log, c, ds, m)
    ensures DeliveredOk(log + [q], c, ds, m)
  {
    hide Routed;
  }

  lemma RelayExtends(log: seq<Request>, q: Request, c: nat, r: Relay, m: RewriteMap)
    requires RelayOk(log, c, r, m) && q.client != c
    ensures RelayOk(log + [q], c, r, m)
  {
    DeliveriesExtend(log, q, c, r.out + r.resp, m);
    hide DeliveredOk;
  }

  lemma RoutesExtend(log: seq<Request>, q: Request, routes: Routes, owner: map<Int32, nat>)
    requires RoutesOk(log, routes, owner) && q.fate.Drawn?
    ensures RoutesOk(log + [q], routes, owner)
  {
  }

  /** Handing out an id that is not outstanding keeps the outstanding ids distinct, and
      handing out one that is breaks them: freshness is exactly what the code relies on. */
  lemma FreshnessIsExact(log: seq<Request>, q: Request)
    requires DistinctCids(log) && q.fate.Drawn?
    ensures DistinctCids(log + [q]) <==> Fresh(log)
  {
    var after := log + [q];
    if DistinctCids(after) {
      forall a | 0 <= a < |log| && Outstanding(log[a]) ensures CidOf(a) != CidOf(|log|) {
        assert Outstanding(after[a]) && Outstanding(after[|log|]);
      }
    }
  }

  lemma SwapInv(s: State, c: nat, t: State)
    requires Inv(s) && DoSwap(s, c) == Some(t)
    requires SwapSucceeds(s, c) ==> Fresh(s.log)
    ensures Inv(t)
  {
    if !SwapSucceeds(s, c) {
      PlainRelayStep(s, c, t);
      return;
    }
    var r := s.relays[c];
    var q := t.log[|s.log|];
    assert RelayOk(s.log, c, r, s.rewriteMap);
    SwapKeepsCounter(s, c, t);
    FreshnessIsExact(s.log, q);
    RoutesExtend(s.log, q, s.routes, s.owner);
    SwappedRelayOk(s, c, t);
    hide RelayOk;
    hide ConnOk;
    hide RoutesOk;
    hide DistinctCids;
    forall d | d in t.relays ensures RelayOk(t.log, d, t.relays[d], t.rewriteMap) {
      if d != c {
        RelayExtends(s.log, q, d, s.relays[d], s.rewriteMap);
      }
    }
    forall k | k in t.conns ensures k < t.nextConn && ConnOk(t.log, k, t.conns[k]) {
      ConnExtends(s.log, q, k, s.conns[k]);
    }
  }

  lemma SwapKeepsCounter(s: State, c: nat, t: State)
    requires Inv(s) && SwapSucceeds(s, c) && DoSwap(s, c) == Some(t)
    ensures t.nextCid == CounterAfter(|t.log|) == CidOf(|s.log|) && |t.log| == |s.log| + 1
  {
    SwapCounts(|s.log|);
  }

  lemma SwappedRelayOk(s: State, c: nat, t: State)
    requires Inv(s) && SwapSucceeds(s, c) && DoSwap(s, c) == Some(t)
    ensures RelayOk(t.log, c, t.relays[c], t.rewriteMap)
  {
    var r := s.relays[c];
    SwapKeepsCounter(s, c, t);
    assert RelayOk(s.log, c, r, s.rewriteMap);
    DeliveriesExtend(s.log, t.log[|s.log|], c, r.out + r.resp, s.rewriteMap);
    hide DeliveredOk;
    hide CounterAfter;
  }

  // ---- Registering, sending, cancelling ----

  /** While request n is outstanding its id can only be registered to n itself. */
  lemma OwnerIs(s: State, n: nat)
    requires Inv(s) && n < |s.log| && Outstanding(s.log[n])
    ensures s.owner.Keys == s.routes.Keys
    ensures CidOf(n) in s.routes ==> s.owner[CidOf(n)] == n
  {
    hide RelayOk;
    hide ConnOk;
    hide CidOf;
    hide CounterAfter;
    if CidOf(n) in s.routes {
      var m := s.owner[CidOf(n)];
      assert CidOf(m) == CidOf(n) && Outstanding(s.log[m]);
      assert m < n || n < m || m == n;
    }
  }

  lemma PutEffect(s: State, c: nat, t: State, n: nat, k: nat)
    requires DoPut(s, c) == Some(t) && n == s.relays[c].pc.num && k == s.relays[c].lease.value && n < |s.log|
    ensures Elsewhere(s, t, c, k) && t.conns == s.conns
    ensures t.log == s.log[n := s.log[n].(fate := Registered, stage := Held)] && Advanced(s.log, t.log, n)
    ensures t.relays[c] == s.relays[c].(pc := Listed(s.relays[c].pc.data, s.relays[c].pc.cidU, n))
    ensures t.owner == s.owner[s.relays[c].pc.cidU := n]
    ensures ParseRequestHeader(s.relays[c].pc.data).Some?
    ensures var h := ParseRequestHeader(s.relays[c].pc.data).value;
            t.routes == s.routes[s.relays[c].pc.cidU := Entry(c, h.cid, h.apiKey, h.version, k)]
  {
    hide ParseRequestHeader;
  }

  lemma PutRoutes(log: seq<Request>, after: seq<Request>, routes: Routes, owner: map<Int32, nat>, n: nat)
    requires RoutesOk(log, routes, owner) && n < |log| && CidOf(n) !in routes && log[n].fate.Drawn?
    requires after == log[n := log[n].(fate := Registered, stage := Held)]
    ensures RoutesOk(after, routes[CidOf(n) := EntryOf(after[n])], owner[CidOf(n) := n])
  {
    hide CidOf;
  }

  /** The id about to be registered has no registration yet. */
  lemma PutIsFirst(s: State, c: nat)
    requires Inv(s) && c in s.relays && s.relays[c].pc.Drew?
    ensures var n := s.relays[c].pc.num;
            && n < |s.log| && s.relays[c].pc.cidU == CidOf(n) && CidOf(n) !in s.routes
            && s.log[n].fate.Drawn? && s.log[n].stage.Held? && s.log[n].client == c
  {
    InvRelay(s, c);
    var n := s.relays[c].pc.num;
    assert n < |s.log| && Outstanding(s.log[n]) && s.log[n].fate.Drawn? && s.relays[c].pc.cidU == CidOf(n) by {
      hide Inv, LoadOk, DeliveredOk, CidOf, ParseRequestHeader;
    }
    OwnerIs(s, n);
    InvBooks(s);
    hide Inv, LoadOk, DeliveredOk, CidOf, ParseRequestHeader, DistinctCids, CounterAfter, Outstanding;
  }

  /** The relay after its registration. */
  lemma ListedRelay(log: seq<Request>, after: seq<Request>, c: nat, r: Relay, m: RewriteMap)
    requires RelayOk(log, c, r, m) && r.pc.Drew? && r.lease.Some?
    requires after == log[r.pc.num := log[r.pc.num].(fate := Registered, stage := Held)]
    ensures Advanced(log, after, r.pc.num) && r.lease == Some(log[r.pc.num].conn) && HeaderOk(log[r.pc.num])
    ensures log[r.pc.num].data == r.pc.data
    ensures RelayOk(after, c, r.(pc := Listed(r.pc.data, r.pc.cidU, r.pc.num)), m)
  {
    hide CidOf, ParseRequestHeader;
    DeliveriesKeep(log, after, r.pc.num, c, r.out + r.resp, m);
    hide DeliveredOk;
  }

  lemma PutInv(s: State, c: nat, t: State)
    requires Inv(s) && DoPut(s, c) == Some(t)
    ensures Inv(t)
  {
    InvRelay(s, c);
    PutIsFirst(s, c);
    InvBooks(s);
    var r := s.relays[c];
    var n, k := r.pc.num, r.lease.value;
    PutEffect(s, c, t, n, k);
    ListedRelay(s.log, t.log, c, r, s.rewriteMap);
    hide Inv, DoPut, CidOf, CounterAfter, DistinctCids, ParseRequestHeader, RelayOk;
    PutRoutes(s.log, t.log, s.routes, s.owner, n);
    hide RoutesOk;
    if k in s.conns {
      InvConn(s, k);
      ConnKeeps(s.log, t.log, n, k, s.conns[k]);
    }
    hide ConnOk;
    AdvanceInv(s, t, n, c, k);
  }

  lemma SendRefused(s: State, c: nat, t: State, n: nat, k: nat)
    requires DoSend(s, c) == Some(t) && n == s.relays[c].pc.num && k == s.relays[c].lease.value
    requires s.conns[k].phase.Gone?
    ensures SameBooks(s, t) && t.conns == s.conns && t.nextConn == s.nextConn
    ensures t.relays == s.relays[c := t.relays[c]]
    ensures t.relays[c] == s.relays[c].(pc := Cancelling(s.relays[c].pc.cidU, n), lease := None,
                                        dropped := s.relays[c].dropped + 1)
  {
    hide Forwarded;
  }

  lemma SendQueued(s: State, c: nat, t: State, n: nat, k: nat)
    requires DoSend(s, c) == Some(t) && n == s.relays[c].pc.num && k == s.relays[c].lease.value && n < |s.log|
    requires !s.conns[k].phase.Gone?
    ensures t.routes == s.routes && t.owner == s.owner && Elsewhere(s, t, c, k)
    ensures t.log == s.log[n := s.log[n].(stage := Queued)] && Advanced(s.log, t.log, n)
    ensures t.relays[c] == s.relays[c].(pc := Reading)
    ensures |s.relays[c].pc.data| >= 8
    ensures t.conns[k] == s.conns[k].(queue := s.conns[k].queue + [Sent(n, Forwarded(s.relays[c].pc.data, s.relays[c].pc.cidU))])
  {
    hide Forwarded;
  }

  lemma EnqueuedConn(log: seq<Request>, after: seq<Request>, n: nat, k: nat, q: Conn)
    requires ConnOk(log, k, q) && n < |log| && log[n].conn == k && log[n].stage.Held? && log[n].reply.None?
    requires HeaderOk(log[n])
    requires after == log[n := log[n].(stage := Queued)]
    ensures ConnOk(after, k, q.(queue := q.queue + [Sent(n, Forwarded(log[n].data, CidOf(n)))]))
  {
    ConnKeeps(log, after, n, k, q);
    NotThere(log, k, q.queue, Queued, n);
    ListTakes(after, k, q.queue, Sent(n, Forwarded(log[n].data, CidOf(n))), Queued);
  }

  /** The relay after its frame was queued or refused. */
  lemma SentRelay(log: seq<Request>, after: seq<Request>, c: nat, r: Relay, m: RewriteMap)
    requires RelayOk(log, c, r, m) && r.pc.Sending? && r.lease.Some?
    requires after == log[r.pc.num := log[r.pc.num].(stage := Queued)]
    ensures Advanced(log, after, r.pc.num) && log[r.pc.num].client == c && r.lease == Some(log[r.pc.num].conn)
    ensures RelayOk(after, c, r.(pc := Reading), m)
    ensures RelayOk(log, c, r.(pc := Cancelling(r.pc.cidU, r.pc.num), lease := None, dropped := r.dropped + 1), m)
  {
    hide CidOf;
    hide ParseRequestHeader;
    DeliveriesKeep(log, after, r.pc.num, c, r.out + r.resp, m);
    hide DeliveredOk;
  }

  lemma SendInv(s: State, c: nat, t: State)
    requires Inv(s) && DoSend(s, c) == Some(t)
    ensures Inv(t)
  {
    InvRelay(s, c);
    var r := s.relays[c];
    var n, k := r.pc.num, r.lease.value;
    var after := s.log[n := s.log[n].(stage := Queued)];
    SentRelay(s.log, after, c, r, s.rewriteMap);
    InvBooks(s);
    InvConn(s, k);
    hide Inv;
    hide CidOf;
    hide CounterAfter;
    hide ParseRequestHeader;
    hide Forwarded;
    hide DistinctCids;
    hide DeliveredOk;
    hide LoadOk;
    if s.conns[k].phase.Gone? {
      hide NumberOk;
      hide RoutesOk;
      hide ConnOk;
      SendRefused(s, c, t, n, k);
      hide DoSend;
      RelayStep(s, c, t);
    } else {
      SendQueued(s, c, t, n, k);
      hide DoSend;
      RoutesKeep(s.log, t.log, n, s.routes, s.owner);
      hide RoutesOk;
      EnqueuedConn(s.log, t.log, n, k, s.conns[k]);
      hide ConnOk;
      hide NumberOk;
      hide RelayOk;
      AdvanceInv(s, t, n, c, k);
    }
  }

  /** Taking request n's registration, if it has one, and settling n. */
  lemma SettleRoutes(log: seq<Request>, after: seq<Request>, routes: Routes, owner: map<Int32, nat>, n: nat)
    requires RoutesOk(log, routes, owner) && Advanced(log, after, n)
    requires CidOf(n) in routes ==> owner[CidOf(n)] == n && !after[n].fate.Registered?
    requires CidOf(n) !in routes ==> after[n].fate == log[n].fate
    ensures RoutesOk(after, routes - {CidOf(n)}, owner - {CidOf(n)})
  {
    hide CidOf;
  }

  lemma CancelEffect(s: State, c: nat, t: State, n: nat, cid: Int32)
    requires DoCancelTake(s, c) == Some(t) && n == s.relays[c].pc.num && cid == s.relays[c].pc.cidU && n < |s.log|
    requires s.owner.Keys == s.routes.Keys && (cid in s.routes ==> s.owner[cid] == n)
    ensures Elsewhere(s, t, c, 0) && t.conns == s.conns
    ensures t.routes == s.routes - {cid} && t.owner == s.owner - {cid}
    ensures t.log == s.log[n := s.log[n].(stage := Lost, fate := if cid in s.routes then Cancelled else s.log[n].fate)]
    ensures Advanced(s.log, t.log, n)
    ensures t.relays[c] == s.relays[c].(pc := if cid in s.routes then CancelledMap else Ended)
  {
  }

  lemma CancelledRelay(log: seq<Request>, after: seq<Request>, c: nat, r: Relay, m: RewriteMap, pc: Pc)
    requires RelayOk(log, c, r, m) && r.pc.Cancelling? && Advanced(log, after, r.pc.num) && after[r.pc.num].stage.Lost?
    requires pc.CancelledMap? || pc.Ended?
    ensures RelayOk(after, c, r.(pc := pc), m)
  {
    hide CidOf;
    hide ParseRequestHeader;
    DeliveriesKeep(log, after, r.pc.num, c, r.out + r.resp, m);
    hide DeliveredOk;
  }

  lemma CancelRoutes(s: State, c: nat, t: State, n: nat)
    requires Inv(s) && DoCancelTake(s, c) == Some(t) && c in s.relays && n == s.relays[c].pc.num && n < |s.log|
    requires s.relays[c].pc.cidU == CidOf(n) && Outstanding(s.log[n])
    ensures RoutesOk(t.log, t.routes, t.owner)
  {
    OwnerIs(s, n);
    InvBooks(s);
    CancelEffect(s, c, t, n, CidOf(n));
    hide Inv;
    hide DoCancelTake;
    hide CidOf;
    hide CounterAfter;
    hide DistinctCids;
    SettleRoutes(s.log, t.log, s.routes, s.owner, n);
  }

  lemma CancelInv(s: State, c: nat, t: State)
    requires Inv(s) && DoCancelTake(s, c) == Some(t)
    ensures Inv(t)
  {
    InvRelay(s, c);
    var r := s.relays[c];
    var n := r.pc.num;
    var k := s.log[n].conn;
    assert Outstanding(s.log[n]) && r.pc.cidU == CidOf(n);
    hide Outstanding;
    hide CidOf;
    hide Inv;
    hide RoutesOk;
    hide DeliveredOk;
    hide LoadOk;
    OwnerIs(s, n);
    CancelRoutes(s, c, t, n);
    CancelEffect(s, c, t, n, CidOf(n));
    CancelledRelay(s.log, t.log, c, r, s.rewriteMap, t.relays[c].pc);
    if k in s.conns {
      InvConn(s, k);
      ConnKeeps(s.log, t.log, n, k, s.conns[k]);
    }
    hide DoCancelTake;
    hide ConnOk;
    hide NumberOk;
    hide RelayOk;
    AdvanceInv(s, t, n, c, k);
  }

  // ---- The write loop and the broker ----

  /** A request that leaves one place of its connection for the next. */
  lemma ConnAdvance(s: State, t: State, k: nat, n: nat)
    requires Inv(s) && Advanced(s.log, t.log, n)
    requires k in s.conns && k in t.conns && t.conns == s.conns[k := t.conns[k]] && s.log[n].conn == k
    requires SameRest(s, t) && t.log[n].fate == s.log[n].fate
    requires s.log[n].stage.Queued? || s.log[n].stage.OnWire? || s.log[n].stage.Answering?
    requires ConnOk(t.log, k, t.conns[k])
    ensures Inv(t)
  {
    InvBooks(s);
    assert Outstanding(s.log[n]);
    hide Inv, ConnOk, DistinctCids, CounterAfter, RelayOk, Outstanding, CidOf;
    RoutesKeep(s.log, t.log, n, s.routes, s.owner);
    hide RoutesOk;
    SenderKeeps(s, t, n);
    AdvanceInv(s, t, n, s.log[n].client, k);
  }

  /** A request under way on its connection does not concern its sender's relay. */
  lemma SenderKeeps(s: State, t: State, n: nat)
    requires Inv(s) && Advanced(s.log, t.log, n) && t.relays == s.relays && t.rewriteMap == s.rewriteMap
    requires s.log[n].stage.Queued? || s.log[n].stage.OnWire? || s.log[n].stage.Answering?
    ensures var c := s.log[n].client; c in t.relays ==> RelayOk(t.log, c, t.relays[c], t.rewriteMap)
  {
    hide RelayOk;
    var c := s.log[n].client;
    if c in s.relays {
      InvRelay(s, c);
      hide Inv;
      OtherRelayKeeps(s.log, t.log, n, c, s.relays[c], s.rewriteMap);
    }
  }

  ghost predicate SameRest(s: State, t: State) {
    && t.nextCid == s.nextCid && t.rewriteMap == s.rewriteMap && t.nextConn == s.nextConn
    && t.routes == s.routes && t.owner == s.owner && t.relays == s.relays
  }

  lemma WrittenConn(log: seq<Request>, after: seq<Request>, k: nat, q: Conn, x: Sent)
    requires ConnOk(log, k, q) && q.queue != [] && x == q.queue[0]
    requires x.num < |log| && after == log[x.num := log[x.num].(stage := OnWire)]
    ensures log[x.num].conn == k && log[x.num].stage.Queued? && Advanced(log, after, x.num)
    ensures ConnOk(after, k, q.(queue := q.queue[1..], wire := q.wire + [x]))
  {
    assert ItemOk(log, k, x, Queued);
    hide Forwarded;
    hide CidOf;
    assert q.queue[1..] == q.queue[..0] + q.queue[0 + 1..];
    ListDrops(log, after, k, q.queue, 0, Queued);
    NotThere(log, k, q.wire, OnWire, x.num);
    ListKeeps(log, after, x.num, k, q.wire, OnWire);
    ListTakes(after, k, q.wire, x, OnWire);
    ListKeeps(log, after, x.num, k, q.replies, Answering);
    ListKeeps(log, after, x.num, k, q.inbox, Received);
    hide ItemsOk;
  }

  lemma WriteInv(s: State, k: nat, t: State)
    requires Inv(s) && DoWrite(s, k) == Some(t)
    ensures Inv(t)
  {
    InvConn(s, k);
    var q := s.conns[k];
    var x := q.queue[0];
    assert ItemOk(s.log, k, x, Queued);
    hide Inv;
    hide ItemsOk;
    WrittenConn(s.log, t.log, k, q, x);
    hide ConnOk;
    ConnAdvance(s, t, k, x.num);
  }

  lemma IgnoredConn(log: seq<Request>, after: seq<Request>, k: nat, q: Conn, x: Sent)
    requires ConnOk(log, k, q) && q.wire != [] && x == q.wire[0]
    requires x.num < |log| && after == log[x.num := log[x.num].(stage := Lost)]
    ensures log[x.num].conn == k && log[x.num].stage.OnWire? && Advanced(log, after, x.num)
    ensures ConnOk(after, k, q.(wire := q.wire[1..]))
  {
    assert ItemOk(log, k, x, OnWire);
    hide Forwarded;
    hide CidOf;
    assert q.wire[1..] == q.wire[..0] + q.wire[0 + 1..];
    ListDrops(log, after, k, q.wire, 0, OnWire);
    ListKeeps(log, after, x.num, k, q.queue, Queued);
    ListKeeps(log, after, x.num, k, q.replies, Answering);
    ListKeeps(log, after, x.num, k, q.inbox, Received);
    hide ItemsOk;
  }

  lemma IgnoreInv(s: State, k: nat, t: State)
    requires Inv(s) && DoIgnore(s, k) == Some(t)
    ensures Inv(t)
  {
    InvConn(s, k);
    var q := s.conns[k];
    var x := q.wire[0];
    assert ItemOk(s.log, k, x, OnWire);
    hide Inv;
    hide ItemsOk;
    IgnoredConn(s.log, t.log, k, q, x);
    hide ConnOk;
    ConnAdvance(s, t, k, x.num);
  }

  lemma ReceivedConn(log: seq<Request>, after: seq<Request>, k: nat, q: Conn, x: Sent)
    requires ConnOk(log, k, q) && q.replies != [] && x == q.replies[0]
    requires x.num < |log| && after == log[x.num := log[x.num].(stage := Received)]
    ensures log[x.num].conn == k && log[x.num].stage.Answering? && Advanced(log, after, x.num)
    ensures ConnOk(after, k, q.(replies := q.replies[1..], inbox := q.inbox + [x]))
  {
    assert ItemOk(log, k, x, Answering);
    hide ParseResponseCid;
    hide CidOf;
    assert q.replies[1..] == q.replies[..0] + q.replies[0 + 1..];
    ListDrops(log, after, k, q.replies, 0, Answering);
    NotThere(log, k, q.inbox, Received, x.num);
    ListKeeps(log, after, x.num, k, q.inbox, Received);
    ListTakes(after, k, q.inbox, x, Received);
    ListKeeps(log, after, x.num, k, q.queue, Queued);
    ListKeeps(log, after, x.num, k, q.wire, OnWire);
    hide ItemsOk;
  }

  lemma ReceiveInv(s: State, k: nat, t: State)
    requires Inv(s) && DoReceive(s, k) == Some(t)
    ensures Inv(t)
  {
    InvConn(s, k);
    var q := s.conns[k];
    var x := q.replies[0];
    assert ItemOk(s.log, k, x, Answering);
    hide Inv;
    hide ItemsOk;
    ReceivedConn(s.log, t.log, k, q, x);
    hide ConnOk;
    ConnAdvance(s, t, k, x.num);
  }

  lemma ForwardedCid(data: Bytes, cidU: Int32)
    requires |data| >= 8
    ensures |Forwarded(data, cidU)| == |data| && GetI32(Forwarded(data, cidU)[4..]) == cidU
  {
    assert Forwarded(data, cidU)[4..] == PutI32(cidU) + data[8..];
    I32RoundTrip(cidU, data[8..]);
  }

  lemma AnsweredConn(log: seq<Request>, after: seq<Request>, k: nat, q: Conn, i: nat, y: Sent)
    requires ConnOk(log, k, q) && i < |q.wire| && y.num == q.wire[i].num && y.num < |log|
    requires after == log[y.num := log[y.num].(stage := Answering, reply := Some(y.frame))]
    requires ParseResponseCid(y.frame) == Some(CidOf(y.num))
    ensures log[y.num].conn == k && log[y.num].stage.OnWire? && Advanced(log, after, y.num)
    ensures ConnOk(after, k, q.(wire := q.wire[..i] + q.wire[i + 1..], replies := q.replies + [y]))
  {
    assert ItemOk(log, k, q.wire[i], OnWire);
    hide Forwarded;
    hide ParseResponseCid;
    hide CidOf;
    ListDrops(log, after, k, q.wire, i, OnWire);
    NotThere(log, k, q.replies, Answering, y.num);
    ListKeeps(log, after, y.num, k, q.replies, Answering);
    ListTakes(after, k, q.replies, y, Answering);
    ListKeeps(log, after, y.num, k, q.queue, Queued);
    ListKeeps(log, after, y.num, k, q.inbox, Received);
    hide ItemsOk;
  }

  lemma AnswerInv(s: State, k: nat, i: nat, payload: Bytes, t: State)
    requires Inv(s) && DoAnswer(s, k, i, payload) == Some(t)
    ensures Inv(t)
  {
    InvConn(s, k);
    var q := s.conns[k];
    var x := q.wire[i];
    assert ItemOk(s.log, k, x, OnWire);
    ForwardedCid(s.log[x.num].data, CidOf(x.num));
    I32RoundTrip(CidOf(x.num), payload);
    hide Inv;
    hide ItemsOk;
    hide Forwarded;
    hide CidOf;
    AnsweredConn(s.log, t.log, k, q, i, Sent(x.num, PutI32(CidOf(x.num)) + payload));
    hide ConnOk;
    ConnAdvance(s, t, k, x.num);
  }

  // ---- The read loop ----

  /** What a fetch does once its id is known and found to belong to the reply's own request. */
  lemma FetchEffect(s: State, k: nat, t: State, n: nat, cid: Int32)
    requires DoFetch(s, k) == Some(t) && n == s.conns[k].inbox[0].num && n < |s.log|
    requires ParseResponseCid(s.conns[k].inbox[0].frame) == Some(cid)
    requires s.owner.Keys == s.routes.Keys && (cid in s.routes ==> s.owner[cid] == n)
    ensures Elsewhere(s, t, 0, k) && t.relays == s.relays && Advanced(s.log, t.log, n)
    ensures t.routes == s.routes - {cid} && t.owner == s.owner - {cid}
    ensures var q := s.conns[k];
            if cid in s.routes
            then && t.log == s.log[n := s.log[n].(fate := Answered, stage := Fetched)]
                 && t.conns[k] == q.(inbox := q.inbox[1..], reader := TookMap(n, s.routes[cid], q.inbox[0].frame))
            else && t.log == s.log[n := s.log[n].(stage := Lost)]
                 && t.conns[k] == q.(inbox := q.inbox[1..])
  {
    hide ParseResponseCid;
  }

  lemma FetchedConn(log: seq<Request>, after: seq<Request>, k: nat, q: Conn, x: Sent, reader: Reader)
    requires ConnOk(log, k, q) && q.inbox != [] && x == q.inbox[0] && Advanced(log, after, x.num)
    requires ReaderOk(after, k, reader)
    ensures ConnOk(after, k, q.(inbox := q.inbox[1..], reader := reader))
  {
    assert ItemOk(log, k, x, Received);
    hide ParseResponseCid;
    hide CidOf;
    assert q.inbox[1..] == q.inbox[..0] + q.inbox[0 + 1..];
    ListDrops(log, after, k, q.inbox, 0, Received);
    ListKeeps(log, after, x.num, k, q.queue, Queued);
    ListKeeps(log, after, x.num, k, q.wire, OnWire);
    ListKeeps(log, after, x.num, k, q.replies, Answering);
    hide ItemsOk;
    hide ReaderOk;
  }

  lemma FetchRoutes(s: State, k: nat, t: State, n: nat)
    requires Inv(s) && DoFetch(s, k) == Some(t) && n == s.conns[k].inbox[0].num && n < |s.log|
    requires ParseResponseCid(s.conns[k].inbox[0].frame) == Some(CidOf(n)) && s.log[n].stage.Received?
    ensures RoutesOk(t.log, t.routes, t.owner)
    ensures CidOf(n) in s.routes ==> s.routes[CidOf(n)] == EntryOf(s.log[n])
  {
    OwnerIs(s, n);
    InvBooks(s);
    FetchEffect(s, k, t, n, CidOf(n));
    hide Inv;
    hide DoFetch;
    hide ParseResponseCid;
    hide CidOf;
    hide CounterAfter;
    hide DistinctCids;
    SettleRoutes(s.log, t.log, s.routes, s.owner, n);
  }

  /** The registration a reply finds is its own request's. */
  lemma FetchReader(log: seq<Request>, k: nat, x: Sent)
    requires ItemOk(log, k, x, Received)
    ensures ReaderOk(log[x.num := log[x.num].(fate := Answered, stage := Fetched)], k,
                     TookMap(x.num, EntryOf(log[x.num]), x.frame))
    ensures Outstanding(log[x.num]) && ParseResponseCid(x.frame) == Some(CidOf(x.num))
    ensures log[x.num].conn == k && log[x.num].stage.Received?
  {
    hide ParseResponseCid;
    hide CidOf;
  }

  /** The registration a reply finds is its own request's. */
  lemma FetchInv(s: State, k: nat, t: State)
    requires Inv(s) && DoFetch(s, k) == Some(t)
    ensures Inv(t)
  {
    InvConn(s, k);
    var q := s.conns[k];
    var x := q.inbox[0];
    var n := x.num;
    assert ItemOk(s.log, k, x, Received);
    var c := s.log[n].client;
    hide ItemOk;
    hide ItemsOk;
    hide Inv;
    hide ParseResponseCid;
    hide CidOf;
    hide Outstanding;
    hide RoutesOk;
    FetchReader(s.log, k, x);
    OwnerIs(s, n);
    FetchEffect(s, k, t, n, CidOf(n));
    FetchRoutes(s, k, t, n);
    hide DoFetch;
    FetchedConn(s.log, t.log, k, q, x, t.conns[k].reader);
    hide ConnOk;
    hide ReaderOk;
    hide RelayOk;
    if c in s.relays {
      InvRelay(s, c);
      OtherRelayKeeps(s.log, t.log, n, c, s.relays[c], s.rewriteMap);
    }
    AdvanceInv(s, t, n, c, k);
  }

  lemma DeliverEffect(s: State, k: nat, t: State, n: nat, c: nat, frame: Bytes)
    requires DoDeliver(s, k) == Some(t) && n == s.conns[k].reader.num && n < |s.log| && c == s.conns[k].reader.entry.client
    requires var d := s.conns[k].reader;
             |d.data| >= 4 && frame == RouteResponse(d.data, d.entry.cidD, d.entry.apiKey, d.entry.version, s.rewriteMap)
    ensures Elsewhere(s, t, c, k) && t.routes == s.routes && t.owner == s.owner && Advanced(s.log, t.log, n)
    ensures t.conns[k] == s.conns[k].(reader := Resting)
    ensures || (t.relays == s.relays && t.log == s.log[n := s.log[n].(stage := Lost)])
            || (&& c in s.relays && t.log == s.log[n := s.log[n].(stage := Delivered)]
                && t.relays[c] == s.relays[c].(resp := s.relays[c].resp + [Delivery(n, frame)]))
  {
    hide RouteResponse;
  }

  lemma ReadOutConn(log: seq<Request>, after: seq<Request>, n: nat, k: nat, q: Conn)
    requires ConnOk(log, k, q) && Advanced(log, after, n) && log[n].stage.Fetched?
    ensures ConnOk(after, k, q.(reader := Resting))
  {
    hide CidOf;
    hide ParseResponseCid;
    ListKeeps(log, after, n, k, q.queue, Queued);
    ListKeeps(log, after, n, k, q.wire, OnWire);
    ListKeeps(log, after, n, k, q.replies, Answering);
    ListKeeps(log, after, n, k, q.inbox, Received);
    hide ItemsOk;
  }

  lemma DeliveryTakes(log: seq<Request>, after: seq<Request>, c: nat, ds: seq<Delivery>, n: nat, frame: Bytes, m: RewriteMap)
    requires DeliveredOk(log, c, ds, m) && n < |log| && log[n].stage.Fetched?
    requires after == log[n := log[n].(stage := Delivered)]
    requires log[n].client == c && log[n].fate.Answered? && log[n].reply.Some?
    requires ParseResponseCid(log[n].reply.value) == Some(CidOf(n)) && frame == Routed(log[n], m)
    ensures DeliveredOk(after, c, ds + [Delivery(n, frame)], m)
  {
    hide RouteResponse;
    hide CidOf;
    DeliveriesKeep(log, after, n, c, ds, m);
    var es := ds + [Delivery(n, frame)];
    forall i | 0 <= i < |ds| ensures es[i].num != n {
      assert log[ds[i].num].stage.Delivered?;
    }
  }

  lemma DeliveredRelay(log: seq<Request>, after: seq<Request>, c: nat, r: Relay, n: nat, frame: Bytes, m: RewriteMap)
    requires RelayOk(log, c, r, m) && n < |log| && log[n].stage.Fetched?
    requires after == log[n := log[n].(stage := Delivered)]
    requires log[n].client == c && log[n].fate.Answered? && log[n].reply.Some?
    requires ParseResponseCid(log[n].reply.value) == Some(CidOf(n)) && frame == Routed(log[n], m)
    ensures RelayOk(after, c, r.(resp := r.resp + [Delivery(n, frame)]), m)
  {
    DeliveryTakes(log, after, c, r.out + r.resp, n, frame, m);
    assert r.out + (r.resp + [Delivery(n, frame)]) == (r.out + r.resp) + [Delivery(n, frame)];
    hide DeliveredOk;
    hide Routed;
    hide ParseResponseCid;
    hide CidOf;
  }

  lemma DeliverInv(s: State, k: nat, t: State)
    requires Inv(s) && DoDeliver(s, k) == Some(t)
    ensures Inv(t)
  {
    InvConn(s, k);
    var d := s.conns[k].reader;
    var n, c := d.num, d.entry.client;
    var frame := Routed(s.log[n], s.rewriteMap);
    hide Inv;
    DeliverEffect(s, k, t, n, c, frame);
    InvBooks(s);
    hide DoDeliver;
    hide ItemsOk;
    hide ParseResponseCid;
    hide CidOf;
    hide CounterAfter;
    hide DistinctCids;
    hide RouteResponse;
    RoutesKeep(s.log, t.log, n, s.routes, s.owner);
    hide RoutesOk;
    ReadOutConn(s.log, t.log, n, k, s.conns[k]);
    if c in s.relays {
      InvRelay(s, c);
      if t.log[n].stage.Delivered? {
        DeliveredRelay(s.log, t.log, c, s.relays[c], n, frame, s.rewriteMap);
      } else {
        OtherRelayKeeps(s.log, t.log, n, c, s.relays[c], s.rewriteMap);
      }
    }
    hide RelayOk;
    hide ConnOk;
    hide ReaderOk;
    AdvanceInv(s, t, n, c, k);
  }

  // ---- Whole-connection steps ----

  /** Fates of registered requests may change, nothing else does. */
  ghost predicate Refated(log: seq<Request>, after: seq<Request>) {
    && |after| == |log|
    && forall n :: 0 <= n < |log| ==>
         after[n] == log[n] || (log[n].fate.Registered? && after[n] == log[n].(fate := Swept))
  }

  lemma RefatedConn(log: seq<Request>, after: seq<Request>, k: nat, q: Conn)
    requires Refated(log, after) && ConnOk(log, k, q)
    ensures ConnOk(after, k, q)
  {
    RefatedList(log, after, k, q.queue, Queued);
    RefatedList(log, after, k, q.wire, OnWire);
    RefatedList(log, after, k, q.replies, Answering);
    RefatedList(log, after, k, q.inbox, Received);
  }

  lemma RefatedList(log: seq<Request>, after: seq<Request>, k: nat, xs: seq<Sent>, stage: Stage)
    requires Refated(log, after) && ItemsOk(log, k, xs, stage)
    ensures ItemsOk(after, k, xs, stage)
  {
    forall i | 0 <= i < |xs| ensures ItemOk(after, k, xs[i], stage) {
      assert ItemOk(log, k, xs[i], stage);
    }
  }

  lemma RefatedRelay(log: seq<Request>, after: seq<Request>, c: nat, r: Relay, m: RewriteMap)
    requires Refated(log, after) && RelayOk(log, c, r, m)
    ensures RelayOk(after, c, r, m)
  {
    hide Routed;
  }

  /** Exactly the registrations of the failed connection change fate. */
  lemma SweepFates(s: State, k: nat, t: State)
    requires Inv(s) && DoSweep(s, k) == Some(t)
    ensures Refated(s.log, t.log)
    ensures forall n :: 0 <= n < |s.log| && s.log[n].fate.Registered? ==>
              (t.log[n].fate.Swept? <==> s.log[n].conn == k)
  {
    hide RelayOk;
    hide ConnOk;
    hide CidOf;
    hide DistinctCids;
    var gone := OfConn(s.routes, k);
    forall n | 0 <= n < |s.log|
      ensures t.log[n] == s.log[n] || s.log[n].fate.Registered?
      ensures s.log[n].fate.Registered? ==> (t.log[n].fate.Swept? <==> s.log[n].conn == k)
    {
      if s.log[n].fate.Registered? {
        assert s.owner[CidOf(n)] == n && s.routes[CidOf(n)] == EntryOf(s.log[n]);
        if cid :| cid in gone && cid in s.owner && s.owner[cid] == n {
          assert s.log[n].conn == k;
        }
        if s.log[n].conn == k {
          assert CidOf(n) in gone;
        }
      }
    }
  }

  lemma SweptRoutes(log: seq<Request>, after: seq<Request>, k: nat, routes: Routes, owner: map<Int32, nat>)
    requires RoutesOk(log, routes, owner) && Refated(log, after)
    requires forall n :: 0 <= n < |log| && log[n].fate.Registered? ==> (after[n].fate.Swept? <==> log[n].conn == k)
    ensures RoutesOk(after, Without(routes, k), owner - OfConn(routes, k))
  {
    hide CidOf;
  }

  lemma SweepRoutes(s: State, k: nat, t: State)
    requires Inv(s) && DoSweep(s, k) == Some(t)
    ensures Refated(s.log, t.log) && RoutesOk(t.log, t.routes, t.owner) && DistinctCids(t.log)
  {
    InvBooks(s);
    SweepFates(s, k, t);
    hide Inv;
    hide CidOf;
    hide MarkSwept;
    hide CounterAfter;
    RefatedDistinct(s.log, t.log);
    hide DistinctCids;
    SweptRoutes(s.log, t.log, k, s.routes, s.owner);
  }

  lemma RefatedDistinct(log: seq<Request>, after: seq<Request>)
    requires Refated(log, after) && DistinctCids(log)
    ensures DistinctCids(after)
  {
    hide CidOf;
  }

  lemma SweepInv(s: State, k: nat, t: State)
    requires Inv(s) && DoSweep(s, k) == Some(t)
    ensures Inv(t)
  {
    SweepRoutes(s, k, t);
    hide RelayOk;
    hide RoutesOk;
    hide DistinctCids;
    hide Refated;
    hide ConnOk;
    forall c | c in t.relays ensures RelayOk(t.log, c, t.relays[c], t.rewriteMap) {
      RefatedRelay(s.log, t.log, c, s.relays[c], s.rewriteMap);
    }
    forall j | j in t.conns ensures j < t.nextConn && ConnOk(t.log, j, t.conns[j]) {
      RefatedConn(s.log, t.log, j, s.conns[j]);
      SamePlaces(t.log, j, s.conns[j], t.conns[j]);
    }
  }

  lemma SamePlaces(log: seq<Request>, k: nat, q: Conn, p: Conn)
    requires ConnOk(log, k, q)
    requires p.queue == q.queue && p.wire == q.wire && p.replies == q.replies && p.inbox == q.inbox && p.reader == q.reader
    ensures ConnOk(log, k, p)
  {
  }

  lemma LostList(log: seq<Request>, k: nat, j: nat, xs: seq<Sent>, stage: Stage)
    requires ItemsOk(log, j, xs, stage) && (j != k || stage.Received?)
    ensures ItemsOk(LoseConn(log, k), j, xs, stage)
  {
    forall i | 0 <= i < |xs| ensures ItemOk(LoseConn(log, k), j, xs[i], stage) {
      assert ItemOk(log, j, xs[i], stage);
    }
  }

  lemma LostConn(log: seq<Request>, k: nat, j: nat, q: Conn)
    requires ConnOk(log, j, q) && (j == k ==> q.queue == [] && q.wire == [] && q.replies == [])
    ensures ConnOk(LoseConn(log, k), j, q)
  {
    if j != k {
      LostList(log, k, j, q.queue, Queued);
      LostList(log, k, j, q.wire, OnWire);
      LostList(log, k, j, q.replies, Answering);
    }
    LostList(log, k, j, q.inbox, Received);
  }

  lemma LostRelay(log: seq<Request>, k: nat, c: nat, r: Relay, m: RewriteMap)
    requires RelayOk(log, c, r, m)
    ensures RelayOk(LoseConn(log, k), c, r, m)
  {
    hide Routed;
  }

  lemma LostBooks(log: seq<Request>, k: nat, routes: Routes, owner: map<Int32, nat>)
    requires RoutesOk(log, routes, owner) && DistinctCids(log)
    ensures RoutesOk(LoseConn(log, k), routes, owner) && DistinctCids(LoseConn(log, k))
  {
    hide CidOf;
  }

  lemma CloseInv(s: State, k: nat, t: State)
    requires Inv(s) && DoClose(s, k) == Some(t)
    ensures Inv(t)
  {
    LostBooks(s.log, k, s.routes, s.owner);
    assert ConnOk(s.log, k, t.conns[k]);
    hide RelayOk;
    hide RoutesOk;
    hide DistinctCids;
    hide ConnOk;
    hide LoseConn;
    forall c | c in t.relays ensures RelayOk(t.log, c, t.relays[c], t.rewriteMap) {
      LostRelay(s.log, k, c, s.relays[c], s.rewriteMap);
    }
    forall j | j in t.conns ensures j < t.nextConn && ConnOk(t.log, j, t.conns[j]) {
      LostConn(s.log, k, j, t.conns[j]);
    }
  }
}
