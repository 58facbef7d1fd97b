/** The invariant that ties registrations, frames in flight and delivered replies
    to the requests they belong to. */
module Registry {
  import opened Wire
  import opened Remap
  import opened Rewrite
  import opened Proxy

  // ---- The id of a request that may still be looked up by it ----

  ghost predicate Outstanding(q: Request) {
    || q.fate.Drawn? || q.fate.Registered?
    || q.stage.Held? || q.stage.Queued? || q.stage.OnWire? || q.stage.Answering? || q.stage.Received?
  }

  /** No two outstanding requests share an upstream id. */
  ghost predicate DistinctCids(log: seq<Request>) {
    forall a, b :: 0 <= a < b < |log| && Outstanding(log[a]) && Outstanding(log[b]) ==> CidOf(a) != CidOf(b)
  }

  /** The next id to be handed out is not outstanding anywhere. */
  ghost predicate Fresh(log: seq<Request>) {
    forall a :: 0 <= a < |log| && Outstanding(log[a]) ==> CidOf(a) != CidOf(|log|)
  }

  // ---- What each part of the state owes the log ----

  ghost predicate HeaderOk(q: Request) {
    ParseRequestHeader(q.data) == Some(q.header)
  }

  ghost predicate ItemOk(log: seq<Request>, k: nat, x: Sent, stage: Stage) {
    && x.num < |log|
    && log[x.num].conn == k && log[x.num].stage == stage
    && HeaderOk(log[x.num])
    && (if stage.Queued? || stage.OnWire?
        then log[x.num].reply.None? && x.frame == Forwarded(log[x.num].data, CidOf(x.num))
        else log[x.num].reply == Some(x.frame) && ParseResponseCid(x.frame) == Some(CidOf(x.num)))
  }

  /** Every frame is the one its request calls for, and no request has two. */
  ghost predicate ItemsOk(log: seq<Request>, k: nat, xs: seq<Sent>, stage: Stage) {
    && (forall i :: 0 <= i < |xs| ==> ItemOk(log, k, xs[i], stage))
    && (forall i, j :: 0 <= i < j < |xs| ==> xs[i].num != xs[j].num)
  }

  ghost predicate ReaderOk(log: seq<Request>, k: nat, d: Reader) {
    !d.Resting? ==>
      && d.num < |log|
      && log[d.num].conn == k && log[d.num].stage.Fetched? && log[d.num].fate.Answered?
      && d.entry == EntryOf(log[d.num])
      && log[d.num].reply == Some(d.data) && ParseResponseCid(d.data) == Some(CidOf(d.num))
  }

  ghost predicate ConnOk(log: seq<Request>, k: nat, q: Conn) {
    && ItemsOk(log, k, q.queue, Queued) && ItemsOk(log, k, q.wire, OnWire)
    && ItemsOk(log, k, q.replies, Answering) && ItemsOk(log, k, q.inbox, Received)
    && ReaderOk(log, k, q.reader)
  }

  predicate Numbered(pc: Pc) {
    pc.Drew? || pc.Listed? || pc.Tallied? || pc.Sending?
  }

  ghost predicate NumberOk(log: seq<Request>, c: nat, r: Relay) {
    (Numbered(r.pc) || r.pc.Cancelling? ==>
      && r.pc.num < |log| && r.pc.cidU == CidOf(r.pc.num)
      && log[r.pc.num].client == c && log[r.pc.num].stage.Held? && log[r.pc.num].reply.None?
      && (log[r.pc.num].fate.Drawn? <==> r.pc.Drew?))
    && (Numbered(r.pc) ==>
      && r.lease == Some(log[r.pc.num].conn)
      && log[r.pc.num].data == r.pc.data && HeaderOk(log[r.pc.num]))
  }

  /** A task about to swap has seen the counter as it was after `seen` allocations,
      and none of the allocations since is its own. */
  ghost predicate LoadOk(log: seq<Request>, c: nat, r: Relay) {
    r.pc.Loaded? ==>
      && r.pc.seen <= |log| && r.pc.prev == CounterAfter(r.pc.seen)
      && (forall i :: r.pc.seen <= i < |log| ==> log[i].client != c)
  }

  ghost predicate DeliveredOk(log: seq<Request>, c: nat, ds: seq<Delivery>, m: RewriteMap) {
    && (forall i :: 0 <= i < |ds| ==>
          && ds[i].num < |log|
          && log[ds[i].num].client == c && log[ds[i].num].stage.Delivered? && log[ds[i].num].fate.Answered?
          && log[ds[i].num].reply.Some?
          && ParseResponseCid(log[ds[i].num].reply.value) == Some(CidOf(ds[i].num))
          && ds[i].frame == Routed(log[ds[i].num], m))
    && (forall i, j :: 0 <= i < j < |ds| ==> ds[i].num != ds[j].num)
  }

  /** The frame a client is owed for a request that was answered. */
  function Routed(q: Request, m: RewriteMap): Bytes
    requires q.reply.Some? && |q.reply.value| >= 4
  {
    RouteResponse(q.reply.value, q.header.cid, q.header.apiKey, q.header.version, m)
  }

  ghost predicate RelayOk(log: seq<Request>, c: nat, r: Relay, m: RewriteMap) {
    NumberOk(log, c, r) && LoadOk(log, c, r) && DeliveredOk(log, c, r.out + r.resp, m)
  }

  /** The map holds exactly the registered requests, each under its own id. */
  ghost predicate RoutesOk(log: seq<Request>, routes: Routes, owner: map<Int32, nat>) {
    && owner.Keys == routes.Keys
    && (forall cid :: cid in routes ==>
          && owner[cid] < |log| && CidOf(owner[cid]) == cid
          && log[owner[cid]].fate.Registered? && routes[cid] == EntryOf(log[owner[cid]]))
    && (forall n :: 0 <= n < |log| && log[n].fate.Registered? ==> CidOf(n) in owner && owner[CidOf(n)] == n)
  }

  ghost predicate Inv(s: State) {
    && s.nextCid == CounterAfter(|s.log|)
    && RoutesOk(s.log, s.routes, s.owner)
    && DistinctCids(s.log)
    && (forall c :: c in s.relays ==> RelayOk(s.log, c, s.relays[c], s.rewriteMap))
    && (forall k :: k in s.conns ==> k < s.nextConn && ConnOk(s.log, k, s.conns[k]))
  }

  lemma InitInv(s: State)
    requires Init(s)
    ensures Inv(s)
  {
  }

  // ---- Steps that only move a task or touch pools and gauges ----

  /** The parts the invariant speaks of, other than relays and connections. */
  ghost predicate SameBooks(s: State, t: State) {
    t.log == s.log && t.routes == s.routes && t.owner == s.owner && t.nextCid == s.nextCid
    && t.rewriteMap == s.rewriteMap
  }

  lemma RelayStep(s: State, c: nat, t: State)
    requires Inv(s) && SameBooks(s, t) && t.conns == s.conns && t.nextConn == s.nextConn
    requires c in t.relays && t.relays == s.relays[c := t.relays[c]]
    requires NumberOk(s.log, c, t.relays[c]) && LoadOk(s.log, c, t.relays[c])
    requires DeliveredOk(s.log, c, t.relays[c].out + t.relays[c].resp, s.rewriteMap)
    ensures Inv(t)
  {
    hide NumberOk;
    hide LoadOk;
    hide DeliveredOk;
    hide RoutesOk;
    hide DistinctCids;
    hide ConnOk;
  }

  lemma ConnStep(s: State, k: nat, t: State)
    requires Inv(s) && SameBooks(s, t) && t.relays == s.relays && t.nextConn >= s.nextConn
    requires k in t.conns && t.conns == s.conns[k := t.conns[k]] && k < t.nextConn
    requires ConnOk(s.log, k, t.conns[k])
    ensures Inv(t)
  {
    hide RelayOk;
    hide RoutesOk;
    hide DistinctCids;
    hide ConnOk;
  }

  /** Relay steps that keep the deliveries and end without an allocation number. */
  lemma PlainRelayStep(s: State, c: nat, t: State)
    requires Inv(s) && SameBooks(s, t) && t.conns == s.conns && t.nextConn == s.nextConn
    requires c in s.relays && c in t.relays && t.relays == s.relays[c := t.relays[c]]
    requires t.relays[c].out == s.relays[c].out && t.relays[c].resp == s.relays[c].resp
    requires !Numbered(t.relays[c].pc) && !t.relays[c].pc.Cancelling? && !t.relays[c].pc.Loaded?
    ensures Inv(t)
  {
    hide DeliveredOk;
    RelayStep(s, c, t);
  }

  lemma PlainStep(s: State, t: State)
    requires Inv(s) && SameBooks(s, t) && t.conns == s.conns && t.nextConn == s.nextConn && t.relays == s.relays
    ensures Inv(t)
  {
    hide RelayOk;
    hide RoutesOk;
    hide DistinctCids;
    hide ConnOk;
  }

  lemma NotifiedInv(s: State, node: NodeId, woken: Option<nat>, t: State)
    requires Inv(s) && node in s.pools && Notified(s, node, woken) == Some(t)
    ensures Inv(t)
  {
    match woken {
      case Some(w) => hide Inv; PlainRelayStep(s, w, t);
      case None => hide Inv; PlainStep(s, t);
    }
  }
}
