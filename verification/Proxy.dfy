/** The pooled forwarding mode as a transition system: any number of client relays,
    upstream connections and brokers, one shared `CidRemap`. Each action is one
    atomic step of a task of src/pool.rs or src/relay.rs, or of the environment. */
module Proxy {
  import opened Wire
  import opened Remap
  import opened Rewrite
  import opened Pool

  type ClientId = nat
  type NodeId = Int32

  /** Capacities of the three bounded channels. */
  const WRITE_QUEUE: nat := 256
  const READ_QUEUE: nat := 64
  const RESPONSE_QUEUE: nat := 256

  // ---- History ----

  /** What became of a request's registration. */
  datatype Fate = Drawn | Registered | Answered | Cancelled | Swept

  /** Where the request, and then its reply, is. */
  datatype Stage = Held | Queued | OnWire | Answering | Received | Fetched | Delivered | Lost

  /** One successful id allocation, recorded for the statements only: no guard
      and no effect on the other variables reads it. */
  datatype Request = Request(client: ClientId, conn: ConnId, data: Bytes, header: RequestHeader,
                             fate: Fate, stage: Stage, reply: Option<Bytes>)

  // ---- State ----

  /** A frame in flight; `num` is the allocation number of its request (history). */
  datatype Sent = Sent(num: nat, frame: Bytes)

  /** The write loop of a connection. `Sweeping` and `Settling` are the gauge updates after `fail_conn`. */
  datatype Phase = Running | Broken | Sweeping(removed: nat) | Settling(left: nat) | Gone

  /** The read loop between `take` and `try_send`. */
  datatype Reader = Resting | TookMap(num: nat, entry: Entry, data: Bytes)
                  | TookRequest(num: nat, entry: Entry, data: Bytes) | Routing(num: nat, entry: Entry, data: Bytes)

  datatype Conn = Conn(node: NodeId, phase: Phase, queue: seq<Sent>, wire: seq<Sent>,
                       replies: seq<Sent>, inbox: seq<Sent>, reader: Reader)

  /** Where the request task of a relay is. */
  datatype Pc =
    | Reading
    | Framed(data: Bytes)
    | Returning(conn: ConnId, next: Option<Bytes>)      // `release`, before the push
    | Pushed(next: Option<Bytes>)                       // pushed, not yet notified
    | Seeking(data: Bytes)                              // `acquire`, before the idle check
    | SawEmpty(data: Bytes)
    | Connecting(data: Bytes)
    | Waiting(data: Bytes)                              // pool full, about to await
    | Parked(data: Bytes)                               // registered with the Notify
    | Admitting(data: Bytes)                            // lease in hand
    | Checked(data: Bytes)                              // below the in-flight cap
    | Loaded(data: Bytes, prev: Int32, seen: nat)       // counter read; `seen` is history
    | Drew(data: Bytes, cidU: Int32, num: nat)
    | Listed(data: Bytes, cidU: Int32, num: nat)        // in the map, map gauge not yet raised
    | Tallied(data: Bytes, cidU: Int32, num: nat)       // request gauge not yet raised
    | Sending(data: Bytes, cidU: Int32, num: nat)
    | Cancelling(cidU: Int32, num: nat)
    | CancelledMap                                      // map gauge not yet lowered
    | CancelledRequest                                  // request gauge not yet lowered
    | Ended

  datatype Delivery = Delivery(num: nat, frame: Bytes)

  /** `taken`, `returned` and `dropped` count leases (history). */
  datatype Relay = Relay(node: NodeId, pc: Pc, lease: Option<ConnId>,
                         resp: seq<Delivery>, out: seq<Delivery>, respOpen: bool,
                         taken: nat, returned: nat, dropped: nat)

  datatype State = State(
    rewriteMap: RewriteMap,
    maxInFlight: nat,
    routes: Routes,
    nextCid: Int32,
    pools: map<NodeId, Pool>,
    relays: map<ClientId, Relay>,
    conns: map<ConnId, Conn>,
    nextConn: ConnId,
    requestGauge: int,
    mapGauge: int,
    owner: map<Int32, nat>,      // history: which allocation each registration belongs to
    log: seq<Request>)           // history

  function FreshConn(node: NodeId): Conn {
    Conn(node, Running, [], [], [], [], Resting)
  }

  function FreshRelay(node: NodeId): Relay {
    Relay(node, Reading, None, [], [], true, 0, 0, 0)
  }

  /** Right after warm-up: every pool's idle connections exist, nothing else has happened. */
  ghost predicate Init(s: State) {
    && s.routes == map[] && s.nextCid == 1 && s.relays == map[] && s.owner == map[] && s.log == []
    && s.requestGauge == 0 && s.mapGauge == 0
    && (forall n :: n in s.pools ==>
          && s.pools[n] == Warmed(s.pools[n].maxPerBroker, s.pools[n].minIdle, s.pools[n].idle)
          && |s.pools[n].idle| <= s.pools[n].minIdle <= s.pools[n].maxPerBroker <= USIZE_MAX
          && NoRepeats(s.pools[n].idle)
          && forall k :: k in s.pools[n].idle ==> k in s.conns && s.conns[k] == FreshConn(n))
    && (forall k :: k in s.conns ==> k < s.nextConn && s.conns[k] == FreshConn(s.conns[k].node))
  }

  // ---- Actions ----

  /** Steps of one client: its request task, then its response task. */
  datatype TaskStep =
    | Connect(node: NodeId)
    | ReadFrame(data: Bytes)
    | EndInput                              // EOF, idle timeout or read error
    | Decide(leaseOver: bool)
    | PushIdle
    | NotifyOne(woken: Option<ClientId>)
    | TakeIdle
    | Reserve
    | Handshake(ok: bool)
    | Await
    | TimeOut
    | Check
    | Load
    | Swap
    | Put
    | TallyMap
    | TallyRequest
    | Send
    | CancelTake
    | CancelTallyMap
    | CancelTallyRequest
    | Forward
    | CloseResponses

  /** Steps at one connection: its write loop, the broker at the other end, its read loop. */
  datatype LinkStep =
    | Write
    | Break
    | Sweep
    | SweepTallyMap
    | SweepTallyRequest
    | Close
    | Receive
    | Answer(i: nat, payload: Bytes)
    | Ignore
    | Fetch
    | ReadTallyMap
    | ReadTallyRequest
    | Deliver

  /** Steps of one broker's reaper. */
  datatype ReaperStep =
    | Reap(expired: set<ConnId>)
    | ReapCount
    | ReapNotify(woken: Option<ClientId>)

  datatype Action =
    | Task(c: ClientId, step: TaskStep)
    | Link(k: ConnId, move: LinkStep)
    | Reaping(n: NodeId, pass: ReaperStep)

  function WithRelay(s: State, c: ClientId, r: Relay): State {
    s.(relays := s.relays[c := r])
  }

  function WithConn(s: State, k: ConnId, q: Conn): State {
    s.(conns := s.conns[k := q])
  }

  function WithPool(s: State, n: NodeId, p: Pool): State {
    s.(pools := s.pools[n := p])
  }

  function At(s: State, c: ClientId): Pc
    requires c in s.relays
  {
    s.relays[c].pc
  }

  function Goto(s: State, c: ClientId, pc: Pc): State
    requires c in s.relays
  {
    WithRelay(s, c, s.relays[c].(pc := pc))
  }

  /** The request's history record, advanced. */
  function Mark(log: seq<Request>, num: nat, fate: Fate, stage: Stage): seq<Request> {
    if num < |log| then log[num := log[num].(fate := fate, stage := stage)] else log
  }

  function Move(log: seq<Request>, num: nat, stage: Stage): seq<Request> {
    if num < |log| then log[num := log[num].(stage := stage)] else log
  }

  /** The allocation a registration belongs to (history). */
  function OwnerOf(s: State, cidU: Int32): nat {
    if cidU in s.owner then s.owner[cidU] else |s.log|
  }

  // ---- The request task ----

  function DoConnect(s: State, c: ClientId, node: NodeId): Option<State> {
    if c !in s.relays && node in s.pools then Some(WithRelay(s, c, FreshRelay(node))) else None
  }

  /** A frame too short for a header is skipped. */
  function DoReadFrame(s: State, c: ClientId, data: Bytes): Option<State> {
    if c in s.relays && At(s, c).Reading? then
      Some(Goto(s, c, if ParseRequestHeader(data).Some? then Framed(data) else Reading))
    else None
  }

  function GiveBack(r: Relay, next: Option<Bytes>): Relay
    requires r.lease.Some?
  {
    r.(lease := None, pc := Returning(r.lease.value, next))
  }

  function DoEndInput(s: State, c: ClientId): Option<State> {
    if c in s.relays && At(s, c).Reading? then
      var r := s.relays[c];
      Some(WithRelay(s, c, if r.lease.Some? then GiveBack(r, None) else r.(pc := Ended)))
    else None
  }

  function DoDecide(s: State, c: ClientId, leaseOver: bool): Option<State> {
    if c in s.relays && At(s, c).Framed? then
      var r := s.relays[c];
      Some(WithRelay(s, c,
        if r.lease.None? then r.(pc := Seeking(r.pc.data))
        else if leaseOver then GiveBack(r, Some(r.pc.data))
        else r.(pc := Admitting(r.pc.data))))
    else None
  }

  function DoPushIdle(s: State, c: ClientId): Option<State> {
    if c in s.relays && At(s, c).Returning? && s.relays[c].node in s.pools
       && s.pools[s.relays[c].node].reaper.Asleep? then
      var r := s.relays[c];
      Some(WithPool(WithRelay(s, c, r.(pc := Pushed(r.pc.next), returned := r.returned + 1)),
                    r.node, Returned(s.pools[r.node], r.pc.conn)))
    else None
  }

  predicate IsParked(s: State, c: ClientId, node: NodeId) {
    c in s.relays && s.relays[c].pc.Parked? && s.relays[c].node == node
  }

  /** `notify_one`: wakes one parked task of the pool, or stores the permit if there is none. */
  function Notified(s: State, node: NodeId, woken: Option<ClientId>): Option<State>
    requires node in s.pools
  {
    match woken
    case Some(w) => if IsParked(s, w, node) then Some(Goto(s, w, Seeking(At(s, w).data))) else None
    case None =>
      if exists w :: w in s.relays && IsParked(s, w, node) then None
      else Some(WithPool(s, node, s.pools[node].(permit := true)))
  }

  function DoNotifyOne(s: State, c: ClientId, woken: Option<ClientId>): Option<State> {
    if c in s.relays && At(s, c).Pushed? && s.relays[c].node in s.pools then
      var next := At(s, c).next;
      Notified(Goto(s, c, if next.Some? then Seeking(next.value) else Ended), s.relays[c].node, woken)
    else None
  }

  function DoTakeIdle(s: State, c: ClientId): Option<State> {
    if c in s.relays && At(s, c).Seeking? && s.relays[c].node in s.pools
       && s.pools[s.relays[c].node].reaper.Asleep? then
      var r := s.relays[c];
      var p := s.pools[r.node];
      if p.idle == [] then Some(Goto(s, c, SawEmpty(r.pc.data)))
      else Some(WithPool(WithRelay(s, c, r.(pc := Admitting(r.pc.data), lease := Some(p.idle[0]), taken := r.taken + 1)),
                         r.node, p.(idle := p.idle[1..])))
    else None
  }

  function DoReserve(s: State, c: ClientId): Option<State> {
    if c in s.relays && At(s, c).SawEmpty? && s.relays[c].node in s.pools then
      var r := s.relays[c];
      var p := s.pools[r.node];
      if p.count < p.maxPerBroker
      then Some(WithPool(Goto(s, c, Connecting(r.pc.data)), r.node, p.(count := p.count + 1)))
      else Some(Goto(s, c, Waiting(r.pc.data)))
    else None
  }

  function DoHandshake(s: State, c: ClientId, ok: bool): Option<State> {
    if c in s.relays && At(s, c).Connecting? && s.relays[c].node in s.pools then
      var r := s.relays[c];
      if ok
      then Some(WithConn(WithRelay(s, c, r.(pc := Admitting(r.pc.data), lease := Some(s.nextConn), taken := r.taken + 1)),
                         s.nextConn, FreshConn(r.node)).(nextConn := s.nextConn + 1))
      else Some(WithPool(Goto(s, c, Ended), r.node, Unreserved(s.pools[r.node])))
    else None
  }

  function DoAwait(s: State, c: ClientId): Option<State> {
    if c in s.relays && At(s, c).Waiting? && s.relays[c].node in s.pools then
      var r := s.relays[c];
      if s.pools[r.node].permit
      then Some(WithPool(Goto(s, c, Seeking(r.pc.data)), r.node, s.pools[r.node].(permit := false)))
      else Some(Goto(s, c, Parked(r.pc.data)))
    else None
  }

  function DoTimeOut(s: State, c: ClientId): Option<State> {
    if c in s.relays && At(s, c).Parked? then Some(Goto(s, c, Ended)) else None
  }

  /** The cap is checked against the size of the whole map; at the cap the lease goes back. */
  function DoCheck(s: State, c: ClientId): Option<State> {
    if c in s.relays && At(s, c).Admitting? && s.relays[c].lease.Some? then
      var r := s.relays[c];
      Some(WithRelay(s, c, if |s.routes| >= s.maxInFlight then GiveBack(r, None) else r.(pc := Checked(r.pc.data))))
    else None
  }

  function DoLoad(s: State, c: ClientId): Option<State> {
    if c in s.relays && At(s, c).Checked? then Some(Goto(s, c, Loaded(At(s, c).data, s.nextCid, |s.log|))) else None
  }

  predicate SwapSucceeds(s: State, c: ClientId) {
    c in s.relays && At(s, c).Loaded? && s.nextCid == At(s, c).prev
  }

  function DoSwap(s: State, c: ClientId): Option<State> {
    if c in s.relays && At(s, c).Loaded? && s.relays[c].lease.Some? && ParseRequestHeader(At(s, c).data).Some? then
      var r := s.relays[c];
      if SwapSucceeds(s, c) then
        var cidU := Successor(r.pc.prev);
        Some(Goto(s, c, Drew(r.pc.data, cidU, |s.log|)).(
          nextCid := cidU,
          log := s.log + [Request(c, r.lease.value, r.pc.data, ParseRequestHeader(r.pc.data).value, Drawn, Held, None)]))
      else Some(Goto(s, c, Checked(r.pc.data)))
    else None
  }

  function EntryOf(q: Request): Entry {
    Entry(q.client, q.header.cid, q.header.apiKey, q.header.version, q.conn)
  }

  function DoPut(s: State, c: ClientId): Option<State> {
    if c in s.relays && At(s, c).Drew? && s.relays[c].lease.Some? && ParseRequestHeader(At(s, c).data).Some? then
      var pc := At(s, c);
      var h := ParseRequestHeader(pc.data).value;
      Some(Goto(s, c, Listed(pc.data, pc.cidU, pc.num)).(
        routes := s.routes[pc.cidU := Entry(c, h.cid, h.apiKey, h.version, s.relays[c].lease.value)],
        owner := s.owner[pc.cidU := pc.num],
        log := Mark(s.log, pc.num, Registered, Held)))
    else None
  }

  function DoTallyMap(s: State, c: ClientId): Option<State> {
    if c in s.relays && At(s, c).Listed? then
      Some(Goto(s, c, Tallied(At(s, c).data, At(s, c).cidU, At(s, c).num)).(mapGauge := s.mapGauge + 1))
    else None
  }

  function DoTallyRequest(s: State, c: ClientId): Option<State> {
    if c in s.relays && At(s, c).Tallied? then
      Some(Goto(s, c, Sending(At(s, c).data, At(s, c).cidU, At(s, c).num)).(requestGauge := s.requestGauge + 1))
    else None
  }

  /** Bytes 4..8 of a request frame are its correlation id. */
  function Forwarded(data: Bytes, cidU: Int32): Bytes
    requires |data| >= 8
  {
    data[..4] + PutI32(cidU) + data[8..]
  }

  /** frame is data byte for byte, except that its bytes 4 to 7 spell the id cidU. */
  ghost predicate Readdressed(data: Bytes, cidU: Int32, frame: Bytes) {
    && |frame| == |data| >= 8
    && (forall j :: 0 <= j < 4 || 8 <= j < |data| ==> frame[j] == data[j])
    && 0x100_0000 * (frame[4] as int) + 0x1_0000 * (frame[5] as int) + 0x100 * (frame[6] as int) + frame[7]
       == if cidU < 0 then cidU + 0x1_0000_0000 else cidU
  }

  lemma ForwardedBytes(data: Bytes, cidU: Int32)
    requires |data| >= 8
    ensures Readdressed(data, cidU, Forwarded(data, cidU))
  {
    I32Bytes(cidU);
    var frame := Forwarded(data, cidU);
    hide PutI32;
    assert forall j :: 0 <= j < 4 ==> frame[4 + j] == PutI32(cidU)[j];
    forall j | 8 <= j < |data| ensures frame[j] == data[j] {
      assert data[8..][j - 8] == data[j];
    }
  }

  /** So the broker reads the client's own key and version, and the new id. */
  lemma ReaddressedHeader(data: Bytes, cidU: Int32, frame: Bytes)
    requires Readdressed(data, cidU, frame)
    ensures ParseRequestHeader(data).Some?
    ensures ParseRequestHeader(frame) == Some(ParseRequestHeader(data).value.(cid := cidU))
  {
    HeaderBytes(data);
    HeaderBytes(frame);
    hide ParseRequestHeader;
  }

  /** Blocks on a full queue; fails once the write loop has dropped its receiver. */
  function DoSend(s: State, c: ClientId): Option<State> {
    if c in s.relays && At(s, c).Sending? && s.relays[c].lease.Some? && s.relays[c].lease.value in s.conns
       && |At(s, c).data| >= 8 then
      var r := s.relays[c];
      var k := r.lease.value;
      var q := s.conns[k];
      if q.phase.Gone? then
        Some(WithRelay(s, c, r.(pc := Cancelling(r.pc.cidU, r.pc.num), lease := None, dropped := r.dropped + 1)))
      else if |q.queue| < WRITE_QUEUE then
        Some(WithConn(Goto(s, c, Reading), k,
                      q.(queue := q.queue + [Sent(r.pc.num, Forwarded(r.pc.data, r.pc.cidU))])).(
          log := Move(s.log, r.pc.num, Queued)))
      else None
    else None
  }

  function DoCancelTake(s: State, c: ClientId): Option<State> {
    if c in s.relays && At(s, c).Cancelling? then
      var pc := At(s, c);
      var moved := Move(s.log, pc.num, Lost);
      if pc.cidU in s.routes then
        var num := OwnerOf(s, pc.cidU);
        Some(Goto(s, c, CancelledMap).(
          routes := s.routes - {pc.cidU}, owner := s.owner - {pc.cidU},
          log := if num < |moved| then Mark(moved, num, Cancelled, moved[num].stage) else moved))
      else Some(Goto(s, c, Ended).(log := moved))
    else None
  }

  function DoCancelTallyMap(s: State, c: ClientId): Option<State> {
    if c in s.relays && At(s, c).CancelledMap? then
      Some(Goto(s, c, CancelledRequest).(mapGauge := s.mapGauge - 1))
    else None
  }

  function DoCancelTallyRequest(s: State, c: ClientId): Option<State> {
    if c in s.relays && At(s, c).CancelledRequest? then
      Some(Goto(s, c, Ended).(requestGauge := s.requestGauge - 1))
    else None
  }

  // ---- The response task ----

  function DoForward(s: State, c: ClientId): Option<State> {
    if c in s.relays && s.relays[c].respOpen && s.relays[c].resp != [] then
      var r := s.relays[c];
      Some(WithRelay(s, c, r.(out := r.out + [r.resp[0]], resp := r.resp[1..])))
    else None
  }

  function DoCloseResponses(s: State, c: ClientId): Option<State> {
    if c in s.relays then Some(WithRelay(s, c, s.relays[c].(respOpen := false))) else None
  }

  // ---- The write loop ----

  function DoWrite(s: State, k: ConnId): Option<State> {
    if k in s.conns && s.conns[k].phase.Running? && s.conns[k].queue != [] then
      var q := s.conns[k];
      Some(WithConn(s, k, q.(queue := q.queue[1..], wire := q.wire + [q.queue[0]])).(
        log := Move(s.log, q.queue[0].num, OnWire)))
    else None
  }

  function DoBreak(s: State, k: ConnId): Option<State> {
    if k in s.conns && s.conns[k].phase.Running? then Some(WithConn(s, k, s.conns[k].(phase := Broken))) else None
  }

  function MarkSwept(log: seq<Request>, owner: map<Int32, nat>, gone: set<Int32>): (r: seq<Request>)
    ensures |r| == |log|
  {
    seq(|log|, n requires 0 <= n < |log| =>
      if exists cid :: cid in gone && cid in owner && owner[cid] == n then log[n].(fate := Swept) else log[n])
  }

  /** `fail_conn`, its two `len` calls and the filter taken as one step. */
  function DoSweep(s: State, k: ConnId): Option<State> {
    if k in s.conns && s.conns[k].phase.Broken? then
      var kept := Without(s.routes, k);
      var gone := OfConn(s.routes, k);
      Some(WithConn(s, k, s.conns[k].(phase := Sweeping(|gone|))).(
        routes := kept,
        owner := s.owner - gone,
        log := MarkSwept(s.log, s.owner, gone)))
    else None
  }

  function DoSweepTallyMap(s: State, k: ConnId): Option<State> {
    if k in s.conns && s.conns[k].phase.Sweeping? then
      var n := s.conns[k].phase.removed;
      Some(WithConn(s, k, s.conns[k].(phase := Settling(n))).(mapGauge := s.mapGauge - n))
    else None
  }

  function DoSweepTallyRequest(s: State, k: ConnId): Option<State> {
    if k in s.conns && s.conns[k].phase.Settling? && s.conns[k].phase.left > 0 then
      Some(WithConn(s, k, s.conns[k].(phase := Settling(s.conns[k].phase.left - 1))).(
        requestGauge := s.requestGauge - 1))
    else None
  }

  function LoseConn(log: seq<Request>, k: ConnId): (r: seq<Request>)
    ensures |r| == |log|
  {
    seq(|log|, n requires 0 <= n < |log| =>
      if log[n].conn == k && (log[n].stage.Queued? || log[n].stage.OnWire? || log[n].stage.Answering?)
      then log[n].(stage := Lost) else log[n])
  }

  /** The write loop returns: what it had not read or passed on is gone. */
  function DoClose(s: State, k: ConnId): Option<State> {
    if k in s.conns && s.conns[k].phase == Settling(0) then
      Some(WithConn(s, k, s.conns[k].(phase := Gone, queue := [], wire := [], replies := [])).(
        log := LoseConn(s.log, k)))
    else None
  }

  function DoReceive(s: State, k: ConnId): Option<State> {
    if k in s.conns && s.conns[k].phase.Running? && s.conns[k].replies != [] && |s.conns[k].inbox| < READ_QUEUE then
      var q := s.conns[k];
      Some(WithConn(s, k, q.(replies := q.replies[1..], inbox := q.inbox + [q.replies[0]])).(
        log := Move(s.log, q.replies[0].num, Received)))
    else None
  }

  // ---- The broker ----

  function Replied(log: seq<Request>, num: nat, frame: Bytes): seq<Request> {
    if num < |log| then log[num := log[num].(stage := Answering, reply := Some(frame))] else log
  }

  /** A reply to frame i on the wire: its correlation id, then any payload. */
  function DoAnswer(s: State, k: ConnId, i: nat, payload: Bytes): Option<State> {
    if k in s.conns && i < |s.conns[k].wire| && |s.conns[k].wire[i].frame| >= 8 then
      var q := s.conns[k];
      var x := q.wire[i];
      var frame := PutI32(GetI32(x.frame[4..])) + payload;
      Some(WithConn(s, k, q.(wire := q.wire[..i] + q.wire[i + 1..], replies := q.replies + [Sent(x.num, frame)])).(
        log := Replied(s.log, x.num, frame)))
    else None
  }

  /** Some requests are never answered. */
  function DoIgnore(s: State, k: ConnId): Option<State> {
    if k in s.conns && s.conns[k].wire != [] then
      var q := s.conns[k];
      Some(WithConn(s, k, q.(wire := q.wire[1..])).(log := Move(s.log, q.wire[0].num, Lost)))
    else None
  }

  // ---- The read loop ----

  /** `take` by the reply's correlation id alone; a reply without a registration is dropped. */
  function DoFetch(s: State, k: ConnId): Option<State> {
    if k in s.conns && s.conns[k].reader.Resting? && s.conns[k].inbox != [] then
      var q := s.conns[k];
      var x := q.inbox[0];
      var rest := q.(inbox := q.inbox[1..]);
      var cid := ParseResponseCid(x.frame);
      if cid.Some? && cid.value in s.routes then
        var moved := Move(s.log, x.num, Fetched);
        var num := OwnerOf(s, cid.value);
        Some(WithConn(s, k, rest.(reader := TookMap(x.num, s.routes[cid.value], x.frame))).(
          routes := s.routes - {cid.value}, owner := s.owner - {cid.value},
          log := if num < |moved| then Mark(moved, num, Answered, moved[num].stage) else moved))
      else Some(WithConn(s, k, rest).(log := Move(s.log, x.num, Lost)))
    else None
  }

  function DoReadTallyMap(s: State, k: ConnId): Option<State> {
    if k in s.conns && s.conns[k].reader.TookMap? then
      var d := s.conns[k].reader;
      Some(WithConn(s, k, s.conns[k].(reader := TookRequest(d.num, d.entry, d.data))).(mapGauge := s.mapGauge - 1))
    else None
  }

  function DoReadTallyRequest(s: State, k: ConnId): Option<State> {
    if k in s.conns && s.conns[k].reader.TookRequest? then
      var d := s.conns[k].reader;
      Some(WithConn(s, k, s.conns[k].(reader := Routing(d.num, d.entry, d.data))).(requestGauge := s.requestGauge - 1))
    else None
  }

  /** `try_send`: a full or closed response channel drops the reply. */
  function DoDeliver(s: State, k: ConnId): Option<State> {
    if k in s.conns && s.conns[k].reader.Routing? && |s.conns[k].reader.data| >= 4 then
      var d := s.conns[k].reader;
      var c := d.entry.client;
      var frame := RouteResponse(d.data, d.entry.cidD, d.entry.apiKey, d.entry.version, s.rewriteMap);
      var free := WithConn(s, k, s.conns[k].(reader := Resting));
      if c in s.relays && s.relays[c].respOpen && |s.relays[c].resp| < RESPONSE_QUEUE then
        Some(WithRelay(free, c, s.relays[c].(resp := s.relays[c].resp + [Delivery(d.num, frame)])).(
          log := Move(s.log, d.num, Delivered)))
      else Some(free.(log := Move(s.log, d.num, Lost)))
    else None
  }

  // ---- The reaper ----

  function DoReap(s: State, n: NodeId, expired: set<ConnId>): Option<State> {
    if n in s.pools && s.pools[n].reaper.Asleep? then Some(WithPool(s, n, Reaped(s.pools[n], expired))) else None
  }

  function DoReapCount(s: State, n: NodeId): Option<State> {
    if n in s.pools && s.pools[n].reaper.Removed? then Some(WithPool(s, n, Recounted(s.pools[n]))) else None
  }

  function DoReapNotify(s: State, n: NodeId, woken: Option<ClientId>): Option<State> {
    if n in s.pools && s.pools[n].reaper.Notifying? then
      Notified(WithPool(s, n, s.pools[n].(reaper := Asleep)), n, woken)
    else None
  }

  function NextTask(s: State, c: ClientId, step: TaskStep): Option<State> {
    match step
    case Connect(node) => DoConnect(s, c, node)
    case ReadFrame(data) => DoReadFrame(s, c, data)
    case EndInput => DoEndInput(s, c)
    case Decide(leaseOver) => DoDecide(s, c, leaseOver)
    case PushIdle => DoPushIdle(s, c)
    case NotifyOne(woken) => DoNotifyOne(s, c, woken)
    case TakeIdle => DoTakeIdle(s, c)
    case Reserve => DoReserve(s, c)
    case Handshake(ok) => DoHandshake(s, c, ok)
    case Await => DoAwait(s, c)
    case TimeOut => DoTimeOut(s, c)
    case Check => DoCheck(s, c)
    case Load => DoLoad(s, c)
    case Swap => DoSwap(s, c)
    case Put => DoPut(s, c)
    case TallyMap => DoTallyMap(s, c)
    case TallyRequest => DoTallyRequest(s, c)
    case Send => DoSend(s, c)
    case CancelTake => DoCancelTake(s, c)
    case CancelTallyMap => DoCancelTallyMap(s, c)
    case CancelTallyRequest => DoCancelTallyRequest(s, c)
    case Forward => DoForward(s, c)
    case CloseResponses => DoCloseResponses(s, c)
  }

  function NextLink(s: State, k: ConnId, move: LinkStep): Option<State> {
    match move
    case Write => DoWrite(s, k)
    case Break => DoBreak(s, k)
    case Sweep => DoSweep(s, k)
    case SweepTallyMap => DoSweepTallyMap(s, k)
    case SweepTallyRequest => DoSweepTallyRequest(s, k)
    case Close => DoClose(s, k)
    case Receive => DoReceive(s, k)
    case Answer(i, payload) => DoAnswer(s, k, i, payload)
    case Ignore => DoIgnore(s, k)
    case Fetch => DoFetch(s, k)
    case ReadTallyMap => DoReadTallyMap(s, k)
    case ReadTallyRequest => DoReadTallyRequest(s, k)
    case Deliver => DoDeliver(s, k)
  }

  function NextReaping(s: State, n: NodeId, pass: ReaperStep): Option<State> {
    match pass
    case Reap(expired) => DoReap(s, n, expired)
    case ReapCount => DoReapCount(s, n)
    case ReapNotify(woken) => DoReapNotify(s, n, woken)
  }

  /** The state after an action, if the action is possible. */
  function Next(s: State, a: Action): Option<State> {
    match a
    case Task(c, step) => NextTask(s, c, step)
    case Link(k, move) => NextLink(s, k, move)
    case Reaping(n, pass) => NextReaping(s, n, pass)
  }

  // ---- Runs ----

  /** `states` is what the system goes through when it takes `actions` from its start. */
  ghost predicate IsRun(states: seq<State>, actions: seq<Action>) {
    && |states| == |actions| + 1
    && Init(states[0])
    && forall i :: 0 <= i < |actions| ==> Next(states[i], actions[i]) == Some(states[i + 1])
  }
}
