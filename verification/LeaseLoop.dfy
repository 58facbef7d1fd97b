/** src/relay.rs `PooledRelay`: the request task's loop, run to its end on whatever the client,
    the clock, the pool and the upstream connection do. */
module LeaseLoop {
  import opened Wire
  import opened Rewrite
  import opened Pool
  import opened Proxy

  /** One frame from the client, and how each call made for it would turn out; or an idle timeout
      or read error. When the turns run out the client has closed its side. */
  datatype Turn =
    | Frame(data: Bytes, leaseOver: bool, acquired: Option<ConnId>, cidU: Option<Int32>, sent: bool)
    | GivesUp

  /** The calls a request loop makes on its pool and on the write channel of its lease. */
  datatype Call =
    | Acquire(conn: ConnId)
    | AcquireFails
    | Release(conn: ConnId)
    | Register(conn: ConnId, cidU: Int32, data: Bytes)
    | RegisterRefused(conn: ConnId)
    | Send(conn: ConnId, frame: Bytes)
    | SendFails(conn: ConnId)
    | Cancel(cidU: Int32)
    | Drop(conn: ConnId)

  // ---- What a well-behaved sequence of calls is ----

  datatype Hand =
    | Empty
    | Holding(conn: ConnId)
    | Pledged(conn: ConnId, cidU: Int32, data: Bytes)   // registered, not yet sent
    | Refused(conn: ConnId)                             // at the in-flight cap
    | Failed(conn: ConnId, cidU: Int32)                 // the send failed
    | Dead(conn: ConnId)                                // ...and the registration is cancelled
    | Closed                                            // no lease to be had
    | Wrong

  function Next1(h: Hand, call: Call): Hand {
    match call
    case Acquire(k) => if h.Empty? then Holding(k) else Wrong
    case AcquireFails => if h.Empty? then Closed else Wrong
    case Release(k) => if h == Holding(k) then Empty else if h == Refused(k) then Closed else Wrong
    case Register(k, cidU, data) => if h == Holding(k) then Pledged(k, cidU, data) else Wrong
    case RegisterRefused(k) => if h == Holding(k) then Refused(k) else Wrong
    case Send(k, frame) =>
      if h.Pledged? && h.conn == k && |h.data| >= 8 && frame == Forwarded(h.data, h.cidU) then Holding(k) else Wrong
    case SendFails(k) => if h.Pledged? && h.conn == k then Failed(k, h.cidU) else Wrong
    case Cancel(cidU) => if h.Failed? && h.cidU == cidU then Dead(h.conn) else Wrong
    case Drop(k) => if h == Dead(k) then Closed else Wrong
  }

  function HandAfter(trace: seq<Call>): Hand
    decreases |trace|
  {
    if trace == [] then Empty else Next1(HandAfter(trace[..|trace| - 1]), trace[|trace| - 1])
  }

  lemma Step1(trace: seq<Call>, call: Call)
    ensures HandAfter(trace + [call]) == Next1(HandAfter(trace), call)
    ensures Pledges(trace + [call]) == Pledges(trace) + (if call.Register? then [call.data] else [])
    ensures Tries(trace + [call]) == Tries(trace) + (if call.Acquire? || call.AcquireFails? then 1 else 0)
  {
    assert (trace + [call])[..|trace|] == trace;
  }

  /** The frames registered, in order. */
  function Pledges(trace: seq<Call>): seq<Bytes>
    decreases |trace|
  {
    if trace == [] then []
    else Pledges(trace[..|trace| - 1]) + (if trace[|trace| - 1].Register? then [trace[|trace| - 1].data] else [])
  }

  /** How often a lease was asked for. */
  function Tries(trace: seq<Call>): nat
    decreases |trace|
  {
    if trace == [] then 0
    else
      var last := trace[|trace| - 1];
      Tries(trace[..|trace| - 1]) + (if last.Acquire? || last.AcquireFails? then 1 else 0)
  }

  /** The requests that call for a new lease: the first, and every one that finds its lease over. */
  function Renewals(turns: seq<Turn>): nat
    decreases |turns|
  {
    if turns == [] then 0
    else
      var x, before := turns[|turns| - 1], turns[..|turns| - 1];
      Renewals(before)
      + (if x.Frame? && ParseRequestHeader(x.data).Some? && (x.leaseOver || Requests(before) == []) then 1 else 0)
  }

  /** The frames with a header, in the order the client sent them. */
  function Requests(turns: seq<Turn>): seq<Bytes>
    decreases |turns|
  {
    if turns == [] then []
    else
      var x := turns[|turns| - 1];
      Requests(turns[..|turns| - 1])
      + (if x.Frame? && ParseRequestHeader(x.data).Some? then [x.data] else [])
  }

  lemma MoreRequests(turns: seq<Turn>, i: nat)
    requires i < |turns|
    ensures Requests(turns[..i + 1])
         == Requests(turns[..i]) + (if turns[i].Frame? && ParseRequestHeader(turns[i].data).Some? then [turns[i].data] else [])
    ensures Renewals(turns[..i + 1])
         == Renewals(turns[..i])
            + (if turns[i].Frame? && ParseRequestHeader(turns[i].data).Some?
                  && (turns[i].leaseOver || Requests(turns[..i]) == []) then 1 else 0)
  {
    assert turns[..i + 1][..i] == turns[..i];
  }

  // ---- Well-behaved sequences settle each lease once ----

  function Count(trace: seq<Call>, p: Call -> bool): nat
    decreases |trace|
  {
    if trace == [] then 0 else Count(trace[..|trace| - 1], p) + (if p(trace[|trace| - 1]) then 1 else 0)
  }

  /** Leases acquired are released, dropped, or the one in hand; one is dropped only after its send
      failed and its registration was cancelled. */
  lemma {:induction false} LeasesBalance(trace: seq<Call>)
    requires !HandAfter(trace).Wrong?
    ensures var h := HandAfter(trace);
            Count(trace, (c: Call) => c.Acquire?)
            == Count(trace, (c: Call) => c.Release?) + Count(trace, (c: Call) => c.Drop?)
               + (if h.Empty? || h.Closed? then 0 else 1)
    ensures Count(trace, (c: Call) => c.Drop?)
         == Count(trace, (c: Call) => c.Cancel?) - (if HandAfter(trace).Dead? then 1 else 0)
    ensures Count(trace, (c: Call) => c.Cancel?)
         == Count(trace, (c: Call) => c.SendFails?) - (if HandAfter(trace).Failed? then 1 else 0)
    decreases |trace|
  {
    if trace != [] {
      LeasesBalance(trace[..|trace| - 1]);
    }
  }

  lemma {:induction false} PrefixBehaves(trace: seq<Call>, i: nat)
    requires i <= |trace| && !HandAfter(trace).Wrong?
    ensures !HandAfter(trace[..i]).Wrong?
    decreases |trace|
  {
    if i < |trace| {
      PrefixBehaves(trace[..|trace| - 1], i);
      assert trace[..|trace| - 1][..i] == trace[..i];
    } else {
      assert trace[..i] == trace;
    }
  }

  lemma HandGrows(trace: seq<Call>, i: nat)
    requires i < |trace|
    ensures HandAfter(trace[..i + 1]) == Next1(HandAfter(trace[..i]), trace[i])
    ensures HandAfter(trace[..0]).Empty?
  {
    assert trace[..i + 1][..i] == trace[..i];
    hide Next1;
  }

  /** Every frame sent is the frame just registered, byte for byte but for its id, which is the one just
      drawn for it; it goes out on the lease it was registered with. */
  lemma SendsAreReaddressed(trace: seq<Call>, i: nat)
    requires !HandAfter(trace).Wrong? && i < |trace| && trace[i].Send?
    ensures i > 0 && trace[i - 1].Register? && trace[i - 1].conn == trace[i].conn
    ensures Readdressed(trace[i - 1].data, trace[i - 1].cidU, trace[i].frame)
  {
    hide Forwarded, Readdressed;
    PrefixBehaves(trace, i + 1);
    HandGrows(trace, i);
    var h := HandAfter(trace[..i]);
    assert i > 0;
    HandGrows(trace, i - 1);
    ForwardedBytes(h.data, h.cidU);
  }

  // ---- The loop ----

  lemma HeaderLength(data: Bytes)
    requires ParseRequestHeader(data).Some?
    ensures |data| >= 8
  {
  }

  lemma NothingYet()
    ensures HandAfter([]) == Empty && Pledges([]) == [] && Requests([]) == [] && Tries([]) == Renewals([]) == 0
  {
  }

  lemma Released(trace: seq<Call>, k: ConnId)
    requires HandAfter(trace) == Holding(k)
    ensures HandAfter(trace + [Release(k)]) == Empty && Pledges(trace + [Release(k)]) == Pledges(trace)
    ensures Tries(trace + [Release(k)]) == Tries(trace)
  {
    Step1(trace, Release(k));
  }

  lemma Acquired(trace: seq<Call>, k: ConnId)
    requires HandAfter(trace) == Empty
    ensures HandAfter(trace + [Acquire(k)]) == Holding(k) && Pledges(trace + [Acquire(k)]) == Pledges(trace)
    ensures HandAfter(trace + [AcquireFails]) == Closed && Pledges(trace + [AcquireFails]) == Pledges(trace)
    ensures Tries(trace + [Acquire(k)]) == Tries(trace + [AcquireFails]) == Tries(trace) + 1
  {
    Step1(trace, Acquire(k));
    Step1(trace, AcquireFails);
  }

  lemma TurnedDown(trace: seq<Call>, k: ConnId)
    requires HandAfter(trace) == Holding(k)
    ensures var end := trace + [RegisterRefused(k)] + [Release(k)];
            HandAfter(end) == Closed && Pledges(end) == Pledges(trace) && Tries(end) == Tries(trace)
  {
    Step1(trace, RegisterRefused(k));
    Step1(trace + [RegisterRefused(k)], Release(k));
  }

  lemma Pledged1(trace: seq<Call>, k: ConnId, cidU: Int32, data: Bytes)
    requires HandAfter(trace) == Holding(k)
    ensures var end := trace + [Register(k, cidU, data)];
            HandAfter(end) == Pledged(k, cidU, data) && Pledges(end) == Pledges(trace) + [data] && Tries(end) == Tries(trace)
  {
    Step1(trace, Register(k, cidU, data));
  }

  lemma SendFailed(trace: seq<Call>, k: ConnId, cidU: Int32, data: Bytes)
    requires HandAfter(trace) == Pledged(k, cidU, data)
    ensures var end := trace + [SendFails(k)] + [Cancel(cidU)] + [Drop(k)];
            HandAfter(end) == Closed && Pledges(end) == Pledges(trace) && Tries(end) == Tries(trace)
  {
    Step1(trace, SendFails(k));
    Step1(trace + [SendFails(k)], Cancel(cidU));
    Step1(trace + [SendFails(k)] + [Cancel(cidU)], Drop(k));
  }

  lemma Sent1(trace: seq<Call>, k: ConnId, cidU: Int32, data: Bytes)
    requires HandAfter(trace) == Pledged(k, cidU, data) && |data| >= 8
    ensures var end := trace + [Call.Send(k, Forwarded(data, cidU))];
            HandAfter(end) == Holding(k) && Pledges(end) == Pledges(trace) && Tries(end) == Tries(trace)
  {
    Step1(trace, Call.Send(k, Forwarded(data, cidU)));
  }

  /** The registrations made are exactly the client's requests, in order, for as long as it runs; each
      is followed by its own frame under its own id on the lease it was registered with; a lease is
      asked for exactly when there is none or the one in hand is over; and whichever way the loop
      ends, it ends with no lease in hand. */
  method RequestTask(turns: seq<Turn>) returns (trace: seq<Call>, done: nat)
    ensures HandAfter(trace).Empty? || HandAfter(trace).Closed?
    ensures done <= |turns|
    ensures Pledges(trace) == Requests(turns[..done])
         || (HandAfter(trace).Closed? && done > 0 && Pledges(trace) == Requests(turns[..done - 1]))
    ensures HandAfter(trace).Empty? ==> done == |turns| || turns[done].GivesUp?
    ensures Tries(trace) == Renewals(turns[..done])
  {
    hide Forwarded, HandAfter, Pledges, Tries, Requests, Renewals, ParseRequestHeader, Next1;
    NothingYet();
    trace, done := [], 0;
    var lease: Option<ConnId> := None;
    while done < |turns|
      invariant done <= |turns| && Pledges(trace) == Requests(turns[..done])
      invariant Tries(trace) == Renewals(turns[..done]) && (lease.None? <==> Requests(turns[..done]) == [])
      invariant HandAfter(trace) == if lease.Some? then Holding(lease.value) else Empty
      decreases |turns| - done
    {
      if turns[done].GivesUp? {
        break;
      }
      var x := turns[done];
      MoreRequests(turns, done);
      done := done + 1;
      if ParseRequestHeader(x.data).None? {
        continue;
      }
      if lease.None? || x.leaseOver {
        if lease.Some? {
          Released(trace, lease.value);
          trace, lease := trace + [Release(lease.value)], None;
        }
        Acquired(trace, if x.acquired.Some? then x.acquired.value else 0);
        if x.acquired.None? {
          return trace + [AcquireFails], done;
        }
        trace, lease := trace + [Acquire(x.acquired.value)], x.acquired;
      }
      var k := lease.value;
      if x.cidU.None? {
        TurnedDown(trace, k);
        return trace + [RegisterRefused(k)] + [Release(k)], done;
      }
      Pledged1(trace, k, x.cidU.value, x.data);
      trace := trace + [Register(k, x.cidU.value, x.data)];
      if !x.sent {
        SendFailed(trace, k, x.cidU.value, x.data);
        return trace + [SendFails(k)] + [Cancel(x.cidU.value)] + [Drop(k)], done;
      }
      HeaderLength(x.data);
      Sent1(trace, k, x.cidU.value, x.data);
      trace := trace + [Call.Send(k, Forwarded(x.data, x.cidU.value))];
    }
    if lease.Some? {
      Released(trace, lease.value);
      trace := trace + [Release(lease.value)];
    }
  }
}
