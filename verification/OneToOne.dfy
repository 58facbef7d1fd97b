/** src/relay.rs `Relay::run_inner`: two tasks, one forwarding requests and one forwarding replies,
    that share the map of requests whose reply may need rewriting. */
module OneToOne {
  import opened Sets
  import opened Wire
  import opened Rewrite

  const MAX_PENDING: nat := 1024

  type Pending = map<Int32, (Int16, Int16)>

  /** A sink: frames written and not yet flushed, frames flushed, and its loop's own flush flag. */
  datatype Sink = Sink(buffer: seq<Bytes>, flushed: seq<Bytes>, needsFlush: bool, open: bool)

  /** One frame read from the client (history): whether it was sent on and answered. */
  datatype Asked = Asked(data: Bytes, answered: bool)

  /** One frame read from the broker (history): the request it answers, if any, and what was passed on. */
  datatype Reply = Reply(request: Option<nat>, data: Bytes, out: Bytes)

  datatype Link = Link(
    pending: Pending,
    held: Option<Bytes>,       // read and recorded, not yet sent
    up: Sink,
    down: Sink,
    asked: seq<Asked>,
    replies: seq<Reply>)

  datatype Event =
    | Read(data: Bytes)                               // the client's next frame
    | Forward(ok: bool, drains: bool)                 // `send` upstream; it may flush the sink by itself
    | UpTick(ok: bool)
    | InputEnds(ok: bool)                             // EOF, idle timeout, read error
    | Answer(i: nat, payload: Bytes, ok: bool, drains: bool)   // the broker's reply to request i
    | Stray(data: Bytes, ok: bool, drains: bool)      // any other frame from the broker
    | DownTick(ok: bool)
    | OutputEnds(ok: bool)

  const START: Link := Link(map[], None, Sink([], [], false, true), Sink([], [], false, true), [], [])

  // ---- Sinks ----

  function Flushed(k: Sink): Sink {
    k.(buffer := [], flushed := k.flushed + k.buffer)
  }

  function Written(k: Sink, frame: Bytes, ok: bool, drains: bool): Sink {
    if !ok then k.(open := false)
    else
      var w := k.(buffer := k.buffer + [frame], needsFlush := true);
      if drains then Flushed(w) else w
  }

  function Ticked(k: Sink, ok: bool): Sink {
    if !k.needsFlush then k
    else if ok then Flushed(k).(needsFlush := false)
    else k.(open := false)
  }

  function Ended(k: Sink, ok: bool): Sink {
    (if ok then Flushed(k) else k).(open := false)
  }

  function Through(k: Sink): seq<Bytes> {
    k.flushed + k.buffer
  }

  // ---- Steps ----

  predicate Recorded(data: Bytes) {
    ParseRequestHeader(data).Some? && NeedsRewrite(ParseRequestHeader(data).value.apiKey)
  }

  function Record(pending: Pending, data: Bytes): Pending {
    if Recorded(data) && |pending| < MAX_PENDING then
      var h := ParseRequestHeader(data).value;
      pending[h.cid := (h.apiKey, h.version)]
    else pending
  }

  function Rewritten(pending: Pending, data: Bytes, m: RewriteMap): Bytes {
    var cid := ParseResponseCid(data);
    if cid.Some? && cid.value in pending then RewriteOrPass(data, pending[cid.value].0, pending[cid.value].1, m) else data
  }

  function Unrecord(pending: Pending, data: Bytes): Pending {
    var cid := ParseResponseCid(data);
    if cid.Some? then pending - {cid.value} else pending
  }

  /** Passing a broker frame on to the client. */
  function PassOn(s: Link, request: Option<nat>, data: Bytes, ok: bool, drains: bool, m: RewriteMap): Link {
    var out := Rewritten(s.pending, data, m);
    s.(pending := Unrecord(s.pending, data),
       down := Written(s.down, out, ok, drains),
       replies := s.replies + [Reply(request, data, out)])
  }

  /** The request was sent and has not been answered. */
  predicate Awaits(s: Link, i: nat) {
    i < |s.asked| && !s.asked[i].answered && i < |Through(s.up)|
  }

  function AnswerTo(s: Link, i: nat, payload: Bytes): Option<Bytes> {
    if Awaits(s, i) && ParseRequestHeader(s.asked[i].data).Some?
    then Some(PutI32(ParseRequestHeader(s.asked[i].data).value.cid) + payload)
    else None
  }

  function Next(s: Link, e: Event, m: RewriteMap): Option<Link> {
    match e
    case Read(data) =>
      if s.up.open && s.held.None? then
        Some(s.(pending := Record(s.pending, data), held := Some(data), asked := s.asked + [Asked(data, false)]))
      else None
    case Forward(ok, drains) =>
      if s.up.open && s.held.Some? then
        Some(s.(held := if ok then None else s.held, up := Written(s.up, s.held.value, ok, drains)))
      else None
    case UpTick(ok) => if s.up.open && s.held.None? then Some(s.(up := Ticked(s.up, ok))) else None
    case InputEnds(ok) => if s.up.open && s.held.None? then Some(s.(up := Ended(s.up, ok))) else None
    case Answer(i, payload, ok, drains) =>
      if s.down.open && AnswerTo(s, i, payload).Some? then
        Some(PassOn(s.(asked := s.asked[i := s.asked[i].(answered := true)]), Some(i),
                    AnswerTo(s, i, payload).value, ok, drains, m))
      else None
    case Stray(data, ok, drains) => if s.down.open then Some(PassOn(s, None, data, ok, drains, m)) else None
    case DownTick(ok) => if s.down.open then Some(s.(down := Ticked(s.down, ok))) else None
    case OutputEnds(ok) => if s.down.open then Some(s.(down := Ended(s.down, ok))) else None
  }

  ghost predicate IsRun(states: seq<Link>, events: seq<Event>, m: RewriteMap) {
    && |states| == |events| + 1 && states[0] == START
    && forall i :: 0 <= i < |events| ==> Next(states[i], events[i], m) == Some(states[i + 1])
  }

  // ---- Forwarding, unconditionally ----

  function Datas(asked: seq<Asked>): (r: seq<Bytes>)
    ensures |r| == |asked| && forall i :: 0 <= i < |asked| ==> r[i] == asked[i].data
  {
    seq(|asked|, i requires 0 <= i < |asked| => asked[i].data)
  }

  function Outs(replies: seq<Reply>): (r: seq<Bytes>)
    ensures |r| == |replies| && forall i :: 0 <= i < |replies| ==> r[i] == replies[i].out
  {
    seq(|replies|, i requires 0 <= i < |replies| => replies[i].out)
  }

  ghost predicate SinkOk(k: Sink) {
    !k.needsFlush ==> k.buffer == []
  }

  /** Every frame read is in the sink or in hand, in order; every reply passed on likewise. */
  ghost predicate Forwards(s: Link) {
    && SinkOk(s.up) && SinkOk(s.down) && |s.pending| <= MAX_PENDING
    && Datas(s.asked) == Through(s.up) + (if s.held.Some? then [s.held.value] else [])
    && Through(s.down) <= Outs(s.replies) && (s.down.open ==> Through(s.down) == Outs(s.replies))
  }

  lemma SinkSteps(k: Sink, frame: Bytes, ok: bool, drains: bool)
    requires SinkOk(k)
    ensures SinkOk(Written(k, frame, ok, drains)) && SinkOk(Ticked(k, ok)) && SinkOk(Ended(k, ok))
    ensures Through(Written(k, frame, ok, drains)) == if ok then Through(k) + [frame] else Through(k)
    ensures Through(Ticked(k, ok)) == Through(k) == Through(Ended(k, ok))
  {
    assert k.flushed + (k.buffer + [frame]) == Through(k) + [frame];
  }

  lemma TickDrains(k: Sink)
    requires SinkOk(k)
    ensures Ticked(k, true).buffer == []
  {
  }

  lemma ReadForwards(s: Link, data: Bytes, t: Link, m: RewriteMap)
    requires Forwards(s) && Next(s, Read(data), m) == Some(t)
    ensures Forwards(t)
  {
    hide ParseRequestHeader;
    assert Datas(t.asked) == Datas(s.asked) + [data];
    if t.pending != s.pending {
      var c := ParseRequestHeader(data).value.cid;
      assert t.pending.Keys == s.pending.Keys + {c};
      assert |t.pending.Keys| <= |s.pending.Keys| + 1;
    }
  }

  lemma PassForwards(s: Link, request: Option<nat>, data: Bytes, ok: bool, drains: bool, t: Link, m: RewriteMap)
    requires Forwards(s) && s.down.open && t == PassOn(s, request, data, ok, drains, m)
    ensures Forwards(t)
  {
    var out := Rewritten(s.pending, data, m);
    hide Rewritten, ParseResponseCid;
    SinkSteps(s.down, out, ok, drains);
    hide Forwards;
    assert Outs(t.replies) == Outs(s.replies) + [out];
    assert |t.pending| <= |s.pending| by {
      assert t.pending.Keys <= s.pending.Keys;
      SubsetSize(t.pending.Keys, s.pending.Keys);
    }
    assert Forwards(t) by {
      hide Written, Through;
      Assembled(s, t, out, ok);
    }
  }

  lemma Assembled(s: Link, t: Link, out: Bytes, ok: bool)
    requires Forwards(s) && s.down.open && SinkOk(t.down) && |t.pending| <= |s.pending|
    requires t.up == s.up && t.held == s.held && t.asked == s.asked
    requires Through(t.down) == (if ok then Through(s.down) + [out] else Through(s.down)) && (t.down.open ==> ok)
    requires Outs(t.replies) == Outs(s.replies) + [out]
    ensures Forwards(t)
  {
  }

  lemma NextForwards(s: Link, e: Event, t: Link, m: RewriteMap)
    requires Forwards(s) && Next(s, e, m) == Some(t)
    ensures Forwards(t)
  {
    hide Record, PassOn, ParseRequestHeader, PutI32;
    match e {
      case Read(data) => ReadForwards(s, data, t, m);
      case Forward(ok, drains) => SinkSteps(s.up, s.held.value, ok, drains);
      case UpTick(ok) => SinkSteps(s.up, [], ok, false);
      case InputEnds(ok) => SinkSteps(s.up, [], ok, false);
      case Answer(i, payload, ok, drains) =>
        var mid := s.(asked := s.asked[i := s.asked[i].(answered := true)]);
        assert Datas(mid.asked) == Datas(s.asked);
        assert Forwards(mid);
        PassForwards(mid, Some(i), AnswerTo(s, i, payload).value, ok, drains, t, m);
      case Stray(data, ok, drains) => PassForwards(s, None, data, ok, drains, t, m);
      case DownTick(ok) => SinkSteps(s.down, [], ok, false);
      case OutputEnds(ok) => SinkSteps(s.down, [], ok, false);
    }
  }

  lemma {:induction false} RunForwards(states: seq<Link>, events: seq<Event>, m: RewriteMap, i: nat)
    requires IsRun(states, events, m) && i < |states|
    ensures Forwards(states[i])
    decreases i
  {
    hide Next;
    if i > 0 {
      hide Forwards;
      RunForwards(states, events, m, i - 1);
      NextForwards(states[i - 1], events[i - 1], states[i], m);
    }
  }

  /** What has gone upstream is, byte for byte and in order, what was read downstream, except for
      the frame in hand; without `needsFlush` no frame waits in a sink; and never more than
      1024 requests are recorded. */
  lemma FramesPassThrough(states: seq<Link>, events: seq<Event>, m: RewriteMap, i: nat)
    requires IsRun(states, events, m) && i < |states|
    ensures var s := states[i];
            && Datas(s.asked) == s.up.flushed + s.up.buffer + (if s.held.Some? then [s.held.value] else [])
            && s.down.flushed + s.down.buffer <= Outs(s.replies)
            && (!s.up.needsFlush ==> s.up.buffer == []) && (!s.down.needsFlush ==> s.down.buffer == [])
            && |s.pending| <= 1024
  {
    hide Next;
    RunForwards(states, events, m, i);
  }

  /** When the client closes its side, every frame it sent has been flushed upstream. */
  lemma AllFlushedAtEof(states: seq<Link>, events: seq<Event>, m: RewriteMap, i: nat)
    requires IsRun(states, events, m) && i < |events| && events[i] == InputEnds(true)
    ensures states[i + 1].up.flushed == Datas(states[i + 1].asked)
  {
    RunForwards(states, events, m, i + 1);
    assert Next(states[i], events[i], m) == Some(states[i + 1]);
  }

  /** A tick of the flush timer sends on everything written, both ways, and so does the end of the replies;
      between ticks, only a send that drains the sink by itself does. */
  lemma TicksFlush(states: seq<Link>, events: seq<Event>, m: RewriteMap, i: nat)
    requires IsRun(states, events, m) && i < |events|
    ensures events[i] == UpTick(true) || events[i] == Forward(true, true) ==> states[i + 1].up.flushed == Datas(states[i + 1].asked)
    ensures events[i] == DownTick(true) || events[i] == OutputEnds(true)
            || (events[i].Answer? && events[i].ok && events[i].drains) || (events[i].Stray? && events[i].ok && events[i].drains) ==>
              states[i + 1].down.flushed == Outs(states[i + 1].replies)
    ensures events[i].Forward? && events[i].ok && !events[i].drains ==>
              states[i + 1].up.flushed == states[i].up.flushed && states[i + 1].up.buffer == states[i].up.buffer + [states[i].held.value]
  {
    RunForwards(states, events, m, i);
    RunForwards(states, events, m, i + 1);
    assert Next(states[i], events[i], m) == Some(states[i + 1]);
    hide IsRun, ParseRequestHeader, ParseResponseCid, Rewritten, Record, Unrecord, AnswerTo, Datas, Outs;
    if events[i] == OutputEnds(true) {
      assert states[i + 1].replies == states[i].replies;
    }
  }

  // ---- Replies ----

  /** A request with a header that has no reply yet. */
  predicate Open(q: Asked) {
    !q.answered && ParseRequestHeader(q.data).Some?
  }

  function CidIn(q: Asked): Int32
    requires Open(q)
  {
    ParseRequestHeader(q.data).value.cid
  }

  /** An unanswered request that is recorded shares its id with no other unanswered one. */
  ghost predicate DistinctOpen(asked: seq<Asked>) {
    forall i, j :: 0 <= i < j < |asked| && Open(asked[i]) && Open(asked[j])
                   && (Recorded(asked[i].data) || Recorded(asked[j].data)) ==>
      CidIn(asked[i]) != CidIn(asked[j])
  }

  /** Recorded are exactly the open requests whose reply may need rewriting, each under its own id. */
  ghost predicate PendingOk(pending: Pending, asked: seq<Asked>) {
    && (forall i :: 0 <= i < |asked| && Open(asked[i]) && Recorded(asked[i].data) ==>
          var h := ParseRequestHeader(asked[i].data).value;
          h.cid in pending && pending[h.cid] == (h.apiKey, h.version))
    && (forall cid :: cid in pending ==>
          exists i :: 0 <= i < |asked| && Open(asked[i]) && Recorded(asked[i].data) && CidIn(asked[i]) == cid)
  }

  /** The reply to a request is rewritten under that request's own header. */
  ghost predicate ReplyOk(asked: seq<Asked>, r: Reply, m: RewriteMap) {
    match r.request
    case None => r.out == r.data
    case Some(i) =>
      && i < |asked| && asked[i].answered && ParseRequestHeader(asked[i].data).Some?
      && var h := ParseRequestHeader(asked[i].data).value;
         ParseResponseCid(r.data) == Some(h.cid) && r.out == OneToOneReply(r.data, h.apiKey, h.version, m)
  }

  ghost predicate RepliesOk(asked: seq<Asked>, rs: seq<Reply>, m: RewriteMap) {
    && (forall j :: 0 <= j < |rs| ==> ReplyOk(asked, rs[j], m))
    && (forall j, l :: 0 <= j < l < |rs| && rs[j].request.Some? ==> rs[j].request != rs[l].request)
  }

  ghost predicate Paired(s: Link, m: RewriteMap) {
    PendingOk(s.pending, s.asked) && RepliesOk(s.asked, s.replies, m)
  }

  /** The cap is not met, the ids stay distinct, and a stray frame bears no recorded id. */
  ghost predicate Orderly(s: Link, e: Event, t: Link) {
    && DistinctOpen(t.asked)
    && (e.Read? && Recorded(e.data) ==> |s.pending| < 1024)
    && (e.Stray? ==> ParseResponseCid(e.data).None? || ParseResponseCid(e.data).value !in s.pending)
  }

  lemma ReadPairs(s: Link, data: Bytes, t: Link, m: RewriteMap)
    requires Paired(s, m) && Next(s, Read(data), m) == Some(t) && Orderly(s, Read(data), t)
    ensures Paired(t, m)
  {
    ReadPending(s.pending, s.asked, data);
    hide ParseRequestHeader, ParseResponseCid, OneToOneReply, PendingOk, Recorded;
    assert forall j :: 0 <= j < |s.replies| ==> ReplyOk(s.asked, s.replies[j], m);
  }

  lemma ReadPending(pending: Pending, asked: seq<Asked>, data: Bytes)
    requires PendingOk(pending, asked) && DistinctOpen(asked + [Asked(data, false)])
    requires Recorded(data) ==> |pending| < MAX_PENDING
    ensures PendingOk(Record(pending, data), asked + [Asked(data, false)])
  {
    hide ParseRequestHeader, NeedsRewrite;
    var after := asked + [Asked(data, false)];
    var next := Record(pending, data);
    forall i | 0 <= i < |after| && Open(after[i]) && Recorded(after[i].data)
      ensures var h := ParseRequestHeader(after[i].data).value; h.cid in next && next[h.cid] == (h.apiKey, h.version)
    {
      if i < |asked| && Recorded(data) {
        assert Open(after[|asked|]) && CidIn(after[i]) != CidIn(after[|asked|]);
      }
    }
    forall cid | cid in next
      ensures exists i :: 0 <= i < |after| && Open(after[i]) && Recorded(after[i].data) && CidIn(after[i]) == cid
    {
      if cid in pending {
        var i :| 0 <= i < |asked| && Open(asked[i]) && Recorded(asked[i].data) && CidIn(asked[i]) == cid;
        assert after[i] == asked[i];
      } else {
        assert Open(after[|asked|]) && CidIn(after[|asked|]) == cid;
      }
    }
  }

  /** Answering request i takes its record, if it has one, and no other. */
  lemma AnswerPending(pending: Pending, asked: seq<Asked>, i: nat)
    requires PendingOk(pending, asked) && DistinctOpen(asked) && i < |asked| && Open(asked[i])
    ensures PendingOk(pending - {CidIn(asked[i])}, asked[i := asked[i].(answered := true)])
    ensures CidIn(asked[i]) in pending <==> Recorded(asked[i].data)
    ensures Recorded(asked[i].data) ==>
              var h := ParseRequestHeader(asked[i].data).value; pending[h.cid] == (h.apiKey, h.version)
  {
    hide ParseRequestHeader, NeedsRewrite;
    var after := asked[i := asked[i].(answered := true)];
    var next := pending - {CidIn(asked[i])};
    forall j | 0 <= j < |after| && Open(after[j]) && Recorded(after[j].data)
      ensures var h := ParseRequestHeader(after[j].data).value; h.cid in next && next[h.cid] == (h.apiKey, h.version)
    {
      assert after[j] == asked[j] && CidIn(asked[j]) != CidIn(asked[i]);
    }
    forall cid | cid in next
      ensures exists j :: 0 <= j < |after| && Open(after[j]) && Recorded(after[j].data) && CidIn(after[j]) == cid
    {
      var j :| 0 <= j < |asked| && Open(asked[j]) && Recorded(asked[j].data) && CidIn(asked[j]) == cid;
      assert after[j] == asked[j];
    }
    if CidIn(asked[i]) in pending {
      var j :| 0 <= j < |asked| && Open(asked[j]) && Recorded(asked[j].data) && CidIn(asked[j]) == CidIn(asked[i]);
      assert j == i;
    }
  }

  /** The record taken was that of every other recorded request under the id. */
  lemma RecordsLeft(pending: Pending, asked: seq<Asked>, i: nat, cid: Int32)
    requires PendingOk(pending, asked) && i < |asked| && Open(asked[i]) && cid in pending && cid != CidIn(asked[i])
    ensures var after := asked[i := asked[i].(answered := true)];
            exists j :: 0 <= j < |after| && Open(after[j]) && Recorded(after[j].data) && CidIn(after[j]) == cid
  {
    hide ParseRequestHeader, Recorded;
    var after := asked[i := asked[i].(answered := true)];
    var j :| 0 <= j < |asked| && Open(asked[j]) && Recorded(asked[j].data) && CidIn(asked[j]) == cid;
    assert after[j] == asked[j];
  }

  /** No other recorded request in use bears request i's id. */
  ghost predicate BearsItAlone(asked: seq<Asked>, i: nat)
    requires i < |asked| && Open(asked[i])
  {
    forall j :: 0 <= j < |asked| && j != i && Open(asked[j]) && Recorded(asked[j].data) ==> CidIn(asked[j]) != CidIn(asked[i])
  }

  lemma LeftIntact(pending: Pending, asked: seq<Asked>, i: nat)
    requires PendingOk(pending, asked) && i < |asked| && Open(asked[i]) && BearsItAlone(asked, i)
    ensures PendingOk(pending - {CidIn(asked[i])}, asked[i := asked[i].(answered := true)])
  {
    var after := asked[i := asked[i].(answered := true)];
    var next := pending - {CidIn(asked[i])};
    forall cid | cid in next
      ensures exists j :: 0 <= j < |after| && Open(after[j]) && Recorded(after[j].data) && CidIn(after[j]) == cid
    {
      RecordsLeft(pending, asked, i, cid);
    }
    hide ParseRequestHeader, Recorded;
    forall j | 0 <= j < |after| && Open(after[j]) && Recorded(after[j].data)
      ensures var h := ParseRequestHeader(after[j].data).value; h.cid in next && next[h.cid] == (h.apiKey, h.version)
    {
      assert after[j] == asked[j];
    }
  }

  lemma NotIntact(pending: Pending, asked: seq<Asked>, i: nat)
    requires i < |asked| && Open(asked[i])
    requires PendingOk(pending - {CidIn(asked[i])}, asked[i := asked[i].(answered := true)])
    ensures BearsItAlone(asked, i)
  {
    hide ParseRequestHeader, Recorded;
    var after := asked[i := asked[i].(answered := true)];
    forall j | 0 <= j < |asked| && j != i && Open(asked[j]) && Recorded(asked[j].data)
      ensures CidIn(asked[j]) != CidIn(asked[i])
    {
      assert after[j] == asked[j];
    }
  }

  /** A reply leaves the other records intact exactly if no other recorded request in use bears its id. */
  lemma AnswerKeepsRecordsExactly(pending: Pending, asked: seq<Asked>, i: nat)
    requires PendingOk(pending, asked) && i < |asked| && Open(asked[i])
    ensures PendingOk(pending - {CidIn(asked[i])}, asked[i := asked[i].(answered := true)])
       <==> forall j :: 0 <= j < |asked| && j != i && Open(asked[j]) && Recorded(asked[j].data) ==>
              CidIn(asked[j]) != CidIn(asked[i])
  {
    if BearsItAlone(asked, i) {
      LeftIntact(pending, asked, i);
    }
    if PendingOk(pending - {CidIn(asked[i])}, asked[i := asked[i].(answered := true)]) {
      NotIntact(pending, asked, i);
    }
    hide PendingOk, ParseRequestHeader, Recorded;
  }

  lemma AnswerPairs(s: Link, i: nat, payload: Bytes, ok: bool, drains: bool, t: Link, m: RewriteMap)
    requires Paired(s, m) && DistinctOpen(s.asked) && Next(s, Answer(i, payload, ok, drains), m) == Some(t)
    ensures Paired(t, m)
  {
    AnswerPending(s.pending, s.asked, i);
    var h := ParseRequestHeader(s.asked[i].data).value;
    var data := PutI32(h.cid) + payload;
    I32RoundTrip(h.cid, payload);
    assert ParseResponseCid(data) == Some(h.cid);
    var r := Reply(Some(i), data, Rewritten(s.pending, data, m));
    assert t.pending == s.pending - {h.cid} && t.asked == s.asked[i := s.asked[i].(answered := true)]
        && t.replies == s.replies + [r] by {
      hide ParseRequestHeader, PutI32, Rewritten, Written, ParseResponseCid;
    }
    hide Next, PutI32, ParseRequestHeader, ParseResponseCid, PendingOk, RewriteOrPass;
    assert ReplyOk(t.asked, r, m);
    hide NeedsRewrite, OneToOneReply;
    MoreReplies(s.asked, i, s.replies, r, m);
  }

  lemma MoreReplies(asked: seq<Asked>, i: nat, rs: seq<Reply>, r: Reply, m: RewriteMap)
    requires RepliesOk(asked, rs, m) && i < |asked| && !asked[i].answered && r.request == Some(i)
    requires ReplyOk(asked[i := asked[i].(answered := true)], r, m)
    ensures RepliesOk(asked[i := asked[i].(answered := true)], rs + [r], m)
  {
    hide ParseRequestHeader, ParseResponseCid, OneToOneReply;
    assert forall j :: 0 <= j < |rs| ==> ReplyOk(asked, rs[j], m);
  }

  lemma StrayPairs(s: Link, e: Event, t: Link, m: RewriteMap)
    requires Paired(s, m) && e.Stray? && Next(s, e, m) == Some(t) && Orderly(s, e, t)
    ensures Paired(t, m)
  {
    hide ParseRequestHeader, ParseResponseCid, OneToOneReply, RewriteOrPass, PendingOk, Written;
    assert t.pending == s.pending;
    assert t.replies == s.replies + [Reply(None, e.data, e.data)];
    assert forall j :: 0 <= j < |s.replies| ==> ReplyOk(s.asked, s.replies[j], m);
  }

  lemma NextPairs(s: Link, e: Event, t: Link, m: RewriteMap)
    requires Paired(s, m) && DistinctOpen(s.asked) && Next(s, e, m) == Some(t) && Orderly(s, e, t)
    ensures Paired(t, m)
  {
    hide Paired, Orderly;
    match e {
      case Read(data) => ReadPairs(s, data, t, m);
      case Answer(i, payload, ok, drains) => AnswerPairs(s, i, payload, ok, drains, t, m);
      case Stray(_, _, _) => StrayPairs(s, e, t, m);
      case _ => SamePairs(s, t, m);
    }
  }

  lemma SamePairs(s: Link, t: Link, m: RewriteMap)
    requires Paired(s, m) && t.pending == s.pending && t.asked == s.asked && t.replies == s.replies
    ensures Paired(t, m)
  {
  }

  ghost predicate IsOrderlyRun(states: seq<Link>, events: seq<Event>, m: RewriteMap) {
    IsRun(states, events, m) && forall i :: 0 <= i < |events| ==> Orderly(states[i], events[i], states[i + 1])
  }

  lemma {:induction false} RunPairs(states: seq<Link>, events: seq<Event>, m: RewriteMap, i: nat)
    requires IsOrderlyRun(states, events, m) && i < |states|
    ensures Paired(states[i], m) && DistinctOpen(states[i].asked)
    decreases i
  {
    hide Next;
    if i > 0 {
      RunPairs(states, events, m, i - 1);
      hide Paired, DistinctOpen;
      assert DistinctOpen(states[i].asked) by {
        assert Orderly(states[i - 1], events[i - 1], states[i]);
      }
      NextPairs(states[i - 1], events[i - 1], states[i], m);
    }
  }

  /** While ids in use are distinct and the cap is not met, every reply is rewritten with exactly its
      own request's key and version, any other frame passes byte for byte, and no request has
      two replies. */
  lemma RepliesMeetTheirRequests(states: seq<Link>, events: seq<Event>, m: RewriteMap, i: nat, j: nat)
    requires IsOrderlyRun(states, events, m) && i < |states| && j < |states[i].replies|
    ensures var s, r := states[i], states[i].replies[j];
            match r.request
            case None => r.out == r.data
            case Some(n) =>
              && n < |s.asked| && ParseRequestHeader(s.asked[n].data).Some?
              && var h := ParseRequestHeader(s.asked[n].data).value;
                 ParseResponseCid(r.data) == Some(h.cid) && r.out == OneToOneReply(r.data, h.apiKey, h.version, m)
    ensures forall l :: j < l < |states[i].replies| && states[i].replies[j].request.Some? ==>
              states[i].replies[l].request != states[i].replies[j].request
  {
    RunPairs(states, events, m, i);
    hide IsOrderlyRun, PendingOk, DistinctOpen, OneToOneReply, ParseRequestHeader, ParseResponseCid;
    assert ReplyOk(states[i].asked, states[i].replies[j], m);
  }

  lemma AnsweredHasCid(s: Link, i: nat, data: Bytes)
    requires AnswerTo(s, i, if |data| >= 4 then data[4..] else []) == Some(data)
    ensures |data| >= 4 && i < |s.asked|
  {
  }

  lemma AnswerPassesOn(s: Link, i: nat, data: Bytes, ok: bool, drains: bool, m: RewriteMap)
    requires s.down.open && |data| >= 4 && AnswerTo(s, i, data[4..]) == Some(data)
    ensures Awaits(s, i)
    ensures Next(s, Answer(i, data[4..], ok, drains), m)
         == Some(PassOn(s.(asked := s.asked[i := s.asked[i].(answered := true)]), Some(i), data, ok, drains, m))
  {
    hide PassOn;
  }

  lemma StrayPassesOn(s: Link, data: Bytes, ok: bool, drains: bool, m: RewriteMap)
    requires s.down.open
    ensures Next(s, Stray(data, ok, drains), m) == Some(PassOn(s, None, data, ok, drains, m))
  {
    hide PassOn;
  }

  // ---- The relay as it runs ----

  /** Both tasks' state, changed in place; each method is one turn of a task's loop. */
  class Relay {
    const rewriteMap: RewriteMap
    var pending: Pending
    var held: Option<Bytes>
    var up: Sink
    var down: Sink
    ghost var asked: seq<Asked>
    ghost var replies: seq<Reply>

    ghost function View(): Link
      reads this
    {
      Link(pending, held, up, down, asked, replies)
    }

    constructor (rewriteMap: RewriteMap)
      ensures View() == START && this.rewriteMap == rewriteMap
    {
      this.rewriteMap := rewriteMap;
      pending, held, asked, replies := map[], None, [], [];
      up, down := Sink([], [], false, true), Sink([], [], false, true);
    }

    /** The request is recorded before it is sent. */
    method ReadRequest(data: Bytes)
      requires up.open && held.None?
      modifies this
      ensures Next(old(View()), Read(data), rewriteMap) == Some(View())
    {
      var header := ParseRequestHeader(data);
      if header.Some? && NeedsRewrite(header.value.apiKey) {
        if |pending| < MAX_PENDING {
          pending := pending[header.value.cid := (header.value.apiKey, header.value.version)];
        }
      }
      held := Some(data);
      asked := asked + [Asked(data, false)];
    }

    method SendRequest(ok: bool, drains: bool)
      requires up.open && held.Some?
      modifies this
      ensures Next(old(View()), Forward(ok, drains), rewriteMap) == Some(View())
    {
      if !ok {
        up := up.(open := false);
        return;
      }
      up := up.(buffer := up.buffer + [held.value], needsFlush := true);
      held := None;
      if drains {
        up := Flushed(up);
      }
    }

    method UpstreamTick(ok: bool)
      requires up.open && held.None?
      modifies this
      ensures Next(old(View()), UpTick(ok), rewriteMap) == Some(View())
    {
      if up.needsFlush {
        if ok {
          up := Flushed(up).(needsFlush := false);
        } else {
          up := up.(open := false);
        }
      }
    }

    method EndInput(ok: bool)
      requires up.open && held.None?
      modifies this
      ensures Next(old(View()), InputEnds(ok), rewriteMap) == Some(View())
    {
      if ok {
        up := Flushed(up);
      }
      up := up.(open := false);
    }

    /** One frame from the broker; `request` only says, for the record, which request it answers. */
    method ForwardReply(data: Bytes, ok: bool, drains: bool, ghost request: Option<nat>)
      requires down.open
      requires request.Some? ==> AnswerTo(View(), request.value, if |data| >= 4 then data[4..] else []) == Some(data)
      modifies this
      ensures Next(old(View()), if request.Some? then Answer(request.value, data[4..], ok, drains) else Stray(data, ok, drains),
                   rewriteMap) == Some(View())
    {
      ghost var was := View();
      if request.Some? {
        AnsweredHasCid(was, request.value, data);
        AnswerPassesOn(was, request.value, data, ok, drains, rewriteMap);
      } else {
        StrayPassesOn(was, data, ok, drains, rewriteMap);
      }
      hide Next, AnswerTo, ParseRequestHeader;
      var cid := ParseResponseCid(data);
      var out := data;
      if cid.Some? {
        if cid.value in pending {
          var (apiKey, version) := pending[cid.value];
          var rewritten := RewriteFrame(apiKey, version, data, rewriteMap);
          out := if rewritten.Some? then rewritten.value else data;
        }
        pending := pending - {cid.value};
      }
      if request.Some? {
        asked := asked[request.value := asked[request.value].(answered := true)];
      }
      replies := replies + [Reply(request, data, out)];
      if ok {
        down := down.(buffer := down.buffer + [out], needsFlush := true);
        if drains {
          down := Flushed(down);
        }
      } else {
        down := down.(open := false);
      }
      assert out == Rewritten(was.pending, data, rewriteMap);
      hide Rewritten;
    }

    method DownstreamTick(ok: bool)
      requires down.open
      modifies this
      ensures Next(old(View()), DownTick(ok), rewriteMap) == Some(View())
    {
      if down.needsFlush {
        if ok {
          down := Flushed(down).(needsFlush := false);
        } else {
          down := down.(open := false);
        }
      }
    }

    method EndOutput(ok: bool)
      requires down.open
      modifies this
      ensures Next(old(View()), OutputEnds(ok), rewriteMap) == Some(View())
    {
      if ok {
        down := Flushed(down);
      }
      down := down.(open := false);
    }
  }
}
