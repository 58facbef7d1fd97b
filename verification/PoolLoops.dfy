/** src/pool.rs `write_loop` and `read_loop`, each run from start to end against the shared map. */
module PoolLoops {
  import opened Wire
  import opened Remap
  import opened Rewrite
  import O = OneToOne

  // ---- The read loop ----

  /** A reply handed to a client's response channel. */
  datatype Handed = Handed(cidU: Int32, entry: Entry, frame: Bytes)

  /** The replies among the frames that find a registration: each takes it out of the map, and is handed
      to the client if `room` says that its channel takes it. */
  function ReadAll(frames: seq<Bytes>, room: seq<bool>, routes: Routes, m: RewriteMap): (seq<Handed>, Routes)
    requires |room| == |frames|
    decreases |frames|
  {
    if frames == [] then ([], routes)
    else
      var n := |frames| - 1;
      var (handed, left) := ReadAll(frames[..n], room[..n], routes, m);
      ReadOne(handed, left, frames[n], room[n], m)
  }

  function ReadOne(handed: seq<Handed>, left: Routes, data: Bytes, room: bool, m: RewriteMap): (seq<Handed>, Routes) {
    var cid := ParseResponseCid(data);
    if cid.Some? && cid.value in left then
      var e := left[cid.value];
      (if room then handed + [Handed(cid.value, e, RouteResponse(data, e.cidD, e.apiKey, e.version, m))] else handed,
       left - {cid.value})
    else (handed, left)
  }

  // ---- What is read, told from the frames and the registrations alone ----

  /** Some frame bears the id. */
  ghost predicate Asks(frames: seq<Bytes>, cid: Int32) {
    exists i :: 0 <= i < |frames| && ParseResponseCid(frames[i]) == Some(cid)
  }

  /** Frame j is the first to bear its id, and its id is registered. */
  ghost predicate Answers(frames: seq<Bytes>, routes: Routes, j: nat) {
    && j < |frames| && ParseResponseCid(frames[j]).Some? && ParseResponseCid(frames[j]).value in routes
    && forall i :: 0 <= i < j ==> ParseResponseCid(frames[i]) != ParseResponseCid(frames[j])
  }

  /** What is left of the map: every registration no frame bears the id of. */
  ghost predicate LeftOver(left: Routes, routes: Routes, frames: seq<Bytes>) {
    && (forall cid :: cid in left <==> cid in routes && !Asks(frames, cid))
    && (forall cid :: cid in left ==> left[cid] == routes[cid])
  }

  /** h hands out the frame data to the client registered under its id: under the id that client used, and
      otherwise as the per-connection relay would forward it for that client's key and version. */
  ghost predicate RightReply(h: Handed, data: Bytes, routes: Routes, m: RewriteMap) {
    && |data| >= 4 && ParseResponseCid(data) == Some(h.cidU) && h.cidU in routes && h.entry == routes[h.cidU]
    && h.frame == OneToOneReply(WithCid(h.entry.cidD, data), h.entry.apiKey, h.entry.version, m)
  }

  /** handed are the right replies to the frames at the places `at`, in the order they were read. */
  ghost predicate InPlace(handed: seq<Handed>, at: seq<nat>, frames: seq<Bytes>, routes: Routes, m: RewriteMap) {
    && |at| == |handed| && (forall i, j :: 0 <= i < j < |at| ==> at[i] < at[j])
    && (forall i :: 0 <= i < |at| ==> at[i] < |frames| && RightReply(handed[i], frames[at[i]], routes, m))
  }

  /** The places are those of the answering frames with room. */
  ghost predicate JustThese(at: seq<nat>, frames: seq<Bytes>, room: seq<bool>, routes: Routes)
    requires |room| == |frames|
  {
    forall j: nat :: j < |frames| ==> (j in at <==> Answers(frames, routes, j) && room[j])
  }

  lemma AsksSnoc(frames: seq<Bytes>, data: Bytes, cid: Int32)
    ensures Asks(frames + [data], cid) <==> Asks(frames, cid) || ParseResponseCid(data) == Some(cid)
  {
    hide ParseResponseCid;
    var all := frames + [data];
    if Asks(frames, cid) {
      var i :| 0 <= i < |frames| && ParseResponseCid(frames[i]) == Some(cid);
      assert all[i] == frames[i];
    }
    assert all[|frames|] == data;
  }

  lemma AnswersSnoc(frames: seq<Bytes>, data: Bytes, routes: Routes, left: Routes)
    requires LeftOver(left, routes, frames)
    ensures forall j: nat :: j < |frames| ==> (Answers(frames + [data], routes, j) <==> Answers(frames, routes, j))
    ensures Answers(frames + [data], routes, |frames|)
       <==> ParseResponseCid(data).Some? && ParseResponseCid(data).value in left
  {
    hide ParseResponseCid;
    var all := frames + [data];
    assert all[|frames|] == data && forall i :: 0 <= i < |frames| ==> all[i] == frames[i];
    var cid := ParseResponseCid(data);
    if cid.Some? && cid.value in left {
      forall i | 0 <= i < |frames| ensures ParseResponseCid(frames[i]) != cid {
        assert !Asks(frames, cid.value);
      }
    }
    if cid.Some? && Asks(frames, cid.value) {
      var i :| 0 <= i < |frames| && ParseResponseCid(frames[i]) == cid;
      assert ParseResponseCid(all[i]) == ParseResponseCid(all[|frames|]);
    }
  }

  lemma LeftAfter(left: Routes, routes: Routes, frames: seq<Bytes>, data: Bytes)
    requires LeftOver(left, routes, frames)
    ensures var cid := ParseResponseCid(data);
            LeftOver(if cid.Some? && cid.value in left then left - {cid.value} else left, routes, frames + [data])
  {
    hide ParseResponseCid, Asks;
    forall cid: Int32 ensures Asks(frames + [data], cid) <==> Asks(frames, cid) || ParseResponseCid(data) == Some(cid) {
      AsksSnoc(frames, data, cid);
    }
  }

  lemma RoutedRight(data: Bytes, cidU: Int32, routes: Routes, m: RewriteMap)
    requires ParseResponseCid(data) == Some(cidU) && cidU in routes
    ensures |data| >= 4
    ensures var e := routes[cidU];
            RightReply(Handed(cidU, e, RouteResponse(data, e.cidD, e.apiKey, e.version, m)), data, routes, m)
  {
    var e := routes[cidU];
    I32Spelled(data);
    assert data == PutI32(GetI32(data)) + data[4..];
    PooledRefinesOneToOne(data[4..], GetI32(data), e.cidD, e.apiKey, e.version, m);
  }

  lemma PlaceOn(handed: seq<Handed>, at: seq<nat>, frames: seq<Bytes>, routes: Routes, m: RewriteMap, data: Bytes, h: Handed)
    requires InPlace(handed, at, frames, routes, m)
    ensures InPlace(handed, at, frames + [data], routes, m)
    ensures RightReply(h, data, routes, m) ==> InPlace(handed + [h], at + [|frames|], frames + [data], routes, m)
  {
    hide RightReply;
    var all := frames + [data];
    assert all[|frames|] == data && forall i :: 0 <= i < |frames| ==> all[i] == frames[i];
  }

  lemma TheseOn(at: seq<nat>, frames: seq<Bytes>, room: seq<bool>, routes: Routes, left: Routes, data: Bytes, bit: bool)
    requires |room| == |frames| && JustThese(at, frames, room, routes) && LeftOver(left, routes, frames)
    requires forall i :: 0 <= i < |at| ==> at[i] < |frames|
    ensures var taken := ParseResponseCid(data).Some? && ParseResponseCid(data).value in left && bit;
            JustThese(if taken then at + [|frames|] else at, frames + [data], room + [bit], routes)
  {
    AnswersSnoc(frames, data, routes, left);
    hide ParseResponseCid, LeftOver, Answers;
    var taken := ParseResponseCid(data).Some? && ParseResponseCid(data).value in left && bit;
    var these := if taken then at + [|frames|] else at;
    forall j: nat | j < |frames| + 1
      ensures j in these <==> Answers(frames + [data], routes, j) && (room + [bit])[j]
    {
      assert j < |frames| ==> (j in these <==> j in at);
    }
  }

  /** The read loop settles exactly the registrations that frames bear the ids of: the first frame of each
      such id is its reply, goes out in the order read to the registered client as the per-connection
      relay would forward it, or is dropped for want of room; every other frame is dropped. */
  lemma {:induction false} ReadAllSettles(frames: seq<Bytes>, room: seq<bool>, routes: Routes, m: RewriteMap) returns (at: seq<nat>)
    requires |room| == |frames|
    ensures var (handed, left) := ReadAll(frames, room, routes, m);
            LeftOver(left, routes, frames) && InPlace(handed, at, frames, routes, m) && JustThese(at, frames, room, routes)
    decreases |frames|
  {
    if frames == [] {
      at := [];
    } else {
      hide ParseResponseCid, RouteResponse, Asks, OneToOneReply;
      var n := |frames| - 1;
      var before := ReadAllSettles(frames[..n], room[..n], routes, m);
      var (handed, left) := ReadAll(frames[..n], room[..n], routes, m);
      at := OneMore(frames[..n], room[..n], routes, m, handed, left, before, frames[n], room[n]);
      assert frames == frames[..n] + [frames[n]] && room == room[..n] + [room[n]];
      hide LeftOver, InPlace, JustThese, ReadOne;
    }
  }

  lemma OneMore(frames: seq<Bytes>, room: seq<bool>, routes: Routes, m: RewriteMap, handed: seq<Handed>, left: Routes,
                before: seq<nat>, data: Bytes, bit: bool) returns (at: seq<nat>)
    requires |room| == |frames| && LeftOver(left, routes, frames)
    requires InPlace(handed, before, frames, routes, m) && JustThese(before, frames, room, routes)
    ensures var (after, rest) := ReadOne(handed, left, data, bit, m);
            && LeftOver(rest, routes, frames + [data])
            && InPlace(after, at, frames + [data], routes, m) && JustThese(at, frames + [data], room + [bit], routes)
  {
    LeftAfter(left, routes, frames, data);
    TheseOn(before, frames, room, routes, left, data, bit);
    var cid := ParseResponseCid(data);
    at := before;
    if cid.Some? && cid.value in left {
      var e := left[cid.value];
      assert cid.value in routes && e == routes[cid.value];
      hide LeftOver, ParseResponseCid, RouteResponse, JustThese;
      RoutedRight(data, cid.value, routes, m);
      PlaceOn(handed, before, frames, routes, m, data, Handed(cid.value, e, RouteResponse(data, e.cidD, e.apiKey, e.version, m)));
      at := if bit then before + [|frames|] else before;
    } else {
      hide LeftOver, ParseResponseCid, RouteResponse, JustThese;
      PlaceOn(handed, before, frames, routes, m, data, Handed(0, Entry(0, 0, 0, 0, 0), []));
    }
    hide InPlace, RightReply;
  }

  lemma LongEnough(data: Bytes)
    ensures ParseResponseCid(data).Some? ==> |data| >= 4
  {
  }

  method ReadLoop(frames: seq<Bytes>, room: seq<bool>, remap: CidRemap, metrics: Gauges, m: RewriteMap)
      returns (handed: seq<Handed>, dropped: nat)
    requires |room| == |frames|
    modifies remap`routes, metrics
    ensures (handed, remap.routes) == ReadAll(frames, room, old(remap.routes), m)
    ensures |handed| + dropped == |old(remap.routes)| - |remap.routes|
    ensures metrics.cidMapEntries - |remap.routes| == old(metrics.cidMapEntries) - |old(remap.routes)|
    ensures metrics.requestsInFlight - |remap.routes| == old(metrics.requestsInFlight) - |old(remap.routes)|
  {
    hide ParseResponseCid, RouteResponse;
    handed, dropped := [], 0;
    for i := 0 to |frames|
      modifies remap`routes, metrics
      invariant (handed, remap.routes) == ReadAll(frames[..i], room[..i], old(remap.routes), m)
      invariant |handed| + dropped == |old(remap.routes)| - |remap.routes|
      invariant metrics.cidMapEntries - |remap.routes| == old(metrics.cidMapEntries) - |old(remap.routes)|
      invariant metrics.requestsInFlight - |remap.routes| == old(metrics.requestsInFlight) - |old(remap.routes)|
    {
      assert frames[..i + 1][..i] == frames[..i] && room[..i + 1][..i] == room[..i];
      var data := frames[i];
      var cidU := ParseResponseCid(data);
      if cidU.None? {
        continue;
      }
      ghost var was := remap.routes;
      var entry := remap.Take(cidU.value, metrics);
      if entry.None? {
        assert was - {cidU.value} == was;
        continue;
      }
      assert was.Keys == remap.routes.Keys + {cidU.value};
      assert |was.Keys| == |remap.routes.Keys| + 1;
      metrics.requestsInFlight := metrics.requestsInFlight - 1;
      LongEnough(data);
      var e := entry.value;
      var out := RouteResponse(data, e.cidD, e.apiKey, e.version, m);
      if room[i] {
        handed := handed + [Handed(cidU.value, e, out)];
      } else {
        dropped := dropped + 1;
      }
    }
    assert frames[..|frames|] == frames && room[..|room|] == room;
  }

  // ---- The write loop ----

  datatype Turn =
    | Request(frame: Bytes, ok: bool, drains: bool)   // from the write channel; `send` may flush by itself
    | ChannelCloses(ok: bool)
    | Tick(ok: bool)
    | Reply(data: Bytes, ok: bool)                    // from the broker, passed to the read loop
    | StreamEnds

  function Requests(turns: seq<Turn>): seq<Bytes>
    decreases |turns|
  {
    if turns == [] then []
    else
      var x := turns[|turns| - 1];
      Requests(turns[..|turns| - 1]) + (if x.Request? && x.ok then [x.frame] else [])
  }

  function Replies(turns: seq<Turn>): seq<Bytes>
    decreases |turns|
  {
    if turns == [] then []
    else
      var x := turns[|turns| - 1];
      Replies(turns[..|turns| - 1]) + (if x.Reply? && x.ok then [x.data] else [])
  }

  lemma OneTurn(turns: seq<Turn>, i: nat)
    requires i < |turns|
    ensures var x := turns[i];
            && Requests(turns[..i + 1]) == Requests(turns[..i]) + (if x.Request? && x.ok then [x.frame] else [])
            && Replies(turns[..i + 1]) == Replies(turns[..i]) + (if x.Reply? && x.ok then [x.data] else [])
  {
    assert turns[..i + 1][..i] == turns[..i];
  }

  /** The turn that ends the loop. */
  predicate Ends(x: Turn) {
    x.ChannelCloses? || x.StreamEnds? || (x.Request? && !x.ok) || (x.Reply? && !x.ok)
  }

  /** The select loop: every request frame is passed on in order and every reply frame back in order
      until something ends it; without `needsFlush` nothing waits in the sink. */
  method Pump(turns: seq<Turn>) returns (sink: O.Sink, passed: seq<Bytes>, done: nat)
    ensures done <= |turns| && forall i :: 0 <= i < done - 1 ==> !Ends(turns[i])
    ensures done < |turns| ==> done > 0 && (Ends(turns[done - 1]) || turns[done - 1] == Tick(false))
    ensures sink.flushed + sink.buffer == Requests(turns[..done]) && passed == Replies(turns[..done])
    ensures !sink.needsFlush ==> sink.buffer == []
    ensures done > 0 && turns[done - 1].ChannelCloses? && turns[done - 1].ok ==> sink.buffer == []
    ensures done > 0 && turns[done - 1] == Tick(true) ==> sink.buffer == []
  {
    hide O.Written, O.Ticked;
    sink, passed, done := O.Sink([], [], false, true), [], 0;
    assert Requests(turns[..0]) == [] && Replies(turns[..0]) == [];
    hide Requests, Replies;
    while done < |turns|
      invariant done <= |turns| && forall i :: 0 <= i < done ==> !Ends(turns[i])
      invariant O.Through(sink) == Requests(turns[..done]) && passed == Replies(turns[..done]) && O.SinkOk(sink)
      invariant done > 0 && turns[done - 1] == Tick(true) ==> sink.buffer == []
      decreases |turns| - done
    {
      var x := turns[done];
      OneTurn(turns, done);
      done := done + 1;
      match x {
        case Request(frame, ok, drains) =>
          O.SinkSteps(sink, frame, ok, drains);
          if !ok {
            break;
          }
          sink := O.Written(sink, frame, ok, drains);
        case ChannelCloses(ok) =>
          if ok {
            sink := O.Flushed(sink);
          }
          break;
        case Tick(ok) =>
          O.SinkSteps(sink, [], ok, false);
          O.TickDrains(sink);
          if sink.needsFlush && !ok {
            break;
          }
          sink := O.Ticked(sink, ok);
        case Reply(data, ok) =>
          if !ok {
            break;
          }
          passed := passed + [data];
        case StreamEnds =>
          break;
      }
    }
  }

  /** However the loop ends, the registrations of its own connection, and only those, are taken back,
      and both gauges with them. */
  method WriteLoop(conn: nat, turns: seq<Turn>, remap: CidRemap, metrics: Gauges)
      returns (sink: O.Sink, passed: seq<Bytes>, done: nat)
    modifies remap`routes, metrics
    ensures done <= |turns| && sink.flushed + sink.buffer == Requests(turns[..done]) && passed == Replies(turns[..done])
    ensures remap.routes == Without(old(remap.routes), conn)
    ensures forall cid :: cid in remap.routes <==> cid in old(remap.routes) && old(remap.routes)[cid].conn != conn
    ensures forall cid :: cid in remap.routes ==> remap.routes[cid] == old(remap.routes)[cid]
    ensures metrics.cidMapEntries == old(metrics.cidMapEntries) - |OfConn(old(remap.routes), conn)|
    ensures metrics.requestsInFlight == old(metrics.requestsInFlight) - |OfConn(old(remap.routes), conn)|
  {
    sink, passed, done := Pump(turns);
    SweepCounts(remap.routes, conn);
    var removed := remap.FailConn(conn, metrics);
    for i := 0 to removed
      modifies metrics`requestsInFlight
      invariant metrics.requestsInFlight == old(metrics.requestsInFlight) - i
    {
      metrics.requestsInFlight := metrics.requestsInFlight - 1;
    }
  }
}
