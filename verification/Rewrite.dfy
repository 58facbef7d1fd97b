/** src/rewrite.rs: replacing broker endpoints in response frames. */
module Rewrite {
  import opened Wire
  import opened Codec
  import Varint

  type Port = x: int | 0 <= x < 0x1_0000

  /** What clients are told to connect to instead of the real broker. */
  datatype Advertised = Advertised(host: Bytes, port: Port)

  type RewriteMap = map<Int32, Advertised>

  predicate NeedsRewrite(apiKey: Int16) {
    apiKey == API_KEY_METADATA || apiKey == API_KEY_DESCRIBE_CLUSTER || apiKey == API_KEY_FIND_COORDINATOR
  }

  /** Metadata, FindCoordinator and DescribeCluster, and no other request. */
  lemma NeedsRewriteExactly(apiKey: Int16)
    ensures NeedsRewrite(apiKey) <==> apiKey in {3, 10, 60}
  {
  }

  datatype RequestHeader = RequestHeader(apiKey: Int16, version: Int16, cid: Int32)

  function ParseRequestHeader(raw: Bytes): Option<RequestHeader> {
    if |raw| < 8 then None
    else Some(RequestHeader(GetI16(raw), GetI16(raw[2..]), GetI32(raw[4..])))
  }

  function ParseResponseCid(raw: Bytes): Option<Int32> {
    if |raw| < 4 then None else Some(GetI32(raw))
  }

  /** Which bytes a request header is read from: key, version, id, each most significant byte first and
      in two's complement; below eight bytes there is none. */
  lemma HeaderBytes(raw: Bytes)
    ensures ParseRequestHeader(raw).None? <==> |raw| < 8
    ensures |raw| >= 8 ==>
              var h := ParseRequestHeader(raw).value;
              var key, version := 0x100 * (raw[0] as int) + raw[1], 0x100 * (raw[2] as int) + raw[3];
              var cid := 0x100_0000 * (raw[4] as int) + 0x1_0000 * (raw[5] as int) + 0x100 * (raw[6] as int) + raw[7];
              && h.apiKey == (if key >= 0x8000 then key - 0x1_0000 else key)
              && h.version == (if version >= 0x8000 then version - 0x1_0000 else version)
              && h.cid == (if cid >= 0x8000_0000 then cid - 0x1_0000_0000 else cid)
  {
    if |raw| >= 8 {
      I16Reads(raw);
      I16Reads(raw[2..]);
      I32Reads(raw[4..]);
    }
  }

  lemma ResponseCidBytes(raw: Bytes)
    ensures ParseResponseCid(raw).None? <==> |raw| < 4
    ensures |raw| >= 4 ==>
              var cid := 0x100_0000 * (raw[0] as int) + 0x1_0000 * (raw[1] as int) + 0x100 * (raw[2] as int) + raw[3];
              ParseResponseCid(raw).value == if cid >= 0x8000_0000 then cid - 0x1_0000_0000 else cid
  {
    if |raw| >= 4 {
      I32Reads(raw);
    }
  }

  /** The frame with its first four bytes, the correlation id, replaced. */
  function WithCid(cid: Int32, frame: Bytes): (r: Bytes)
    requires |frame| >= 4
    ensures |r| == |frame| && r[4..] == frame[4..]
  {
    PutI32(cid) + frame[4..]
  }

  // ---- Substituting endpoints ----

  function Substitute(e: Endpoint, m: RewriteMap): Endpoint {
    if e.nodeId in m then e.(host := m[e.nodeId].host, port := m[e.nodeId].port) else e
  }

  function SubstituteAll(es: seq<Endpoint>, m: RewriteMap): (r: seq<Endpoint>)
    ensures |r| == |es|
    ensures forall i :: 0 <= i < |es| ==> r[i] == Substitute(es[i], m)
  {
    seq(|es|, i requires 0 <= i < |es| => Substitute(es[i], m))
  }

  predicate AnyMapped(es: seq<Endpoint>, m: RewriteMap) {
    exists i :: 0 <= i < |es| && es[i].nodeId in m
  }

  function Substituted(msg: Message, m: RewriteMap): Message {
    msg.(endpoints := SubstituteAll(msg.endpoints, m))
  }

  function RewriteResponse(apiKey: Int16, version: Int16, raw: Bytes, m: RewriteMap): Option<Bytes> {
    match LayoutOf(apiKey, version)
    case None => None
    case Some(l) =>
      match Decode(l, raw)
      case None => None
      case Some(msg) =>
        if AnyMapped(msg.endpoints, m) && Fits(l, Substituted(msg, m)) then Some(Encode(l, Substituted(msg, m)))
        else None
  }

  /** The in-place loop over the decoded endpoints. */
  method SubstituteInPlace(endpoints: array<Endpoint>, m: RewriteMap) returns (changed: bool)
    modifies endpoints
    ensures endpoints[..] == SubstituteAll(old(endpoints[..]), m)
    ensures changed == AnyMapped(old(endpoints[..]), m)
  {
    changed := false;
    ghost var was := endpoints[..];
    for i := 0 to endpoints.Length
      invariant forall k :: 0 <= k < i ==> endpoints[k] == Substitute(was[k], m)
      invariant forall k :: i <= k < endpoints.Length ==> endpoints[k] == was[k]
      invariant changed <==> exists k :: 0 <= k < i && was[k].nodeId in m
    {
      var e := endpoints[i];
      if e.nodeId in m {
        endpoints[i] := e.(host := m[e.nodeId].host, port := m[e.nodeId].port);
        changed := true;
      }
    }
  }

  /** Decode, substitute in place, encode again into a fresh buffer. */
  method RewriteFrame(apiKey: Int16, version: Int16, raw: Bytes, m: RewriteMap) returns (out: Option<Bytes>)
    ensures out == RewriteResponse(apiKey, version, raw, m)
  {
    hide LayoutOf;
    hide Decode;
    hide Fits;
    hide EncodeBody;
    hide AnyMapped;
    hide PutI32;
    var layout := LayoutOf(apiKey, version);
    if layout.None? { return None; }
    var l := layout.value;
    var decoded := Decode(l, raw);
    if decoded.None? { return None; }
    var msg := decoded.value;
    var n := |msg.endpoints|;
    var endpoints := new Endpoint[n](i requires 0 <= i < n => msg.endpoints[i]);
    assert endpoints[..] == msg.endpoints;
    var changed := SubstituteInPlace(endpoints, m);
    if !changed { return None; }
    var resp := msg.(endpoints := endpoints[..]);
    assert resp == Substituted(msg, m);
    if !Fits(l, resp) { return None; }
    var buf := new Varint.ByteBuffer();
    buf.data := PutI32(resp.cid);
    if l.flexible {
      Varint.EncodeUnsignedVarint(buf, 0);
    }
    buf.data := buf.data + EncodeBody(l, resp);
    assert buf.data == Encode(l, resp);
    return Some(buf.data);
  }

  // ---- What rewriting means ----

  /** Only the three response kinds are ever rewritten. */
  lemma OnlyThreeKinds(apiKey: Int16, version: Int16, raw: Bytes, m: RewriteMap)
    requires RewriteResponse(apiKey, version, raw, m).Some?
    ensures NeedsRewrite(apiKey) && |raw| >= 4
    ensures |RewriteResponse(apiKey, version, raw, m).value| >= 4
  {
  }

  /** Decoding the rewritten frame gives the original message with the host and
      port of every mapped node replaced and nothing else touched. */
  lemma RewritingIsSubstitution(apiKey: Int16, version: Int16, raw: Bytes, m: RewriteMap)
    requires RewriteResponse(apiKey, version, raw, m).Some?
    ensures LayoutOf(apiKey, version).Some?
    ensures var l := LayoutOf(apiKey, version).value;
            var before, after := Decode(l, raw), Decode(l, RewriteResponse(apiKey, version, raw, m).value);
            && before.Some? && after.Some?
            && after.value.cid == before.value.cid == GetI32(raw)
            && after.value.prefix == before.value.prefix
            && after.value.suffix == before.value.suffix
            && |after.value.endpoints| == |before.value.endpoints|
            && forall i :: 0 <= i < |before.value.endpoints| ==>
                 var b, a := before.value.endpoints[i], after.value.endpoints[i];
                 && a.nodeId == b.nodeId && a.before == b.before && a.after == b.after
                 && a.host == (if b.nodeId in m then m[b.nodeId].host else b.host)
                 && a.port == (if b.nodeId in m then m[b.nodeId].port else b.port)
  {
    var l := LayoutOf(apiKey, version).value;
    RoundTrip(l, Substituted(Decode(l, raw).value, m));
  }

  /** The advertised hosts a message would receive can all be written. */
  predicate HostsFit(l: Layout, es: seq<Endpoint>, m: RewriteMap) {
    forall i :: 0 <= i < |es| && es[i].nodeId in m ==> StrFits(l.flexible, m[es[i].nodeId].host)
  }

  lemma FitsAfter(l: Layout, msg: Message, m: RewriteMap)
    requires Fits(l, msg)
    ensures Fits(l, Substituted(msg, m)) <==> HostsFit(l, msg.endpoints, m)
  {
    hide Opaque;
    var es, rs := msg.endpoints, SubstituteAll(msg.endpoints, m);
    if HostsFit(l, es, m) {
      forall e | e in rs ensures EndpointFits(l, e) {
        var i :| 0 <= i < |rs| && rs[i] == e;
        assert EndpointFits(l, es[i]);
      }
    }
    if AllFit(l, rs) {
      forall i | 0 <= i < |es| && es[i].nodeId in m ensures StrFits(l.flexible, m[es[i].nodeId].host) {
        assert EndpointFits(l, rs[i]);
      }
    }
  }

  /** A frame passes unchanged exactly when its kind or version is not rewritten, it does
      not decode, it names no mapped node, or an advertised host is too long to write. */
  lemma PassesUnchangedExactly(apiKey: Int16, version: Int16, raw: Bytes, m: RewriteMap)
    ensures RewriteResponse(apiKey, version, raw, m).None? <==>
            (|| LayoutOf(apiKey, version).None?
             || Decode(LayoutOf(apiKey, version).value, raw).None?
             || (var l := LayoutOf(apiKey, version).value;
                 var es := Decode(l, raw).value.endpoints;
                 !AnyMapped(es, m) || !HostsFit(l, es, m)))
  {
    if LayoutOf(apiKey, version).Some? {
      var l := LayoutOf(apiKey, version).value;
      if Decode(l, raw).Some? {
        FitsAfter(l, Decode(l, raw).value, m);
      }
    }
  }

  lemma SubstituteTwice(es: seq<Endpoint>, m: RewriteMap)
    ensures SubstituteAll(SubstituteAll(es, m), m) == SubstituteAll(es, m)
    ensures AnyMapped(SubstituteAll(es, m), m) == AnyMapped(es, m)
  {
    var rs := SubstituteAll(es, m);
    assert forall i :: 0 <= i < |es| ==> rs[i].nodeId == es[i].nodeId;
  }

  /** Rewriting its own output yields the same bytes. */
  lemma RewritingIsIdempotent(apiKey: Int16, version: Int16, raw: Bytes, m: RewriteMap)
    requires RewriteResponse(apiKey, version, raw, m).Some?
    ensures var out := RewriteResponse(apiKey, version, raw, m).value;
            RewriteResponse(apiKey, version, out, m) == Some(out)
  {
    var l := LayoutOf(apiKey, version).value;
    var msg := Decode(l, raw).value;
    SubstituteTwice(msg.endpoints, m);
    RoundTrip(l, Substituted(msg, m));
  }

  /** Rewriting commutes with replacing the correlation id. */
  lemma RewritingKeepsCidApart(apiKey: Int16, version: Int16, raw: Bytes, m: RewriteMap, cid: Int32)
    requires |raw| >= 4
    ensures RewriteResponse(apiKey, version, WithCid(cid, raw), m)
         == match RewriteResponse(apiKey, version, raw, m)
            case None => None
            case Some(out) => Some(WithCid(cid, out))
  {
    if LayoutOf(apiKey, version).Some? {
      var l := LayoutOf(apiKey, version).value;
      DecodeUnderCid(l, raw, cid);
      if RewriteResponse(apiKey, version, raw, m).Some? {
        EncodeUnderCid(l, Substituted(Decode(l, raw).value, m), cid);
      }
    }
  }

  lemma EncodeUnderCid(l: Layout, msg: Message, cid: Int32)
    requires Fits(l, msg)
    ensures Fits(l, msg.(cid := cid))
    ensures Encode(l, msg.(cid := cid)) == WithCid(cid, Encode(l, msg))
  {
    assert Encode(l, msg)[4..] == HeaderTags(l) + EncodeBody(l, msg);
  }

  // ---- The two forwarding modes ----

  /** src/pool.rs `route_response`: rewrite if needed, then put the client's id back. */
  function RouteResponse(data: Bytes, cidD: Int32, apiKey: Int16, version: Int16, m: RewriteMap): (r: Bytes)
    requires |data| >= 4
    ensures |r| >= 4
  {
    match RewriteResponse(apiKey, version, data, m)
    case Some(rewritten) => PutI32(cidD) + rewritten[4..]
    case None => PutI32(cidD) + data[4..]
  }

  /** What the 1:1 relay forwards for a reply whose request it recorded. */
  function RewriteOrPass(data: Bytes, apiKey: Int16, version: Int16, m: RewriteMap): Bytes {
    match RewriteResponse(apiKey, version, data, m)
    case Some(rewritten) => rewritten
    case None => data
  }

  /** The 1:1 relay records only requests whose response may need rewriting. */
  function OneToOneReply(data: Bytes, apiKey: Int16, version: Int16, m: RewriteMap): Bytes {
    if NeedsRewrite(apiKey) then RewriteOrPass(data, apiKey, version, m) else data
  }

  /** Pooled mode delivers, byte for byte, what the 1:1 relay would deliver for
      the same reply carrying the client's own correlation id. */
  lemma PooledRefinesOneToOne(payload: Bytes, cidU: Int32, cidD: Int32, apiKey: Int16, version: Int16, m: RewriteMap)
    ensures RouteResponse(PutI32(cidU) + payload, cidD, apiKey, version, m)
         == OneToOneReply(PutI32(cidD) + payload, apiKey, version, m)
  {
    var data := PutI32(cidU) + payload;
    assert data[4..] == payload;
    assert WithCid(cidD, data) == PutI32(cidD) + payload;
    RewritingKeepsCidApart(apiKey, version, data, m, cidD);
    if RewriteResponse(apiKey, version, data, m).Some? {
      OnlyThreeKinds(apiKey, version, data, m);
    }
  }

  /** The delivered frame carries the client's correlation id. */
  lemma RoutedCid(data: Bytes, cidD: Int32, apiKey: Int16, version: Int16, m: RewriteMap)
    requires |data| >= 4
    ensures ParseResponseCid(RouteResponse(data, cidD, apiKey, version, m)) == Some(cidD)
  {
    if RewriteResponse(apiKey, version, data, m).Some? {
      OnlyThreeKinds(apiKey, version, data, m);
      I32RoundTrip(cidD, RewriteResponse(apiKey, version, data, m).value[4..]);
    } else {
      I32RoundTrip(cidD, data[4..]);
    }
  }

  /** What a client of the pooled mode gets: a reply that decodes, and whose advertised hosts can be
      written, decodes to the same message under the client's id with its endpoints substituted; any
      other reply is the broker's bytes behind the client's id. */
  lemma RoutedIsSubstitution(data: Bytes, cidD: Int32, apiKey: Int16, version: Int16, m: RewriteMap)
    requires |data| >= 4
    ensures var out := RouteResponse(data, cidD, apiKey, version, m);
            match LayoutOf(apiKey, version)
            case None => out == PutI32(cidD) + data[4..]
            case Some(l) =>
              if Decode(l, data).Some? && HostsFit(l, Decode(l, data).value.endpoints, m)
              then Decode(l, out) == Some(Substituted(Decode(l, data).value, m).(cid := cidD))
              else out == PutI32(cidD) + data[4..]
  {
    PassesUnchangedExactly(apiKey, version, data, m);
    if LayoutOf(apiKey, version).Some? {
      var l := LayoutOf(apiKey, version).value;
      if Decode(l, data).Some? && HostsFit(l, Decode(l, data).value.endpoints, m) {
        var msg := Decode(l, data).value;
        hide LayoutOf, HostsFit, Fits;
        if AnyMapped(msg.endpoints, m) {
          RoundTrip(l, Substituted(msg, m));
          DecodeUnderCid(l, RewriteResponse(apiKey, version, data, m).value, cidD);
        } else {
          assert SubstituteAll(msg.endpoints, m) == msg.endpoints;
          DecodeUnderCid(l, data, cidD);
        }
      }
    }
  }
}
