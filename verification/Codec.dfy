/** A codec for the three responses that name broker endpoints: Metadata (3),
    FindCoordinator (10) and DescribeCluster (60). It follows the response
    schemas and primitive types of the Apache Kafka protocol guide and KIP-482.
    What surrounds the endpoints is carried as raw bytes. */
module Codec {
  import opened Wire
  import Varint

  const API_KEY_METADATA: Int16 := 3
  const API_KEY_FIND_COORDINATOR: Int16 := 10
  const API_KEY_DESCRIBE_CLUSTER: Int16 := 60

  /** The primitive types found around the endpoints. */
  datatype Field = I8 | I16 | I32 | Str | NullableStr | CompactStr | CompactNullableStr | Tags

  /** Where the endpoints sit in one version of one response. */
  datatype Layout = Layout(
    flexible: bool,
    prefix: seq<Field>,      // between the response header and the endpoints
    repeated: bool,          // an array of endpoints, or exactly one
    before: seq<Field>,      // inside an element, before the node id
    after: seq<Field>)       // inside an element, after the port

  datatype Endpoint = Endpoint(before: Bytes, nodeId: Int32, host: Bytes, port: Int32, after: Bytes)

  datatype Message = Message(cid: Int32, prefix: Bytes, endpoints: seq<Endpoint>, suffix: Bytes)

  function LayoutOf(apiKey: Int16, version: Int16): Option<Layout> {
    if apiKey == API_KEY_METADATA && 0 <= version <= 13 then
      Some(Layout(version >= 9,
                  if version >= 3 then [I32] else [],
                  true, [],
                  if version >= 9 then [CompactNullableStr, Tags] else if version >= 1 then [NullableStr] else []))
    else if apiKey == API_KEY_FIND_COORDINATOR && 0 <= version <= 6 then
      Some(if version >= 4 then Layout(true, [I32], true, [CompactStr], [I16, CompactNullableStr, Tags])
           else if version == 3 then Layout(true, [I32, I16, CompactNullableStr], false, [], [Tags])
           else if version >= 1 then Layout(false, [I32, I16, NullableStr], false, [], [])
           else Layout(false, [I16], false, [], []))
    else if apiKey == API_KEY_DESCRIBE_CLUSTER && 0 <= version <= 2 then
      Some(Layout(true,
                  [I32, I16, CompactNullableStr] + (if version >= 1 then [I8] else []) + [CompactStr, I32],
                  true, [],
                  if version >= 2 then [CompactNullableStr, I8, Tags] else [CompactNullableStr, Tags]))
    else None
  }

  // ---- Skipping over opaque fields ----

  /** One tagged field: a tag, a size and that many bytes. */
  function SkipTag(b: Bytes): (r: Option<nat>)
    ensures r.Some? ==> r.value <= |b|
  {
    match Varint.Decode(b)
    case Fail => None
    case Ok(_, sized) =>
      match Varint.Decode(sized)
      case Fail => None
      case Ok(size, data) => if size <= |data| then Some(|b| - |data| + size) else None
  }

  function SkipTags(count: nat, b: Bytes): (r: Option<nat>)
    ensures r.Some? ==> r.value <= |b|
  {
    if count == 0 then Some(0)
    else match SkipTag(b)
         case None => None
         case Some(n) => match SkipTags(count - 1, b[n..])
                         case None => None
                         case Some(m) => Some(n + m)
  }

  /** The number of bytes one field takes at the start of `b`. */
  function Skip(f: Field, b: Bytes): (r: Option<nat>)
    ensures r.Some? ==> r.value <= |b|
  {
    match f
    case I8 => if |b| >= 1 then Some(1) else None
    case I16 => if |b| >= 2 then Some(2) else None
    case I32 => if |b| >= 4 then Some(4) else None
    case Str =>
      if |b| >= 2 && 0 <= GetI16(b) <= |b| - 2 then Some(2 + GetI16(b)) else None
    case NullableStr =>
      if |b| >= 2 && -1 <= GetI16(b) <= |b| - 2 then Some(if GetI16(b) == -1 then 2 else 2 + GetI16(b)) else None
    case CompactStr =>
      (match Varint.Decode(b)
       case Fail => None
       case Ok(n, rest) => if 1 <= n <= |rest| + 1 then Some(|b| - |rest| + n - 1) else None)
    case CompactNullableStr =>
      (match Varint.Decode(b)
       case Fail => None
       case Ok(n, rest) => if n == 0 then Some(|b| - |rest|)
                           else if n <= |rest| + 1 then Some(|b| - |rest| + n - 1) else None)
    case Tags =>
      match Varint.Decode(b)
      case Fail => None
      case Ok(n, rest) => match SkipTags(n, rest)
                          case None => None
                          case Some(k) => Some(|b| - |rest| + k)
  }

  function SkipAll(fs: seq<Field>, b: Bytes): (r: Option<nat>)
    ensures r.Some? ==> r.value <= |b|
  {
    if fs == [] then Some(0)
    else match Skip(fs[0], b)
         case None => None
         case Some(n) => match SkipAll(fs[1..], b[n..])
                         case None => None
                         case Some(m) => Some(n + m)
  }

  // Each skipper depends only on the bytes it consumes: with `h` the consumed
  // bytes, replacing what follows by `t` changes nothing.

  lemma Cut(h: Bytes, k: nat, t: Bytes)
    requires k <= |h|
    ensures h + t == h[..k] + (h[k..] + t)
    ensures (h + t)[k..] == h[k..] + t
  {
  }

  /** A varint spelled by the first k bytes of `h`. */
  lemma VarintLocal(h: Bytes, k: nat, r: Bytes, t: Bytes)
    requires k <= |h| && Varint.Decode(h + r).Ok?
    requires Varint.Decode(h + r).rest == h[k..] + r
    ensures Varint.Decode(h + t) == Ok(Varint.Decode(h + r).value, h[k..] + t)
  {
    Cut(h, k, r);
    Cut(h, k, t);
    Varint.DecodeLocal(h + r, h[k..] + t);
    assert (h + r)[..k] == h[..k];
  }

  /** The part of `h` a varint leaves over. */
  function VarintEnd(b: Bytes): (k: nat)
    requires Varint.Decode(b).Ok?
    ensures k <= |b| && Varint.Decode(b).rest == b[k..]
  {
    |b| - |Varint.Decode(b).rest|
  }

  lemma SkipTagLocal(h: Bytes, r: Bytes, t: Bytes)
    requires SkipTag(h + r) == Some(|h|)
    ensures SkipTag(h + t) == Some(|h|)
  {
    hide Varint.Decode;
    var k := VarintEnd(h + r);
    var hs := h[k..];
    Cut(h, k, r);
    VarintLocal(h, k, r, t);
    var j := VarintEnd(hs + r);
    Cut(hs, j, r);
    VarintLocal(hs, j, r, t);
  }

  lemma {:induction false} SkipTagsLocal(count: nat, h: Bytes, r: Bytes, t: Bytes)
    requires SkipTags(count, h + r) == Some(|h|)
    ensures SkipTags(count, h + t) == Some(|h|)
    decreases count
  {
    hide SkipTag;
    if count > 0 {
      var k := SkipTag(h + r).value;
      Cut(h, k, r);
      Cut(h, k, t);
      SkipTagLocal(h[..k], h[k..] + r, h[k..] + t);
      SkipTagsLocal(count - 1, h[k..], r, t);
    }
  }

  lemma GetI16Local(h: Bytes, r: Bytes, t: Bytes)
    requires |h| >= 2
    ensures GetI16(h + r) == GetI16(h + t)
  {
  }

  lemma SkipLocal(f: Field, h: Bytes, r: Bytes, t: Bytes)
    requires Skip(f, h + r) == Some(|h|)
    ensures Skip(f, h + t) == Some(|h|)
  {
    hide Varint.Decode;
    hide SkipTags;
    hide GetI16;
    if f.CompactStr? || f.CompactNullableStr? || f.Tags? {
      var k := VarintEnd(h + r);
      Cut(h, k, r);
      VarintLocal(h, k, r, t);
      if f.Tags? {
        SkipTagsLocal(Varint.Decode(h + r).value, h[k..], r, t);
      }
    } else if f.Str? || f.NullableStr? {
      GetI16Local(h, r, t);
    }
  }

  lemma {:induction false} SkipAllLocal(fs: seq<Field>, h: Bytes, r: Bytes, t: Bytes)
    requires SkipAll(fs, h + r) == Some(|h|)
    ensures SkipAll(fs, h + t) == Some(|h|)
    decreases |fs|
  {
    hide Skip;
    if fs != [] {
      var k := Skip(fs[0], h + r).value;
      Cut(h, k, r);
      Cut(h, k, t);
      SkipLocal(fs[0], h[..k], h[k..] + r, h[k..] + t);
      SkipAllLocal(fs[1..], h[k..], r, t);
    }
  }

  // ---- Host strings and the element count ----

  predicate StrFits(flexible: bool, s: Bytes) {
    if flexible then |s| + 1 < TWO_32 else |s| < 0x8000
  }

  function PutStr(flexible: bool, s: Bytes): Bytes
    requires StrFits(flexible, s)
  {
    if flexible then Varint.Encode(|s| + 1) + s else PutI16(|s|) + s
  }

  function GetStr(flexible: bool, b: Bytes): (r: Parsed<Bytes>)
    ensures r.Ok? ==> StrFits(flexible, r.value) && |r.rest| <= |b|
  {
    if flexible then
      match Varint.Decode(b)
      case Fail => Fail
      case Ok(n, rest) => if 1 <= n <= |rest| + 1 then Ok(rest[..n - 1], rest[n - 1..]) else Fail
    else if |b| >= 2 && 0 <= GetI16(b) <= |b| - 2 then Ok(b[2..2 + GetI16(b)], b[2 + GetI16(b)..])
    else Fail
  }

  lemma StrRoundTrip(flexible: bool, s: Bytes, tail: Bytes)
    requires StrFits(flexible, s)
    ensures GetStr(flexible, PutStr(flexible, s) + tail) == Ok(s, tail)
  {
    if flexible {
      CompactRoundTrip(s, tail);
    } else {
      ClassicRoundTrip(s, tail);
    }
  }

  lemma Assoc(a: Bytes, b: Bytes, c: Bytes)
    ensures (a + b) + c == a + (b + c)
  {
  }

  lemma Between(s: Bytes, tail: Bytes)
    ensures (s + tail)[..|s|] == s && (s + tail)[|s|..] == tail
  {
  }

  lemma DropTake(b: Bytes, k: nat, n: nat)
    requires k + n <= |b|
    ensures b[k..k + n] == b[k..][..n] && b[k + n..] == b[k..][n..]
  {
  }

  lemma CompactRoundTrip(s: Bytes, tail: Bytes)
    requires StrFits(true, s)
    ensures GetStr(true, PutStr(true, s) + tail) == Ok(s, tail)
  {
    Between(s, tail);
    Varint.RoundTrip(|s| + 1, s + tail);
    Assoc(Varint.Encode(|s| + 1), s, tail);
    hide Varint.Decode, Varint.Encode;
  }

  lemma ClassicRoundTrip(s: Bytes, tail: Bytes)
    requires StrFits(false, s)
    ensures GetStr(false, PutStr(false, s) + tail) == Ok(s, tail)
  {
    Between(s, tail);
    I16RoundTrip(|s|, s + tail);
    Assoc(PutI16(|s|), s, tail);
    hide PutI16, GetI16;
    DropTake(PutI16(|s|) + (s + tail), 2, |s|);
  }


  predicate CountFits(flexible: bool, n: nat) {
    if flexible then n + 1 < TWO_32 else n < 0x8000_0000
  }

  function PutCount(flexible: bool, n: nat): Bytes
    requires CountFits(flexible, n)
  {
    if flexible then Varint.Encode(n + 1) else PutI32(n)
  }

  /** A null array is not an array of endpoints. */
  function GetCount(flexible: bool, b: Bytes): (r: Parsed<nat>)
    ensures r.Ok? ==> CountFits(flexible, r.value)
  {
    if flexible then
      match Varint.Decode(b)
      case Fail => Fail
      case Ok(n, rest) => if n >= 1 then Ok(n - 1, rest) else Fail
    else if |b| >= 4 && GetI32(b) >= 0 then Ok(GetI32(b), b[4..])
    else Fail
  }

  lemma CountRoundTrip(flexible: bool, n: nat, tail: Bytes)
    requires CountFits(flexible, n)
    ensures GetCount(flexible, PutCount(flexible, n) + tail) == Ok(n, tail)
  {
    if flexible {
      Varint.RoundTrip(n + 1, tail);
    } else {
      I32RoundTrip(n, tail);
    }
  }

  // ---- One endpoint ----

  predicate Opaque(fs: seq<Field>, b: Bytes) {
    SkipAll(fs, b) == Some(|b|)
  }

  predicate EndpointFits(l: Layout, e: Endpoint) {
    Opaque(l.before, e.before) && Opaque(l.after, e.after) && StrFits(l.flexible, e.host)
  }

  function EncodeEndpoint(l: Layout, e: Endpoint): Bytes
    requires EndpointFits(l, e)
  {
    e.before + (PutI32(e.nodeId) + (PutStr(l.flexible, e.host) + (PutI32(e.port) + e.after)))
  }

  function TakeOpaque(fs: seq<Field>, b: Bytes): (r: Parsed<Bytes>)
    ensures r.Ok? ==> Opaque(fs, r.value) && b == r.value + r.rest
  {
    match SkipAll(fs, b)
    case None => Fail
    case Some(n) =>
      assert b == b[..n] + b[n..] && b[..n] + [] == b[..n];
      SkipAllLocal(fs, b[..n], b[n..], []);
      Ok(b[..n], b[n..])
  }

  lemma OpaqueRoundTrip(fs: seq<Field>, raw: Bytes, tail: Bytes)
    requires Opaque(fs, raw)
    ensures TakeOpaque(fs, raw + tail) == Ok(raw, tail)
  {
    assert raw + [] == raw;
    SkipAllLocal(fs, raw, [], tail);
  }

  function DecodeEndpoint(l: Layout, b: Bytes): (r: Parsed<Endpoint>)
    ensures r.Ok? ==> EndpointFits(l, r.value)
  {
    match TakeOpaque(l.before, b)
    case Fail => Fail
    case Ok(before, b1) =>
      if |b1| < 4 then Fail
      else match GetStr(l.flexible, b1[4..])
        case Fail => Fail
        case Ok(host, b2) =>
          if |b2| < 4 then Fail
          else match TakeOpaque(l.after, b2[4..])
            case Fail => Fail
            case Ok(after, rest) => Ok(Endpoint(before, GetI32(b1), host, GetI32(b2), after), rest)
  }

  lemma EndpointRoundTrip(l: Layout, e: Endpoint, tail: Bytes)
    requires EndpointFits(l, e)
    ensures DecodeEndpoint(l, EncodeEndpoint(l, e) + tail) == Ok(e, tail)
  {
    hide Opaque, TakeOpaque, PutI32, GetI32, PutStr, GetStr;
    var t3 := e.after + tail;
    var t2 := PutI32(e.port) + t3;
    var t1 := PutStr(l.flexible, e.host) + t2;
    var t0 := PutI32(e.nodeId) + t1;
    OpaqueRoundTrip(l.before, e.before, t0);
    I32RoundTrip(e.nodeId, t1);
    StrRoundTrip(l.flexible, e.host, t2);
    I32RoundTrip(e.port, t3);
    OpaqueRoundTrip(l.after, e.after, tail);
    Joined(e.before, PutI32(e.nodeId), PutStr(l.flexible, e.host), PutI32(e.port), e.after, tail);
  }

  lemma Joined(a: Bytes, b: Bytes, c: Bytes, d: Bytes, e: Bytes, f: Bytes)
    ensures (a + (b + (c + (d + e)))) + f == a + (b + (c + (d + (e + f))))
  {
    Assoc(a, b + (c + (d + e)), f);
    Assoc(b, c + (d + e), f);
    Assoc(c, d + e, f);
    Assoc(d, e, f);
  }


  predicate AllFit(l: Layout, es: seq<Endpoint>) {
    forall e :: e in es ==> EndpointFits(l, e)
  }

  function EncodeEndpoints(l: Layout, es: seq<Endpoint>): Bytes
    requires AllFit(l, es)
  {
    if es == [] then [] else EncodeEndpoint(l, es[0]) + EncodeEndpoints(l, es[1..])
  }

  function DecodeEndpoints(l: Layout, n: nat, b: Bytes): (r: Parsed<seq<Endpoint>>)
    ensures r.Ok? ==> |r.value| == n && AllFit(l, r.value)
  {
    if n == 0 then Ok([], b)
    else match DecodeEndpoint(l, b)
      case Fail => Fail
      case Ok(e, b1) =>
        match DecodeEndpoints(l, n - 1, b1)
        case Fail => Fail
        case Ok(es, rest) => Ok([e] + es, rest)
  }

  lemma EncodedCons(l: Layout, es: seq<Endpoint>, tail: Bytes)
    requires AllFit(l, es) && es != []
    ensures EndpointFits(l, es[0]) && AllFit(l, es[1..]) && [es[0]] + es[1..] == es
    ensures EncodeEndpoints(l, es) + tail == EncodeEndpoint(l, es[0]) + (EncodeEndpoints(l, es[1..]) + tail)
  {
    hide EndpointFits, EncodeEndpoint;
    Assoc(EncodeEndpoint(l, es[0]), EncodeEndpoints(l, es[1..]), tail);
  }

  lemma DecodedCons(l: Layout, n: nat, b: Bytes, e: Endpoint, b1: Bytes, es: seq<Endpoint>, rest: Bytes)
    requires DecodeEndpoint(l, b) == Ok(e, b1) && DecodeEndpoints(l, n, b1) == Ok(es, rest)
    ensures DecodeEndpoints(l, n + 1, b) == Ok([e] + es, rest)
  {
    hide EndpointFits, DecodeEndpoint;
  }

  lemma NoEndpoints(l: Layout, tail: Bytes)
    ensures AllFit(l, []) && DecodeEndpoints(l, 0, EncodeEndpoints(l, []) + tail) == Ok([], tail)
  {
    assert EncodeEndpoints(l, []) + tail == tail;
  }

  lemma {:induction false} EndpointsRoundTrip(l: Layout, es: seq<Endpoint>, tail: Bytes)
    requires AllFit(l, es)
    ensures DecodeEndpoints(l, |es|, EncodeEndpoints(l, es) + tail) == Ok(es, tail)
    decreases |es|
  {
    hide AllFit, EndpointFits, EncodeEndpoint, DecodeEndpoint, EncodeEndpoints, DecodeEndpoints;
    if es == [] {
      NoEndpoints(l, tail);
    } else {
      var first, others := es[0], es[1..];
      EncodedCons(l, es, tail);
      var t := EncodeEndpoints(l, others) + tail;
      EndpointRoundTrip(l, first, t);
      EndpointsRoundTrip(l, others, tail);
      DecodedCons(l, |others|, EncodeEndpoint(l, first) + t, first, t, others, tail);
    }
  }


  // ---- Whole response frames ----

  /** The messages that have an encoding under a layout. */
  predicate Fits(l: Layout, m: Message) {
    && Opaque(l.prefix, m.prefix)
    && AllFit(l, m.endpoints)
    && (if l.repeated then CountFits(l.flexible, |m.endpoints|) else |m.endpoints| == 1)
  }

  /** A flexible response header ends in a count of tagged fields, always written as zero. */
  function HeaderTags(l: Layout): Bytes {
    if l.flexible then Varint.Encode(0) else []
  }

  function EncodeBody(l: Layout, m: Message): Bytes
    requires Fits(l, m)
  {
    m.prefix + ((if l.repeated then PutCount(l.flexible, |m.endpoints|) else [])
                + (EncodeEndpoints(l, m.endpoints) + m.suffix))
  }

  function Encode(l: Layout, m: Message): Bytes
    requires Fits(l, m)
  {
    PutI32(m.cid) + (HeaderTags(l) + EncodeBody(l, m))
  }

  function DecodeBody(l: Layout, cid: Int32, b: Bytes): (r: Option<Message>)
    ensures r.Some? ==> Fits(l, r.value) && r.value.cid == cid
  {
    match TakeOpaque(l.prefix, b)
    case Fail => None
    case Ok(prefix, b1) =>
      match (if l.repeated then GetCount(l.flexible, b1) else Ok(1, b1))
      case Fail => None
      case Ok(n, b2) =>
        match DecodeEndpoints(l, n, b2)
        case Fail => None
        case Ok(es, suffix) => Some(Message(cid, prefix, es, suffix))
  }

  function Decode(l: Layout, raw: Bytes): (r: Option<Message>)
    ensures r.Some? ==> |raw| >= 4 && Fits(l, r.value) && r.value.cid == GetI32(raw)
  {
    if |raw| < 4 then None
    else if !l.flexible then DecodeBody(l, GetI32(raw), raw[4..])
    else match Varint.Decode(raw[4..])
         case Fail => None
         case Ok(tags, body) => if tags == 0 then DecodeBody(l, GetI32(raw), body) else None
  }

  lemma BodyRoundTrip(l: Layout, m: Message)
    requires Fits(l, m)
    ensures DecodeBody(l, m.cid, EncodeBody(l, m)) == Some(m)
  {
    hide Opaque, TakeOpaque, AllFit, EncodeEndpoints, DecodeEndpoints, PutCount, GetCount;
    var t := EncodeEndpoints(l, m.endpoints) + m.suffix;
    var counted := (if l.repeated then PutCount(l.flexible, |m.endpoints|) else []) + t;
    OpaqueRoundTrip(l.prefix, m.prefix, counted);
    if l.repeated {
      CountRoundTrip(l.flexible, |m.endpoints|, t);
    } else {
      assert counted == t;
    }
    EndpointsRoundTrip(l, m.endpoints, m.suffix);
  }

  /** Every message that fits its layout survives encoding and decoding. */
  lemma RoundTrip(l: Layout, m: Message)
    requires Fits(l, m)
    ensures Decode(l, Encode(l, m)) == Some(m)
  {
    var body := EncodeBody(l, m);
    I32RoundTrip(m.cid, HeaderTags(l) + body);
    if l.flexible {
      Varint.RoundTrip(0, body);
    } else {
      assert HeaderTags(l) + body == body;
    }
    BodyRoundTrip(l, m);
  }

  /** The correlation id is the only thing the first four bytes decide. */
  lemma DecodeUnderCid(l: Layout, raw: Bytes, cid: Int32)
    requires |raw| >= 4
    ensures Decode(l, PutI32(cid) + raw[4..])
         == match Decode(l, raw)
            case None => None
            case Some(m) => Some(m.(cid := cid))
  {
    I32RoundTrip(cid, raw[4..]);
  }

  // ---- The forms, told version by version ----

  /** Which versions have an encoding, which of them are flexible, and which name one endpoint outside
      any array. */
  lemma Forms(apiKey: Int16, version: Int16)
    ensures LayoutOf(apiKey, version).Some? <==>
              || (apiKey == 3 && 0 <= version <= 13) || (apiKey == 10 && 0 <= version <= 6)
              || (apiKey == 60 && 0 <= version <= 2)
    ensures LayoutOf(apiKey, version).Some? ==>
              var l := LayoutOf(apiKey, version).value;
              && (l.flexible <==> apiKey == 60 || (apiKey == 3 && version >= 9) || (apiKey == 10 && version >= 3))
              && (l.repeated <==> !(apiKey == 10 && version <= 3))
  {
  }

  /** Where each response changes form; in between, versions share one. */
  lemma FormsStay(version: Int16)
    ensures 1 <= version <= 2 ==> LayoutOf(3, version) == LayoutOf(3, 1)
    ensures 3 <= version <= 8 ==> LayoutOf(3, version) == LayoutOf(3, 3)
    ensures 9 <= version <= 13 ==> LayoutOf(3, version) == LayoutOf(3, 9)
    ensures 1 <= version <= 2 ==> LayoutOf(10, version) == LayoutOf(10, 1)
    ensures 4 <= version <= 6 ==> LayoutOf(10, version) == LayoutOf(10, 4)
  {
  }

  /** Pieces put together one way and the other. */
  lemma Joins(a: Bytes, b: Bytes, c: Bytes, d: Bytes, e: Bytes, f: Bytes, g: Bytes)
    ensures (a + (b + ((c + d) + (e + f)))) + g == a + (b + (c + (d + (e + (f + g)))))
  {
    Joined(a, b, c + d, e, f, g);
    Assoc(c, d, e + (f + g));
  }


  /** The frame of a message that names one endpoint, piece by piece: `tags` ends the header, `count` is
      that of the array if there is one, and `sized` is the length in front of the host. */
  lemma OneEndpointReads(l: Layout, cid: Int32, tags: Bytes, prefix: Bytes, count: Bytes, e: Endpoint, sized: Bytes, suffix: Bytes)
    requires tags == HeaderTags(l) && count == (if l.repeated then PutCount(l.flexible, 1) else [])
    requires Opaque(l.prefix, prefix) && EndpointFits(l, e) && sized + e.host == PutStr(l.flexible, e.host)
    ensures var rest := e.before + (PutI32(e.nodeId) + (sized + (e.host + (PutI32(e.port) + (e.after + suffix)))));
            Decode(l, PutI32(cid) + (tags + (prefix + (count + rest)))) == Some(Message(cid, prefix, [e], suffix))
  {
    assert [e][1..] == [];
    assert EncodeEndpoints(l, [e]) == EncodeEndpoint(l, e) + EncodeEndpoints(l, []) == EncodeEndpoint(l, e);
    RoundTrip(l, Message(cid, prefix, [e], suffix));
    hide Decode, PutI32, EncodeEndpoints;
    Joins(e.before, PutI32(e.nodeId), sized, e.host, PutI32(e.port), e.after, suffix);
  }

  lemma Nothing(b: Bytes)
    ensures Opaque([], []) && [] + b == b
  {
  }

  /** Metadata version 0: id, broker count, then node id, host and port of each broker. */
  lemma MetadataV0Reads(cid: Int32, node: Int32, host: Bytes, port: Int32, suffix: Bytes)
    requires |host| < 0x8000
    ensures var raw := PutI32(cid) + (PutI32(1) + (PutI32(node) + (PutI16(|host|) + (host + (PutI32(port) + suffix)))));
            Decode(LayoutOf(3, 0).value, raw) == Some(Message(cid, [], [Endpoint([], node, host, port, [])], suffix))
  {
    var l := LayoutOf(3, 0).value;
    assert l == Layout(false, [], true, [], []);
    hide LayoutOf, Decode, Opaque, PutI32, PutI16;
    var endpoint := PutI32(node) + (PutI16(|host|) + (host + (PutI32(port) + suffix)));
    Nothing(suffix);
    Nothing(endpoint);
    Nothing(PutI32(1) + endpoint);
    OneEndpointReads(l, cid, [], [], PutI32(1), Endpoint([], node, host, port, []), PutI16(|host|), suffix);
  }

  /** Metadata version 1: the same with a null rack behind each port. */
  lemma MetadataV1Reads(cid: Int32, node: Int32, host: Bytes, port: Int32, suffix: Bytes)
    requires |host| < 0x8000
    ensures var raw := PutI32(cid) + (PutI32(1) + (PutI32(node) + (PutI16(|host|) + (host + (PutI32(port) + ([0xFF, 0xFF] + suffix))))));
            Decode(LayoutOf(3, 1).value, raw) == Some(Message(cid, [], [Endpoint([], node, host, port, [0xFF, 0xFF])], suffix))
  {
    var l := LayoutOf(3, 1).value;
    assert l == Layout(false, [], true, [], [NullableStr]);
    ClassicNull();
    hide LayoutOf, Decode, PutI32, PutI16;
    var endpoint := PutI32(node) + (PutI16(|host|) + (host + (PutI32(port) + ([0xFF, 0xFF] + suffix))));
    Nothing(endpoint);
    Nothing(PutI32(1) + endpoint);
    hide Opaque;
    OneEndpointReads(l, cid, [], [], PutI32(1), Endpoint([], node, host, port, [0xFF, 0xFF]), PutI16(|host|), suffix);
  }

  /** Metadata version 3: and a throttle time in front. */
  lemma MetadataV3Reads(cid: Int32, throttle: Int32, node: Int32, host: Bytes, port: Int32, suffix: Bytes)
    requires |host| < 0x8000
    ensures var raw := PutI32(cid) + (PutI32(throttle) + (PutI32(1) + (PutI32(node) + (PutI16(|host|) + (host
                       + (PutI32(port) + ([0xFF, 0xFF] + suffix)))))));
            Decode(LayoutOf(3, 3).value, raw)
            == Some(Message(cid, PutI32(throttle), [Endpoint([], node, host, port, [0xFF, 0xFF])], suffix))
  {
    var l := LayoutOf(3, 3).value;
    assert l == Layout(false, [I32], true, [], [NullableStr]);
    ClassicNull();
    OneInt(throttle);
    hide LayoutOf, Decode, PutI32, PutI16;
    var endpoint := PutI32(node) + (PutI16(|host|) + (host + (PutI32(port) + ([0xFF, 0xFF] + suffix))));
    Nothing(endpoint);
    Nothing(PutI32(throttle) + (PutI32(1) + endpoint));
    hide Opaque;
    OneEndpointReads(l, cid, [], PutI32(throttle), PutI32(1), Endpoint([], node, host, port, [0xFF, 0xFF]), PutI16(|host|), suffix);
  }

  /** Metadata version 9: id, no header tags, throttle time, count plus one, then node id, length plus one,
      host, port, a null rack and no tags. */
  lemma MetadataV9Reads(cid: Int32, throttle: Int32, node: Int32, host: Bytes, port: Int32, suffix: Bytes)
    requires |host| < 0x7F
    ensures var raw := PutI32(cid) + ([0] + (PutI32(throttle) + ([2] + (PutI32(node) + ([|host| + 1] + (host
                       + (PutI32(port) + ([0, 0] + suffix))))))));
            Decode(LayoutOf(3, 9).value, raw)
            == Some(Message(cid, PutI32(throttle), [Endpoint([], node, host, port, [0, 0])], suffix))
  {
    var l := LayoutOf(3, 9).value;
    assert l == Layout(true, [I32], true, [], [CompactNullableStr, Tags]);
    SmallVarints(|host| + 1);
    NullAndNoTags();
    OneInt(throttle);
    hide LayoutOf, Decode, Opaque, PutI32, Varint.Encode;
    Nothing(PutI32(node) + ([|host| + 1] + (host + (PutI32(port) + ([0, 0] + suffix)))));
    OneEndpointReads(l, cid, [0], PutI32(throttle), [2], Endpoint([], node, host, port, [0, 0]), [|host| + 1], suffix);
  }

  /** FindCoordinator version 1: id, throttle time, error code, a null message, then the one coordinator's
      node id, host and port. */
  lemma CoordinatorV1Reads(cid: Int32, throttle: Int32, error: Int16, node: Int32, host: Bytes, port: Int32, suffix: Bytes)
    requires |host| < 0x8000
    ensures var prefix := PutI32(throttle) + PutI16(error) + [0xFF, 0xFF];
            var raw := PutI32(cid) + (prefix + (PutI32(node) + (PutI16(|host|) + (host + (PutI32(port) + suffix)))));
            Decode(LayoutOf(10, 1).value, raw) == Some(Message(cid, prefix, [Endpoint([], node, host, port, [])], suffix))
  {
    var prefix := PutI32(throttle) + PutI16(error) + [0xFF, 0xFF];
    var l := LayoutOf(10, 1).value;
    assert l == Layout(false, [I32, I16, NullableStr], false, [], []);
    ClassicError(throttle, error);
    hide LayoutOf, Decode, Opaque, PutI32, PutI16;
    var endpoint := PutI32(node) + (PutI16(|host|) + (host + (PutI32(port) + suffix)));
    Nothing(suffix);
    Nothing(endpoint);
    Nothing(prefix + endpoint);
    OneEndpointReads(l, cid, [], prefix, [], Endpoint([], node, host, port, []), PutI16(|host|), suffix);
  }

  /** FindCoordinator version 0: id, error code, then the coordinator. */
  lemma CoordinatorV0Reads(cid: Int32, error: Int16, node: Int32, host: Bytes, port: Int32, suffix: Bytes)
    requires |host| < 0x8000
    ensures var raw := PutI32(cid) + (PutI16(error) + (PutI32(node) + (PutI16(|host|) + (host + (PutI32(port) + suffix)))));
            Decode(LayoutOf(10, 0).value, raw) == Some(Message(cid, PutI16(error), [Endpoint([], node, host, port, [])], suffix))
  {
    var l := LayoutOf(10, 0).value;
    assert l == Layout(false, [I16], false, [], []);
    OneShort(error);
    hide LayoutOf, Decode, PutI32, PutI16;
    var endpoint := PutI32(node) + (PutI16(|host|) + (host + (PutI32(port) + suffix)));
    Nothing(suffix);
    Nothing(endpoint);
    Nothing(PutI16(error) + endpoint);
    hide Opaque;
    OneEndpointReads(l, cid, [], PutI16(error), [], Endpoint([], node, host, port, []), PutI16(|host|), suffix);
  }

  /** FindCoordinator version 3: id, no header tags, throttle time, error code, a null message, then the one
      coordinator, its host's length plus one in front, and no tags. */
  lemma CoordinatorV3Reads(cid: Int32, throttle: Int32, error: Int16, node: Int32, host: Bytes, port: Int32, suffix: Bytes)
    requires |host| < 0x7F
    ensures var prefix := PutI32(throttle) + (PutI16(error) + [0]);
            var raw := PutI32(cid) + ([0] + (prefix + (PutI32(node) + ([|host| + 1] + (host + (PutI32(port) + ([0] + suffix)))))));
            Decode(LayoutOf(10, 3).value, raw) == Some(Message(cid, prefix, [Endpoint([], node, host, port, [0])], suffix))
  {
    var prefix := PutI32(throttle) + (PutI16(error) + [0]);
    var l := LayoutOf(10, 3).value;
    assert l == Layout(true, [I32, I16, CompactNullableStr], false, [], [Tags]);
    SmallVarints(|host| + 1);
    CompactError(throttle, error);
    NoTags();
    hide LayoutOf, Decode, PutI32, PutI16, Varint.Encode;
    var endpoint := PutI32(node) + ([|host| + 1] + (host + (PutI32(port) + ([0] + suffix))));
    Nothing(endpoint);
    hide Opaque;
    OneEndpointReads(l, cid, [0], prefix, [], Endpoint([], node, host, port, [0]), [|host| + 1], suffix);
  }

  /** FindCoordinator version 4: id, no header tags, throttle time, count plus one, then the coordinator's
      key, node id, host, port, error code, a null message and no tags. */
  lemma CoordinatorV4Reads(cid: Int32, throttle: Int32, key: Bytes, node: Int32, host: Bytes, port: Int32, error: Int16, suffix: Bytes)
    requires |key| < 0x7F && |host| < 0x7F
    ensures var before, after := [|key| + 1] + key, PutI16(error) + [0, 0];
            var raw := PutI32(cid) + ([0] + (PutI32(throttle) + ([2] + (before + (PutI32(node) + ([|host| + 1] + (host
                       + (PutI32(port) + (after + suffix)))))))));
            Decode(LayoutOf(10, 4).value, raw)
            == Some(Message(cid, PutI32(throttle), [Endpoint(before, node, host, port, after)], suffix))
  {
    var before, after := [|key| + 1] + key, PutI16(error) + [0, 0];
    var l := LayoutOf(10, 4).value;
    assert l == Layout(true, [I32], true, [CompactStr], [I16, CompactNullableStr, Tags]);
    SmallVarints(|host| + 1);
    OneKey(key);
    ErrorAndNoTags(error);
    OneInt(throttle);
    hide LayoutOf, Decode, Opaque, PutI32, PutI16, Varint.Encode;
    OneEndpointReads(l, cid, [0], PutI32(throttle), [2], Endpoint(before, node, host, port, after), [|host| + 1], suffix);
  }

  /** DescribeCluster version 0: the same as version 2 below, without the endpoint type and without
      a word on fencing. */
  lemma ClusterV0Reads(cid: Int32, throttle: Int32, error: Int16, id: Bytes, controller: Int32, node: Int32,
                       host: Bytes, port: Int32, suffix: Bytes)
    requires |id| < 0x7F && |host| < 0x7F
    ensures var prefix := PutI32(throttle) + (PutI16(error) + ([0] + (([|id| + 1] + id) + PutI32(controller))));
            var raw := PutI32(cid) + ([0] + (prefix + ([2] + (PutI32(node) + ([|host| + 1] + (host
                       + (PutI32(port) + ([0, 0] + suffix))))))));
            Decode(LayoutOf(60, 0).value, raw)
            == Some(Message(cid, prefix, [Endpoint([], node, host, port, [0, 0])], suffix))
  {
    var prefix := PutI32(throttle) + (PutI16(error) + ([0] + (([|id| + 1] + id) + PutI32(controller))));
    var l := LayoutOf(60, 0).value;
    assert l == Layout(true, [I32, I16, CompactNullableStr, CompactStr, I32], true, [], [CompactNullableStr, Tags]);
    SmallVarints(|host| + 1);
    ClusterRestOfPrefix(id, controller);
    FrontOfPrefix(throttle, error, [CompactStr, I32], ([|id| + 1] + id) + PutI32(controller));
    assert [I32, I16, CompactNullableStr] + [CompactStr, I32] == [I32, I16, CompactNullableStr, CompactStr, I32];
    NullAndNoTags();
    hide LayoutOf, Decode, Opaque, PutI32, PutI16, Varint.Encode;
    Nothing(PutI32(node) + ([|host| + 1] + (host + (PutI32(port) + ([0, 0] + suffix)))));
    OneEndpointReads(l, cid, [0], prefix, [2], Endpoint([], node, host, port, [0, 0]), [|host| + 1], suffix);
  }

  /** DescribeCluster version 1 is version 2 without a word on fencing. */
  lemma ClusterV1IsBetween()
    ensures LayoutOf(60, 1).value.(after := LayoutOf(60, 2).value.after) == LayoutOf(60, 2).value
    ensures LayoutOf(60, 1).value.after == LayoutOf(60, 0).value.after
  {
  }

  /** DescribeCluster version 2: id, no header tags, throttle time, error code, a null message, the endpoint
      type, cluster id and controller, count plus one, then the broker's node id, host, port, a null rack,
      whether it is fenced, and no tags. */
  lemma ClusterV2Reads(cid: Int32, throttle: Int32, error: Int16, kind: Byte, id: Bytes, controller: Int32, node: Int32,
                       host: Bytes, port: Int32, fenced: Byte, suffix: Bytes)
    requires |id| < 0x7F && |host| < 0x7F
    ensures var prefix := PutI32(throttle) + (PutI16(error) + ([0] + ([kind] + (([|id| + 1] + id) + PutI32(controller)))));
            var raw := PutI32(cid) + ([0] + (prefix + ([2] + (PutI32(node) + ([|host| + 1] + (host
                       + (PutI32(port) + ([0, fenced, 0] + suffix))))))));
            Decode(LayoutOf(60, 2).value, raw)
            == Some(Message(cid, prefix, [Endpoint([], node, host, port, [0, fenced, 0])], suffix))
  {
    var before := [0] + ([kind] + (([|id| + 1] + id) + PutI32(controller)));
    var prefix := PutI32(throttle) + (PutI16(error) + before);
    var l := LayoutOf(60, 2).value;
    assert l == Layout(true, [I32, I16, CompactNullableStr, I8, CompactStr, I32], true, [], [CompactNullableStr, I8, Tags]);
    SmallVarints(|host| + 1);
    ClusterPrefix(throttle, error, kind, id, controller);
    ClusterRest(fenced);
    hide LayoutOf, Decode, Opaque, PutI32, PutI16, Varint.Encode;
    Nothing(PutI32(node) + ([|host| + 1] + (host + (PutI32(port) + ([0, fenced, 0] + suffix)))));
    OneEndpointReads(l, cid, [0], prefix, [2], Endpoint([], node, host, port, [0, fenced, 0]), [|host| + 1], suffix);
  }

  /** One field in front of others. */
  lemma FieldThen(f: Field, b: Bytes, fs: seq<Field>, rest: Bytes)
    requires Skip(f, b + rest) == Some(|b|) && Opaque(fs, rest)
    ensures Opaque([f] + fs, b + rest)
  {
    hide Skip;
    Between(b, rest);
    assert ([f] + fs)[1..] == fs;
  }


  /** Throttle time, error code and a null message, in front of other fields. */
  lemma FrontOfPrefix(throttle: Int32, error: Int16, fs: seq<Field>, rest: Bytes)
    requires Opaque(fs, rest)
    ensures Opaque([I32, I16, CompactNullableStr] + fs, PutI32(throttle) + (PutI16(error) + ([0] + rest)))
  {
    hide PutI32, PutI16, Opaque;
    var b := [0] + rest;
    assert b[1..] == rest;
    assert Varint.Decode(b) == Ok(0, rest);
    FieldThen(CompactNullableStr, [0], fs, rest);
    FieldThen(I16, PutI16(error), [CompactNullableStr] + fs, b);
    FieldThen(I32, PutI32(throttle), [I16] + ([CompactNullableStr] + fs), PutI16(error) + b);
    assert [I32] + ([I16] + ([CompactNullableStr] + fs)) == [I32, I16, CompactNullableStr] + fs;
  }

  lemma ClusterRestOfPrefix(id: Bytes, controller: Int32)
    requires |id| < 0x7F
    ensures Opaque([CompactStr, I32], ([|id| + 1] + id) + PutI32(controller))
  {
    hide PutI32, Opaque;
    var tail := PutI32(controller);
    OneInt(controller);
    var b := ([|id| + 1] + id) + tail;
    assert b[1..] == id + tail;
    assert Varint.Decode(b) == Ok(|id| + 1, id + tail);
    FieldThen(CompactStr, [|id| + 1] + id, [I32], tail);
    assert [CompactStr] + [I32] == [CompactStr, I32];
  }

  lemma ClusterPrefix(throttle: Int32, error: Int16, kind: Byte, id: Bytes, controller: Int32)
    requires |id| < 0x7F
    ensures Opaque([I32, I16, CompactNullableStr, I8, CompactStr, I32],
                   PutI32(throttle) + (PutI16(error) + ([0] + ([kind] + (([|id| + 1] + id) + PutI32(controller))))))
  {
    hide PutI32, PutI16, Opaque;
    var rest := ([|id| + 1] + id) + PutI32(controller);
    ClusterRestOfPrefix(id, controller);
    FieldThen(I8, [kind], [CompactStr, I32], rest);
    FrontOfPrefix(throttle, error, [I8] + [CompactStr, I32], [kind] + rest);
    assert [I32, I16, CompactNullableStr] + ([I8] + [CompactStr, I32]) == [I32, I16, CompactNullableStr, I8, CompactStr, I32];
  }

  lemma CompactError(throttle: Int32, error: Int16)
    ensures Opaque([I32, I16, CompactNullableStr], PutI32(throttle) + (PutI16(error) + [0]))
  {
    Nothing([]);
    FrontOfPrefix(throttle, error, [], []);
    assert [I32, I16, CompactNullableStr] + [] == [I32, I16, CompactNullableStr] && [0] + [] == [0];
  }

  lemma NoTags()
    ensures Opaque([Tags], [0])
  {
    assert [0][1..] == [] && Varint.Decode([0]) == Ok(0, []) && SkipTags(0, []) == Some(0);
    assert Skip(Tags, [0]) == Some(1) && SkipAll([], []) == Some(0);
    assert [Tags][1..] == [];
  }

  lemma ClassicNull()
    ensures Opaque([NullableStr], [0xFF, 0xFF])
  {
    assert GetI16([0xFF, 0xFF]) == -1 && [0xFF, 0xFF][2..] == [] && [NullableStr][1..] == [];
    assert SkipAll([], []) == Some(0);
  }

  lemma OneShort(v: Int16)
    ensures Opaque([I16], PutI16(v))
  {
    assert [I16][1..] == [] && PutI16(v)[2..] == [];
    assert SkipAll([], []) == Some(0);
  }

  lemma ClusterRest(fenced: Byte)
    ensures Opaque([CompactNullableStr, I8, Tags], [0, fenced, 0])
  {
    NoTags();
    FieldThen(I8, [fenced], [Tags], [0]);
    assert [I8] + [Tags] == [I8, Tags] && [fenced] + [0] == [fenced, 0];
    assert [0, fenced, 0][1..] == [fenced, 0] && [0] + [fenced, 0] == [0, fenced, 0];
    assert Varint.Decode([0, fenced, 0]) == Ok(0, [fenced, 0]);
    FieldThen(CompactNullableStr, [0], [I8, Tags], [fenced, 0]);
    assert [CompactNullableStr] + [I8, Tags] == [CompactNullableStr, I8, Tags];
  }

  lemma SmallVarints(n: nat)
    requires n < 0x80
    ensures Varint.Encode(0) == [0] && Varint.Encode(2) == [2] && Varint.Encode(n) == [n]
  {
  }

  lemma NullAndNoTags()
    ensures Opaque([CompactNullableStr, Tags], [0, 0])
  {
    assert [0, 0][1..] == [0] && [0][1..] == [];
    assert Varint.Decode([0, 0]) == Ok(0, [0]) && Varint.Decode([0]) == Ok(0, []);
    assert Skip(CompactNullableStr, [0, 0]) == Some(1);
    assert SkipTags(0, []) == Some(0);
    assert Skip(Tags, [0]) == Some(1);
    assert SkipAll([], []) == Some(0);
    assert [CompactNullableStr, Tags][1..] == [Tags] && [Tags][1..] == [];
    assert SkipAll([Tags], [0]) == Some(1);
  }

  lemma OneInt(v: Int32)
    ensures Opaque([I32], PutI32(v))
  {
    assert [I32][1..] == [] && PutI32(v)[4..] == [];
    assert SkipAll([], []) == Some(0);
  }

  lemma ClassicError(throttle: Int32, error: Int16)
    ensures Opaque([I32, I16, NullableStr], PutI32(throttle) + PutI16(error) + [0xFF, 0xFF])
  {
    var b := PutI32(throttle) + PutI16(error) + [0xFF, 0xFF];
    assert b[4..] == PutI16(error) + [0xFF, 0xFF] && b[4..][2..] == [0xFF, 0xFF] && [0xFF, 0xFF][2..] == [];
    hide PutI32, PutI16;
    assert [I32, I16, NullableStr][1..] == [I16, NullableStr] && [I16, NullableStr][1..] == [NullableStr]
        && [NullableStr][1..] == [];
    assert GetI16([0xFF, 0xFF]) == -1;
    assert SkipAll([], []) == Some(0);
    assert SkipAll([NullableStr], [0xFF, 0xFF]) == Some(2);
    assert SkipAll([I16, NullableStr], b[4..]) == Some(4);
  }

  lemma OneKey(key: Bytes)
    requires |key| < 0x7F
    ensures Opaque([CompactStr], [|key| + 1] + key)
  {
    var b := [|key| + 1] + key;
    assert b[1..] == key && b[|b|..] == [];
    assert Varint.Decode(b) == Ok(|key| + 1, key);
    assert [CompactStr][1..] == [] && SkipAll([], []) == Some(0);
  }

  lemma ErrorAndNoTags(error: Int16)
    ensures Opaque([I16, CompactNullableStr, Tags], PutI16(error) + [0, 0])
  {
    NullAndNoTags();
    var b := PutI16(error) + [0, 0];
    assert b[2..] == [0, 0];
    assert [I16, CompactNullableStr, Tags][1..] == [CompactNullableStr, Tags];
  }
}
