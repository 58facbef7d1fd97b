/** The unsigned varint of Kafka's flexible encodings (KIP-482). */
module Varint {
  import opened Wire

  /** Least significant group first; every byte but the last has its high bit set. */
  function Encode(v: nat): (r: Bytes)
    ensures |r| >= 1
    decreases v
  {
    if v >= 0x80 then [v % 0x80 + 0x80] + Encode(v / 0x80) else [v]
  }

  /** Reads at most `groups` seven-bit groups. */
  function DecodeGroups(b: Bytes, groups: nat): (r: Parsed<nat>)
    ensures r.Ok? ==> |r.rest| < |b| && r.rest == b[|b| - |r.rest|..]
    decreases groups
  {
    if groups == 0 || b == [] then Fail
    else if b[0] < 0x80 then Ok(b[0], b[1..])
    else match DecodeGroups(b[1..], groups - 1)
         case Fail => Fail
         case Ok(high, rest) => Ok(b[0] - 0x80 + 0x80 * high, rest)
  }

  /** A u32 takes at most five groups. */
  function Decode(b: Bytes): (r: Parsed<nat>)
    ensures r.Ok? ==> r.value < TWO_32 && |r.rest| < |b| && r.rest == b[|b| - |r.rest|..]
  {
    match DecodeGroups(b, 5)
    case Fail => Fail
    case Ok(v, rest) => if v < TWO_32 then Ok(v, rest) else Fail
  }

  function Pow128(k: nat): (r: nat)
    ensures r >= 1
  {
    if k == 0 then 1 else 0x80 * Pow128(k - 1)
  }

  lemma {:induction false} GroupsRoundTrip(v: nat, tail: Bytes, groups: nat)
    requires groups >= 1 && v < Pow128(groups)
    ensures DecodeGroups(Encode(v) + tail, groups) == Ok(v, tail)
    decreases groups
  {
    var b := Encode(v) + tail;
    if v >= 0x80 {
      assert groups >= 2;
      assert b[1..] == Encode(v / 0x80) + tail;
      GroupsRoundTrip(v / 0x80, tail, groups - 1);
    } else {
      assert b[1..] == tail;
    }
  }

  /** Every u32 decodes back to itself and what follows it is left untouched. */
  lemma RoundTrip(v: nat, tail: Bytes)
    requires v < TWO_32
    ensures Decode(Encode(v) + tail) == Ok(v, tail)
  {
    assert Pow128(3) == 0x20_0000;
    assert Pow128(5) == 0x80 * 0x80 * Pow128(3);
    GroupsRoundTrip(v, tail, 5);
  }

  /** The code is as short as seven-bit groups allow. */
  lemma {:induction false} MinimalLength(v: nat, k: nat)
    requires k >= 1
    ensures |Encode(v)| <= k <==> v < Pow128(k)
    decreases k
  {
    if v >= 0x80 {
      if k == 1 {
        assert Pow128(1) == 0x80 * Pow128(0);
      } else {
        MinimalLength(v / 0x80, k - 1);
      }
    } else {
      assert Pow128(k) == 0x80 * Pow128(k - 1);
    }
  }

  lemma AtMostFiveBytes(v: nat)
    requires v < TWO_32
    ensures 1 <= |Encode(v)| <= 5
  {
    assert Pow128(3) == 0x20_0000;
    assert Pow128(5) == 0x80 * 0x80 * Pow128(3);
    MinimalLength(v, 5);
  }

  /** Byte i carries the i-th group of seven bits, the least significant group first, and its high bit
      says whether another byte follows. */
  lemma {:induction false} GroupAt(v: nat, i: nat)
    requires i < |Encode(v)|
    ensures Encode(v)[i] == (v / Pow128(i)) % 0x80 + if i + 1 < |Encode(v)| then 0x80 else 0
    decreases i
  {
    if i > 0 {
      GroupAt(v / 0x80, i - 1);
      DividesOn(v, Pow128(i - 1));
    }
  }

  lemma DividesOn(v: nat, p: nat)
    requires p >= 1
    ensures v / 0x80 / p == v / (0x80 * p)
  {
    var q, r := v / 0x80, v % 0x80;
    var a, b := q / p, q % p;
    assert v == 0x80 * q + r && q == p * a + b;
    QuotientIs(v, 0x80 * p, a, 0x80 * b + r);
  }

  lemma {:induction false} Below(d: nat, q: nat, a: nat, r: nat)
    requires q < a && r < d
    ensures d * q + r < d * a
    decreases a
  {
    if q + 1 < a {
      Below(d, q, a - 1, r);
      assert d * a == d * (a - 1) + d;
    } else {
      assert d * a == d * q + d;
    }
  }

  lemma QuotientIs(v: nat, d: nat, a: nat, rest: nat)
    requires d >= 1 && v == d * a + rest && rest < d
    ensures v / d == a
  {
    var q, r := v / d, v % d;
    assert v == d * q + r && r < d;
    if q < a {
      Below(d, q, a, r);
    } else if a < q {
      Below(d, a, q, rest);
    }
  }

  /** No code word is the start of another one. */
  lemma PrefixFree(v: nat, w: nat, x: Bytes, y: Bytes)
    requires v < TWO_32 && w < TWO_32
    requires Encode(v) + x == Encode(w) + y
    ensures v == w && x == y
  {
    RoundTrip(v, x);
    RoundTrip(w, y);
  }

  /** Decoding looks only at the bytes it consumes. */
  lemma {:induction false} GroupsLocal(h: Bytes, r: Bytes, groups: nat, t: Bytes)
    requires DecodeGroups(h + r, groups).Ok? && DecodeGroups(h + r, groups).rest == r
    ensures DecodeGroups(h + t, groups) == Ok(DecodeGroups(h + r, groups).value, t)
    decreases groups
  {
    assert h != [] by {
      assert |r| < |h + r|;
    }
    assert (h + r)[1..] == h[1..] + r && (h + t)[1..] == h[1..] + t;
    if h[0] < 0x80 {
      assert h[1..] == [] && h[1..] + t == t;
    } else {
      GroupsLocal(h[1..], r, groups - 1, t);
    }
  }

  lemma DecodeLocal(b: Bytes, tail: Bytes)
    requires Decode(b).Ok?
    ensures var r := Decode(b);
            Decode(b[..|b| - |r.rest|] + tail) == Ok(r.value, tail)
  {
    var r := Decode(b);
    var h := b[..|b| - |r.rest|];
    assert b == h + r.rest;
    GroupsLocal(h, r.rest, 5, tail);
  }

  /** The growing byte buffer the encoder appends to. */
  class ByteBuffer {
    var data: Bytes

    constructor ()
      ensures data == []
    {
      data := [];
    }

    method PutU8(b: Byte)
      modifies this
      ensures data == old(data) + [b]
    {
      data := data + [b];
    }
  }

  /** `(value as u8) | 0x80` keeps the low seven bits and sets the eighth. */
  method EncodeUnsignedVarint(buf: ByteBuffer, value: nat)
    requires value < TWO_32
    modifies buf
    ensures buf.data == old(buf.data) + Encode(value)
  {
    var v := value;
    while v >= 0x80
      invariant buf.data + Encode(v) == old(buf.data) + Encode(value)
      decreases v
    {
      assert Encode(v) == [v % 0x80 + 0x80] + Encode(v / 0x80);
      buf.PutU8(v % 0x80 + 0x80);
      v := v / 0x80;
    }
    buf.PutU8(v);
  }
}
