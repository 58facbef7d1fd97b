/** Byte strings and the big-endian integers of the Kafka wire format. */
module Wire {

  type Byte = x: int | 0 <= x < 256
  type Int16 = x: int | -0x8000 <= x < 0x8000
  type Int32 = x: int | -0x8000_0000 <= x < 0x8000_0000
  type Bytes = seq<Byte>

  const TWO_16 := 0x1_0000
  const TWO_32 := 0x1_0000_0000

  datatype Option<+T> = None | Some(value: T)

  /** A decoded value together with the bytes that follow it. */
  datatype Parsed<+T> = Fail | Ok(value: T, rest: Bytes)

  /** Two bytes, most significant first. */
  function Join(high: Byte, low: Byte): (u: nat)
    ensures u < TWO_16
  {
    0x100 * (high as int) + low
  }

  function PutI16(v: Int16): (r: Bytes)
    ensures |r| == 2
  {
    var u := if v < 0 then v + 0x1_0000 else v;
    [u / 0x100, u % 0x100]
  }

  function GetI16(b: Bytes): Int16
    requires |b| >= 2
  {
    var u := Join(b[0], b[1]);
    if u >= 0x8000 then u - 0x1_0000 else u
  }

  /** Two's complement, read without a sign. */
  function Unsigned(v: Int32): (u: nat)
    ensures u < 0x1_0000_0000
  {
    if v < 0 then v + 0x1_0000_0000 else v
  }

  function PutI32(v: Int32): (r: Bytes)
    ensures |r| == 4
  {
    var high, low := Unsigned(v) / 0x1_0000, Unsigned(v) % 0x1_0000;
    [high / 0x100, high % 0x100, low / 0x100, low % 0x100]
  }

  function GetI32(b: Bytes): Int32
    requires |b| >= 4
  {
    var u := 0x1_0000 * Join(b[0], b[1]) + Join(b[2], b[3]);
    if u >= 0x8000_0000 then u - 0x1_0000_0000 else u
  }

  // ---- The bytes themselves: most significant first, negative numbers in two's complement ----

  lemma I16Bytes(v: Int16)
    ensures 0x100 * (PutI16(v)[0] as int) + PutI16(v)[1] == if v < 0 then v + 0x1_0000 else v
  {
  }

  lemma I16Reads(b: Bytes)
    requires |b| >= 2
    ensures var u := 0x100 * (b[0] as int) + b[1]; GetI16(b) == if u >= 0x8000 then u - 0x1_0000 else u
  {
  }

  /** Four bytes as one number without a sign. */
  function Spelled(b: Bytes): int
    requires |b| >= 4
  {
    0x100_0000 * (b[0] as int) + 0x1_0000 * (b[1] as int) + 0x100 * (b[2] as int) + b[3]
  }

  lemma I32Bytes(v: Int32)
    ensures Spelled(PutI32(v)) == if v < 0 then v + 0x1_0000_0000 else v
  {
    var u := Unsigned(v);
    var high, low := u / 0x1_0000, u % 0x1_0000;
    assert u == 0x1_0000 * high + low;
    assert high == 0x100 * (high / 0x100) + high % 0x100;
    assert low == 0x100 * (low / 0x100) + low % 0x100;
  }

  lemma I32Reads(b: Bytes)
    requires |b| >= 4
    ensures GetI32(b) == if Spelled(b) >= 0x8000_0000 then Spelled(b) - 0x1_0000_0000 else Spelled(b)
  {
  }

  lemma I16RoundTrip(v: Int16, tail: Bytes)
    ensures GetI16(PutI16(v) + tail) == v
    ensures (PutI16(v) + tail)[2..] == tail
  {
  }

  lemma I32Joined(v: Int32)
    ensures GetI32(PutI32(v)) == v
  {
    var high, low := Unsigned(v) / 0x1_0000, Unsigned(v) % 0x1_0000;
    assert Join(high / 0x100, high % 0x100) == high;
    assert Join(low / 0x100, low % 0x100) == low;
  }

  lemma I32RoundTrip(v: Int32, tail: Bytes)
    ensures GetI32(PutI32(v) + tail) == v
    ensures (PutI32(v) + tail)[4..] == tail
  {
    hide PutI32;
    I32Joined(v);
  }

  lemma JoinedParts(high: Byte, low: Byte)
    ensures Join(high, low) / 0x100 == high && Join(high, low) % 0x100 == low
  {
  }

  lemma Halves(high: nat, low: nat)
    requires low < 0x1_0000
    ensures (0x1_0000 * high + low) / 0x1_0000 == high && (0x1_0000 * high + low) % 0x1_0000 == low
  {
  }

  lemma UnsignedOfGet(b: Bytes)
    requires |b| >= 4
    ensures Unsigned(GetI32(b)) == 0x1_0000 * Join(b[0], b[1]) + Join(b[2], b[3])
  {
  }

  /** The other direction: four bytes are the encoding of the number they spell. */
  lemma I32Spelled(b: Bytes)
    requires |b| >= 4
    ensures PutI32(GetI32(b)) == b[..4]
  {
    var high, low := Join(b[0], b[1]), Join(b[2], b[3]);
    JoinedParts(b[0], b[1]);
    JoinedParts(b[2], b[3]);
    UnsignedOfGet(b);
    Halves(high, low);
    hide GetI32;
    hide Join;
    hide Unsigned;
  }
}
