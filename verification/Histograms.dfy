/** src/metrics.rs `Histogram`: cumulative buckets kept by one binary search and one tail of
    increments per observation. */
module Histograms {

  /** A 64-bit float as far as comparing goes; rounding is not modelled. */
  datatype Seconds = Number(v: real) | PlusInf | MinusInf | NaN

  predicate AtMost(x: Seconds, bound: real) {
    match x
    case Number(v) => v <= bound
    case PlusInf => false
    case MinusInf => true
    case NaN => false
  }

  /** The bound compares below x; a NaN compares with nothing and so counts as above. */
  predicate Below(bound: real, x: Seconds) {
    match x
    case Number(v) => bound < v
    case PlusInf => true
    case MinusInf => false
    case NaN => true
  }

  ghost predicate Ascending(buckets: seq<real>) {
    forall i, j :: 0 <= i < j < |buckets| ==> buckets[i] < buckets[j]
  }

  /** How many of the observations are at most the bound. */
  function CountAtMost(seen: seq<Seconds>, bound: real): (n: nat)
    ensures n <= |seen|
    decreases |seen|
  {
    if seen == [] then 0
    else CountAtMost(seen[..|seen| - 1], bound) + (if AtMost(seen[|seen| - 1], bound) then 1 else 0)
  }

  lemma OneMore(seen: seq<Seconds>, x: Seconds, bound: real)
    ensures CountAtMost(seen + [x], bound) == CountAtMost(seen, bound) + (if AtMost(x, bound) then 1 else 0)
  {
    assert (seen + [x])[..|seen|] == seen;
  }

  /** It is the number of observations that are minus infinity or a number up to the bound. */
  lemma {:induction false} CountIsSize(seen: seq<Seconds>, bound: real)
    ensures CountAtMost(seen, bound)
         == |set i: nat | i < |seen| && (seen[i].MinusInf? || (seen[i].Number? && seen[i].v <= bound))|
    decreases |seen|
  {
    var all := set i: nat | i < |seen| && (seen[i].MinusInf? || (seen[i].Number? && seen[i].v <= bound));
    if seen == [] {
      assert all == {};
    } else {
      var n := |seen| - 1;
      CountIsSize(seen[..n], bound);
      var before := set i: nat | i < |seen[..n]| && (seen[..n][i].MinusInf? || (seen[..n][i].Number? && seen[..n][i].v <= bound));
      assert all == if AtMost(seen[n], bound) then before + {n} else before;
    }
  }

  /** A wider bucket holds at least as many. */
  lemma {:induction false} WiderHoldsMore(seen: seq<Seconds>, a: real, b: real)
    requires a <= b
    ensures CountAtMost(seen, a) <= CountAtMost(seen, b)
    decreases |seen|
  {
    if seen != [] {
      WiderHoldsMore(seen[..|seen| - 1], a, b);
    }
  }

  /** Whole microseconds, as the saturating cast to u64 gives them. */
  function Micros(x: Seconds): nat {
    match x
    case NaN => 0
    case MinusInf => 0
    case PlusInf => 0xFFFF_FFFF_FFFF_FFFF
    case Number(v) =>
      var m := v * 1000000.0;
      if m <= 0.0 then 0
      else if m >= 18446744073709551615.0 then 0xFFFF_FFFF_FFFF_FFFF
      else m.Floor
  }

  function SumMicros(seen: seq<Seconds>): nat
    decreases |seen|
  {
    if seen == [] then 0 else SumMicros(seen[..|seen| - 1]) + Micros(seen[|seen| - 1])
  }

  lemma SumOneMore(seen: seq<Seconds>, x: Seconds)
    ensures SumMicros(seen + [x]) == SumMicros(seen) + Micros(x)
  {
    assert (seen + [x])[..|seen|] == seen;
    hide Micros;
  }

  /** Whole microseconds, rounded down, between none and what a u64 holds. */
  lemma MicrosAre(x: Seconds)
    ensures x.NaN? || x.MinusInf? ==> Micros(x) == 0
    ensures x.PlusInf? ==> Micros(x) == 0xFFFF_FFFF_FFFF_FFFF
    ensures x.Number? && x.v <= 0.0 ==> Micros(x) == 0
    ensures x.Number? && 0.0 <= x.v * 1000000.0 < 18446744073709551615.0 ==>
              Micros(x) as real <= x.v * 1000000.0 < (Micros(x) + 1) as real
    ensures x.Number? && x.v * 1000000.0 >= 18446744073709551615.0 ==> Micros(x) == 0xFFFF_FFFF_FFFF_FFFF
  {
  }

  const DEFAULT_BUCKETS: seq<real> := [0.0001, 0.0005, 0.001, 0.005, 0.01, 0.05, 0.1, 0.5, 1.0, 5.0]

  lemma DefaultBucketsAscend()
    ensures Ascending(DEFAULT_BUCKETS)
  {
  }

  class Histogram {
    const buckets: seq<real>
    const counts: array<nat>
    var sumMicros: nat
    var count: nat
    ghost var seen: seq<Seconds>

    /** Every slot is exact modulo 2^64. */
    ghost predicate Valid()
      reads this, counts
    {
      && Ascending(buckets) && counts.Length == |buckets| + 1
      && (forall i :: 0 <= i < |buckets| ==> counts[i] == CountAtMost(seen, buckets[i]) % 0x1_0000_0000_0000_0000)
      && counts[|buckets|] == count == |seen| % 0x1_0000_0000_0000_0000
      && sumMicros == SumMicros(seen) % 0x1_0000_0000_0000_0000
    }

    /** The buckets every histogram of the proxy has. */
    constructor New()
      ensures Valid() && seen == [] && buckets == DEFAULT_BUCKETS && fresh(counts)
    {
      DefaultBucketsAscend();
      buckets := DEFAULT_BUCKETS;
      counts := new nat[|DEFAULT_BUCKETS| + 1](_ => 0);
      sumMicros, count, seen := 0, 0, [];
    }

    constructor WithBuckets(buckets: seq<real>)
      requires Ascending(buckets)
      ensures Valid() && seen == [] && this.buckets == buckets && fresh(counts)
    {
      this.buckets := buckets;
      counts := new nat[|buckets| + 1](_ => 0);
      sumMicros, count, seen := 0, 0, [];
    }

    /** The first bucket that holds x, or the number of buckets: where an equal bound is found
        and where x would be inserted are the same place, because the bounds ascend strictly. */
    method Search(x: Seconds) returns (idx: nat)
      requires Ascending(buckets)
      ensures idx <= |buckets|
      ensures forall k :: 0 <= k < idx ==> !AtMost(x, buckets[k])
      ensures forall k :: idx <= k < |buckets| ==> AtMost(x, buckets[k])
      ensures match x
              case Number(v) => forall k :: 0 <= k < |buckets| ==> (k < idx <==> buckets[k] < v)
              case MinusInf => idx == 0
              case _ => idx == |buckets|
    {
      var lo, hi := 0, |buckets|;
      while lo < hi
        invariant 0 <= lo <= hi <= |buckets|
        invariant forall k :: 0 <= k < lo ==> Below(buckets[k], x)
        invariant forall k :: hi <= k < |buckets| ==> !Below(buckets[k], x)
      {
        var mid := lo + (hi - lo) / 2;
        if Below(buckets[mid], x) {
          lo := mid + 1;
        } else if x == Number(buckets[mid]) {
          return mid;
        } else {
          hi := mid;
        }
      }
      assert lo > 0 ==> Below(buckets[0], x);
      assert lo < |buckets| ==> !Below(buckets[lo], x);
      return lo;
    }

    method Observe(x: Seconds)
      requires Valid()
      modifies this, counts
      ensures Valid() && seen == old(seen) + [x]
    {
      hide Micros, SumMicros, CountAtMost;
      sumMicros := (sumMicros + Micros(x)) % 0x1_0000_0000_0000_0000;
      count := (count + 1) % 0x1_0000_0000_0000_0000;
      var idx := Search(x);
      for i := idx to counts.Length
        modifies counts
        invariant forall k :: idx <= k < i ==> counts[k] == (old(counts[k]) + 1) % 0x1_0000_0000_0000_0000
        invariant forall k :: 0 <= k < idx || i <= k < counts.Length ==> counts[k] == old(counts[k])
      {
        counts[i] := (counts[i] + 1) % 0x1_0000_0000_0000_0000;
      }
      seen := seen + [x];
      SumOneMore(old(seen), x);
      AddedTo(SumMicros(old(seen)), Micros(x));
      forall i | 0 <= i < |buckets| ensures counts[i] == CountAtMost(seen, buckets[i]) % 0x1_0000_0000_0000_0000 {
        OneMore(old(seen), x, buckets[i]);
        AddedTo(CountAtMost(old(seen), buckets[i]), 1);
      }
      AddedTo(|old(seen)|, 1);
    }

    /** As rendered: slot i holds the observations up to bucket i, the slots never decrease, and the
        last one is the total, for up to 2^64 - 1 observations, comparable or not. */
    method Render() returns (slots: seq<nat>, inf: nat, total: nat)
      requires Valid() && |seen| < 0x1_0000_0000_0000_0000
      ensures |slots| == |buckets| && inf == total == |seen|
      ensures forall i :: 0 <= i < |slots| ==> slots[i] == CountAtMost(seen, buckets[i]) <= inf
      ensures forall i, j :: 0 <= i < j < |slots| ==> slots[i] <= slots[j]
    {
      slots := counts[..|buckets|];
      inf, total := counts[|buckets|], count;
      forall i, j | 0 <= i < j < |slots| ensures slots[i] <= slots[j] {
        WiderHoldsMore(seen, buckets[i], buckets[j]);
      }
    }
  }

  lemma AddedTo(a: nat, b: nat)
    ensures (a % 0x1_0000_0000_0000_0000 + b) % 0x1_0000_0000_0000_0000 == (a + b) % 0x1_0000_0000_0000_0000
  {
    var q := a / 0x1_0000_0000_0000_0000;
    assert a == q * 0x1_0000_0000_0000_0000 + a % 0x1_0000_0000_0000_0000;
    Wraps(a % 0x1_0000_0000_0000_0000 + b, q);
  }

  lemma {:induction false} Wraps(x: nat, q: nat)
    ensures (q * 0x1_0000_0000_0000_0000 + x) % 0x1_0000_0000_0000_0000 == x % 0x1_0000_0000_0000_0000
  {
    if q > 0 {
      Wraps(x, q - 1);
      var y := (q - 1) * 0x1_0000_0000_0000_0000 + x;
      assert q * 0x1_0000_0000_0000_0000 + x == y + 0x1_0000_0000_0000_0000;
      assert (y + 0x1_0000_0000_0000_0000) % 0x1_0000_0000_0000_0000 == y % 0x1_0000_0000_0000_0000;
    }
  }

  // ---- Observations that compare with nothing ----

  function Uncomparable(seen: seq<Seconds>): nat
    decreases |seen|
  {
    if seen == [] then 0 else Uncomparable(seen[..|seen| - 1]) + (if seen[|seen| - 1].NaN? then 1 else 0)
  }

  function CountAbove(seen: seq<Seconds>, bound: real): nat
    decreases |seen|
  {
    if seen == [] then 0
    else
      var x := seen[|seen| - 1];
      CountAbove(seen[..|seen| - 1], bound) + (if !x.NaN? && Below(bound, x) then 1 else 0)
  }

  /** Every observation is within a bucket, above it, or not a number; the last slot counts them all. */
  lemma {:induction false} EverythingIsCounted(seen: seq<Seconds>, bound: real)
    ensures CountAtMost(seen, bound) + CountAbove(seen, bound) + Uncomparable(seen) == |seen|
    decreases |seen|
  {
    if seen != [] {
      EverythingIsCounted(seen[..|seen| - 1], bound);
    }
  }
}
