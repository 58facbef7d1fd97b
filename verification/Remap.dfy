/** src/pool.rs `CidRemap`: the shared table from upstream correlation ids to
    the client each reply belongs to. */
module Remap {
  import opened Wire

  /** Where a reply goes and how its request asked for it. */
  datatype Entry = Entry(client: nat, cidD: Int32, apiKey: Int16, version: Int16, conn: nat)

  type Routes = map<Int32, Entry>

  /** The value a compare-and-swap on `prev` installs and returns. */
  function Successor(prev: Int32): Int32 {
    if prev <= 0 || prev == 0x7FFF_FFFF then 1 else prev + 1
  }

  /** The counter after n successful allocations. */
  function CounterAfter(n: nat): Int32 {
    1 + n % 0x7FFF_FFFF
  }

  /** The id the allocation numbered n, counting from 0, hands out. */
  function CidOf(n: nat): (cid: Int32)
    ensures 1 <= cid <= 0x7FFF_FFFF
  {
    1 + (n + 1) % 0x7FFF_FFFF
  }

  lemma ModStep(n: nat)
    ensures (n + 1) % 0x7FFF_FFFF == if n % 0x7FFF_FFFF == 0x7FFF_FFFE then 0 else n % 0x7FFF_FFFF + 1
  {
  }

  /** One swap moves the counter from n allocations to n + 1 and hands out id n. */
  lemma SwapCounts(n: nat)
    ensures Successor(CounterAfter(n)) == CidOf(n) == CounterAfter(n + 1)
  {
    ModStep(n);
  }

  lemma ModInjective(a: nat, b: nat)
    requires a < b < a + 0x7FFF_FFFF
    ensures a % 0x7FFF_FFFF != b % 0x7FFF_FFFF
  {
    assert b - a == 0x7FFF_FFFF * (b / 0x7FFF_FFFF - a / 0x7FFF_FFFF) + (b % 0x7FFF_FFFF - a % 0x7FFF_FFFF);
  }

  /** Any 2^31 - 1 consecutive allocations hand out distinct ids. */
  lemma CidsDistinct(a: nat, b: nat)
    requires a < b < a + 0x7FFF_FFFF
    ensures CidOf(a) != CidOf(b)
  {
    ModInjective(a + 1, b + 1);
  }

  /** ...and the next one after those repeats the first. */
  lemma CidsRepeat(a: nat)
    ensures CidOf(a + 0x7FFF_FFFF) == CidOf(a)
  {
  }

  function Without(routes: Routes, conn: nat): Routes {
    map cid | cid in routes && routes[cid].conn != conn :: routes[cid]
  }

  /** The registrations of one connection. */
  function OfConn(routes: Routes, conn: nat): set<Int32> {
    set cid | cid in routes && routes[cid].conn == conn
  }

  lemma SweepCounts(routes: Routes, conn: nat)
    ensures |routes| - |Without(routes, conn)| == |OfConn(routes, conn)|
  {
    assert routes.Keys == Without(routes, conn).Keys + OfConn(routes, conn);
    assert |routes.Keys| == |Without(routes, conn).Keys| + |OfConn(routes, conn)|;
  }

  // ---- The class ----

  /** The two in-flight gauges of src/metrics.rs, collection switched on. */
  class Gauges {
    var requestsInFlight: int
    var cidMapEntries: int

    constructor ()
      ensures requestsInFlight == 0 && cidMapEntries == 0
    {
      requestsInFlight, cidMapEntries := 0, 0;
    }
  }

  function Sum(xs: seq<nat>): nat {
    if xs == [] then 0 else xs[0] + Sum(xs[1..])
  }

  lemma {:induction false} SumSnoc(xs: seq<nat>, k: nat)
    requires k < |xs|
    ensures Sum(xs[..k + 1]) == Sum(xs[..k]) + xs[k]
    decreases k
  {
    if k > 0 {
      SumSnoc(xs[1..], k - 1);
      assert xs[..k + 1][1..] == xs[1..][..k] && xs[..k][1..] == xs[1..][..k - 1];
    } else {
      assert xs[..1][1..] == [];
    }
  }

  class CidRemap {
    var routes: Routes
    var nextCid: Int32
    var nextConnId: nat
    const maxInFlight: nat
    ghost var allocations: nat

    ghost predicate Valid()
      reads this
    {
      nextCid == CounterAfter(allocations)
    }

    constructor WithMaxInFlight(maxInFlight: nat)
      ensures Valid() && allocations == 0 && routes == map[] && nextConnId == 1
      ensures this.maxInFlight == maxInFlight
    {
      routes, nextCid, nextConnId := map[], 1, 1;
      this.maxInFlight := maxInFlight;
      allocations := 0;
    }

    /** The compare-and-swap loop. `rivals[k]` is how many allocations other tasks complete
        between the load and the swap of attempt k; nobody interferes after the last. */
    method AllocCidU(rivals: seq<nat>) returns (cid: Int32, attempts: nat)
      requires Valid()
      modifies this`nextCid, this`allocations
      ensures Valid()
      ensures attempts >= 1 && attempts - 1 <= |rivals|
      ensures forall k :: 0 <= k < attempts - 1 ==> rivals[k] > 0
      ensures allocations == old(allocations) + Sum(rivals[..if attempts <= |rivals| then attempts else |rivals|]) + 1
      ensures cid == CidOf(allocations - 1)
    {
      attempts := 0;
      while true
        invariant Valid() && attempts <= |rivals|
        invariant forall k :: 0 <= k < attempts ==> rivals[k] > 0
        invariant allocations == old(allocations) + Sum(rivals[..attempts])
        decreases |rivals| - attempts
      {
        var prev := nextCid;
        if attempts < |rivals| {
          SumSnoc(rivals, attempts);
          Rivals(rivals[attempts]);
        }
        attempts := attempts + 1;
        if nextCid == prev {
          SwapCounts(allocations);
          nextCid := Successor(prev);
          allocations := allocations + 1;
          return nextCid, attempts;
        }
      }
    }

    /** n allocations by other tasks. */
    method Rivals(n: nat)
      requires Valid()
      modifies this`nextCid, this`allocations
      ensures Valid() && allocations == old(allocations) + n
      ensures n == 0 ==> nextCid == old(nextCid)
    {
      for i := 0 to n
        invariant Valid() && allocations == old(allocations) + i
        invariant i == 0 ==> nextCid == old(nextCid)
      {
        SwapCounts(allocations);
        nextCid := Successor(nextCid);
        allocations := allocations + 1;
      }
    }

    method AllocConnId() returns (id: nat)
      modifies this`nextConnId
      ensures id == old(nextConnId) && nextConnId == id + 1
    {
      id := nextConnId;
      nextConnId := nextConnId + 1;
    }

    /** Refuses at the cap; otherwise registers the entry under the next id. */
    method Insert(entry: Entry, metrics: Gauges, rivals: seq<nat>) returns (r: Option<Int32>)
      requires Valid()
      modifies this`nextCid, this`allocations, this`routes, metrics`cidMapEntries
      ensures Valid()
      ensures r.None? <==> |old(routes)| >= maxInFlight
      ensures r.None? ==> routes == old(routes) && nextCid == old(nextCid) && allocations == old(allocations)
      ensures r.None? ==> metrics.cidMapEntries == old(metrics.cidMapEntries)
      ensures r.Some? ==> allocations > old(allocations) && r.value == CidOf(allocations - 1)
      ensures r.Some? ==> routes == old(routes)[r.value := entry]
      ensures r.Some? ==> metrics.cidMapEntries == old(metrics.cidMapEntries) + 1
    {
      if |routes| >= maxInFlight {
        return None;
      }
      var cid, _ := AllocCidU(rivals);
      routes := routes[cid := entry];
      metrics.cidMapEntries := metrics.cidMapEntries + 1;
      return Some(cid);
    }

    /** Removes and returns the registration, if there is one. */
    method Take(cid: Int32, metrics: Gauges) returns (r: Option<Entry>)
      modifies this`routes, metrics`cidMapEntries
      ensures r == if cid in old(routes) then Some(old(routes)[cid]) else None
      ensures routes == old(routes) - {cid}
      ensures metrics.cidMapEntries - |routes| == old(metrics.cidMapEntries) - |old(routes)|
    {
      if cid !in routes {
        assert routes - {cid} == routes;
        return None;
      }
      r := Some(routes[cid]);
      ghost var was := routes;
      routes := routes - {cid};
      assert was.Keys == routes.Keys + {cid};
      assert |was.Keys| == |routes.Keys| + 1;
      metrics.cidMapEntries := metrics.cidMapEntries - 1;
    }

    /** Drops every registration of one connection and no other. */
    method FailConn(conn: nat, metrics: Gauges) returns (removed: nat)
      modifies this`routes, metrics`cidMapEntries
      ensures routes == Without(old(routes), conn)
      ensures removed == |OfConn(old(routes), conn)|
      ensures metrics.cidMapEntries - |routes| == old(metrics.cidMapEntries) - |old(routes)|
    {
      SweepCounts(routes, conn);
      var before := |routes|;
      routes := Without(routes, conn);
      removed := before - |routes|;
      metrics.cidMapEntries := metrics.cidMapEntries - removed;
    }
  }
}
