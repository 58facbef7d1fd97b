/** src/api.rs `latest_messages`: the last few records of every partition of a topic, gathered from a
    poller that returns them in any portions and any order. */
module LatestMessages {
  import opened Sets

  datatype Record = Record(partition: int, offset: int, body: string)

  /** The offsets wanted of one partition: start up to, not including, end. */
  datatype Window = Window(partition: int, start: int, end: int)

  datatype Poll = Batch(records: seq<Record>) | Fails

  // ---- Windows ----

  predicate Ascending(ends: seq<(int, int)>) {
    forall i, j :: 0 <= i < j < |ends| ==> ends[i].0 < ends[j].0
  }

  function WindowOf(part: int, end: int, count: nat): Window {
    Window(part, if end - count > 0 then end - count else 0, end)
  }

  function Windows(ends: seq<(int, int)>, count: nat): (r: seq<Window>)
    ensures forall w :: w in r <==> exists i :: 0 <= i < |ends| && ends[i].1 > 0 && w == WindowOf(ends[i].0, ends[i].1, count)
  {
    if ends == [] then []
    else
      var last := ends[|ends| - 1];
      var before := Windows(ends[..|ends| - 1], count);
      assert forall i :: 0 <= i < |ends| - 1 ==> ends[..|ends| - 1][i] == ends[i];
      if last.1 > 0 then before + [WindowOf(last.0, last.1, count)] else before
  }

  ghost predicate DistinctWindows(ws: seq<Window>) {
    forall i, j :: 0 <= i < j < |ws| ==> ws[i].partition < ws[j].partition
  }

  ghost predicate Sized(ws: seq<Window>, count: nat) {
    forall i :: 0 <= i < |ws| ==> 0 <= ws[i].start <= ws[i].end && ws[i].end - ws[i].start <= count
  }

  lemma {:induction false} WindowsAscend(ends: seq<(int, int)>, count: nat)
    requires Ascending(ends)
    ensures DistinctWindows(Windows(ends, count)) && Sized(Windows(ends, count), count)
    ensures ends != [] ==> forall w :: w in Windows(ends, count) ==> w.partition <= ends[|ends| - 1].0
    decreases |ends|
  {
    if ends != [] {
      WindowsAscend(ends[..|ends| - 1], count);
      var before := Windows(ends[..|ends| - 1], count);
      assert forall i :: 0 <= i < |before| ==> before[i] in before;
    }
  }

  predicate Covers(w: Window, r: Record) {
    w.partition == r.partition && w.start <= r.offset < w.end
  }

  /** The first window of the record's partition, if any, covers it. */
  predicate IsWanted(r: Record, ws: seq<Window>) {
    if ws == [] then false
    else if ws[0].partition == r.partition then Covers(ws[0], r)
    else IsWanted(r, ws[1..])
  }

  function Wanted(rs: seq<Record>, ws: seq<Window>): seq<Record>
    decreases |rs|
  {
    if rs == [] then []
    else Wanted(rs[..|rs| - 1], ws) + (if IsWanted(rs[|rs| - 1], ws) then [rs[|rs| - 1]] else [])
  }

  function Of(rs: seq<Record>, part: int): seq<Record>
    decreases |rs|
  {
    if rs == [] then [] else Of(rs[..|rs| - 1], part) + (if rs[|rs| - 1].partition == part then [rs[|rs| - 1]] else [])
  }

  /** `all_partitions_done`: every partition has as many records as its window has offsets. */
  predicate AllDone(rs: seq<Record>, ws: seq<Window>) {
    forall i :: 0 <= i < |ws| ==> |Of(rs, ws[i].partition)| >= ws[i].end - ws[i].start
  }

  // ---- Gathering ----

  datatype Exit = Total | Done | Deadline | Error
  datatype Gathered = Gathered(records: seq<Record>, exit: Exit)

  /** The polling loop; when the polls run out the deadline has passed. */
  function Gather(got: seq<Record>, ws: seq<Window>, want: nat, polls: seq<Poll>): Gathered
    decreases |polls|
  {
    if |got| >= want then Gathered(got, Total)
    else if polls == [] then Gathered(got, Deadline)
    else
      match polls[0]
      case Fails => Gathered(got, Error)
      case Batch(rs) =>
        var next := got + Wanted(rs, ws);
        if AllDone(next, ws) then Gathered(next, Done) else Gather(next, ws, want, polls[1..])
  }

  function Polled(polls: seq<Poll>): seq<Record>
    decreases |polls|
  {
    if polls == [] then [] else (if polls[0].Batch? then polls[0].records else []) + Polled(polls[1..])
  }

  function Key(r: Record): (int, int) {
    (r.partition, r.offset)
  }

  ghost predicate DistinctKeys(rs: seq<Record>) {
    forall i, j :: 0 <= i < j < |rs| ==> Key(rs[i]) != Key(rs[j])
  }

  ghost predicate Apart(a: seq<Record>, b: seq<Record>) {
    forall i, j :: 0 <= i < |a| && 0 <= j < |b| ==> Key(a[i]) != Key(b[j])
  }

  lemma Joined(a: seq<Record>, b: seq<Record>)
    ensures DistinctKeys(a + b) <==> DistinctKeys(a) && DistinctKeys(b) && Apart(a, b)
  {
    var c := a + b;
    if DistinctKeys(c) {
      assert forall i :: 0 <= i < |b| ==> b[i] == c[|a| + i];
      assert forall i :: 0 <= i < |a| ==> a[i] == c[i];
    }
  }

  lemma {:induction false} WantedAre(rs: seq<Record>, ws: seq<Window>)
    ensures forall r :: r in Wanted(rs, ws) <==> r in rs && IsWanted(r, ws)
    ensures DistinctKeys(rs) ==> DistinctKeys(Wanted(rs, ws))
    decreases |rs|
  {
    if rs != [] {
      var n := |rs| - 1;
      WantedAre(rs[..n], ws);
      assert rs == rs[..n] + [rs[n]];
      Joined(rs[..n], [rs[n]]);
      Joined(Wanted(rs[..n], ws), [rs[n]]);
      if DistinctKeys(rs) {
        ApartFewer(Wanted(rs[..n], ws), rs[..n], [rs[n]]);
      }
    }
  }

  lemma ApartFewer(a: seq<Record>, all: seq<Record>, b: seq<Record>)
    requires forall r :: r in a ==> r in all
    ensures Apart(all, b) ==> Apart(a, b)
    ensures Apart(b, all) ==> Apart(b, a)
  {
    if Apart(all, b) {
      forall i, j | 0 <= i < |a| && 0 <= j < |b| ensures Key(a[i]) != Key(b[j]) {
        assert a[i] in all;
      }
    }
    if Apart(b, all) {
      forall i, j | 0 <= i < |b| && 0 <= j < |a| ensures Key(b[i]) != Key(a[j]) {
        assert a[j] in all;
      }
    }
  }

  /** Taking only what is wanted of the middle part repeats nothing either. */
  lemma FewerRepeatNothing(a: seq<Record>, b: seq<Record>, c: seq<Record>, ws: seq<Window>)
    requires DistinctKeys(a + (b + c))
    ensures DistinctKeys(a + Wanted(b, ws) + c)
  {
    WantedAre(b, ws);
    Joined(a, b + c);
    Joined(b, c);
    var w := Wanted(b, ws);
    assert forall r :: r in b ==> r in b + c;
    ApartFewer(w, b, c);
    ApartFewer(w, b + c, a);
    ApartFewer(c, b + c, a);
    Joined(a, w);
    assert Apart(a + w, c);
    Joined(a + w, c);
  }

  /** What the loop gathers is wanted and free of repeats, and its exit says what it has. */
  lemma {:induction false} GatherFacts(got: seq<Record>, ws: seq<Window>, want: nat, polls: seq<Poll>)
    requires DistinctKeys(got + Polled(polls)) && forall r :: r in got ==> IsWanted(r, ws)
    ensures var g := Gather(got, ws, want, polls);
            && DistinctKeys(g.records) && (forall r :: r in g.records ==> IsWanted(r, ws))
            && (forall r :: r in g.records ==> r in got || r in Polled(polls))
            && (g.exit.Total? ==> |g.records| >= want)
            && (g.exit.Done? ==> AllDone(g.records, ws))
    decreases |polls|
  {
    Joined(got, Polled(polls));
    if |got| < want && polls != [] && polls[0].Batch? {
      var rs, rest := polls[0].records, Polled(polls[1..]);
      var next := got + Wanted(rs, ws);
      WantedAre(rs, ws);
      FewerRepeatNothing(got, rs, rest, ws);
      Joined(next, rest);
      if !AllDone(next, ws) {
        GatherFacts(next, ws, want, polls[1..]);
      }
    }
  }

  // ---- Counting ----

  lemma {:induction false} OfAre(rs: seq<Record>, part: int)
    ensures forall r :: r in Of(rs, part) <==> r in rs && r.partition == part
    ensures DistinctKeys(rs) ==> DistinctKeys(Of(rs, part))
    decreases |rs|
  {
    if rs != [] {
      var n := |rs| - 1;
      OfAre(rs[..n], part);
      assert rs == rs[..n] + [rs[n]];
      Joined(rs[..n], [rs[n]]);
      Joined(Of(rs[..n], part), [rs[n]]);
      if DistinctKeys(rs) {
        ApartFewer(Of(rs[..n], part), rs[..n], [rs[n]]);
      }
    }
  }

  function Offsets(rs: seq<Record>): set<int> {
    set r | r in rs :: r.offset
  }

  lemma OffsetsSnoc(rs: seq<Record>, r: Record)
    ensures Offsets(rs + [r]) == Offsets(rs) + {r.offset}
  {
    assert forall q :: q in rs + [r] <==> q in rs || q == r;
  }

  lemma {:induction false} OffsetsCount(rs: seq<Record>, part: int)
    requires DistinctKeys(rs) && forall r :: r in rs ==> r.partition == part
    ensures |Offsets(rs)| == |rs|
    decreases |rs|
  {
    if rs != [] {
      var n := |rs| - 1;
      var before, last := rs[..n], rs[n];
      assert rs == before + [last];
      Joined(before, [last]);
      NotAmong(before, last, part);
      hide DistinctKeys, Apart, Offsets;
      OffsetsCount(before, part);
      OffsetsSnoc(before, last);
    }
  }

  lemma NotAmong(rs: seq<Record>, r: Record, part: int)
    requires Apart(rs, [r]) && r.partition == part && forall q :: q in rs ==> q.partition == part
    ensures r.offset !in Offsets(rs)
  {
    forall q | q in rs ensures q.offset != r.offset {
      var i :| 0 <= i < |rs| && rs[i] == q;
      assert Key(rs[i]) != Key([r][0]);
    }
  }

  function Range(a: int, b: int): (s: set<int>)
    requires a <= b
    ensures |s| == b - a && forall x :: x in s <==> a <= x < b
    decreases b - a
  {
    if a == b then {} else Range(a, b - 1) + {b - 1}
  }

  /** Records of one partition, all within its window: at most as many as offsets, and if as many,
      every offset is there. */
  lemma WindowFills(rs: seq<Record>, w: Window)
    requires DistinctKeys(rs) && w.start <= w.end && forall r :: r in rs ==> Covers(w, r)
    ensures |rs| <= w.end - w.start
    ensures |rs| == w.end - w.start ==> forall o :: w.start <= o < w.end ==> o in Offsets(rs)
  {
    OffsetsCount(rs, w.partition);
    SubsetSize(Offsets(rs), Range(w.start, w.end));
  }

  lemma {:induction false} WantedIsCovered(r: Record, ws: seq<Window>)
    requires DistinctWindows(ws)
    ensures IsWanted(r, ws) <==> exists i :: 0 <= i < |ws| && Covers(ws[i], r)
    decreases |ws|
  {
    if ws != [] {
      WantedIsCovered(r, ws[1..]);
      if IsWanted(r, ws[1..]) {
        var i :| 0 <= i < |ws[1..]| && Covers(ws[1..][i], r);
        assert ws[i + 1] == ws[1..][i];
      }
      if i :| 0 <= i < |ws| && Covers(ws[i], r) {
        if i > 0 {
          assert ws[1..][i - 1] == ws[i];
        }
      }
    }
  }

  lemma OfCovered(rs: seq<Record>, ws: seq<Window>, i: nat)
    requires DistinctWindows(ws) && i < |ws| && DistinctKeys(rs) && forall r :: r in rs ==> IsWanted(r, ws)
    ensures DistinctKeys(Of(rs, ws[i].partition)) && forall r :: r in Of(rs, ws[i].partition) ==> Covers(ws[i], r)
  {
    OfAre(rs, ws[i].partition);
    forall r | r in Of(rs, ws[i].partition) ensures Covers(ws[i], r) {
      WantedIsCovered(r, ws);
      var j :| 0 <= j < |ws| && Covers(ws[j], r);
      assert j == i;
    }
  }

  function Without(rs: seq<Record>, part: int): seq<Record>
    decreases |rs|
  {
    if rs == [] then [] else Without(rs[..|rs| - 1], part) + (if rs[|rs| - 1].partition != part then [rs[|rs| - 1]] else [])
  }

  lemma OfSnoc(rs: seq<Record>, r: Record, part: int)
    ensures Of(rs + [r], part) == Of(rs, part) + (if r.partition == part then [r] else [])
  {
    assert (rs + [r])[..|rs|] == rs;
  }

  lemma {:induction false} WithoutCounts(rs: seq<Record>, part: int)
    ensures |Without(rs, part)| == |rs| - |Of(rs, part)|
    ensures forall r :: r in Without(rs, part) <==> r in rs && r.partition != part
    decreases |rs|
  {
    if rs != [] {
      var n := |rs| - 1;
      WithoutCounts(rs[..n], part);
      assert rs == rs[..n] + [rs[n]];
    }
  }

  lemma {:induction false} WithoutKeeps(rs: seq<Record>, part: int, other: int)
    requires other != part
    ensures Of(Without(rs, part), other) == Of(rs, other)
    decreases |rs|
  {
    if rs != [] {
      var n := |rs| - 1;
      WithoutKeeps(rs[..n], part, other);
      OfSnoc(Without(rs[..n], part), rs[n], other);
      if rs[n].partition == part {
        assert Without(rs, part) == Without(rs[..n], part);
      }
      assert Of(rs, other) == Of(rs[..n], other) + (if rs[n].partition == other then [rs[n]] else []);
    }
  }

  ghost predicate HasWindow(r: Record, ws: seq<Window>) {
    exists i :: 0 <= i < |ws| && ws[i].partition == r.partition
  }

  lemma SomeoneThere(rs: seq<Record>)
    ensures rs == [] || exists r :: r in rs
  {
    if rs != [] {
      assert rs[0] in rs;
    }
  }

  lemma MulStep(count: nat, n: nat)
    ensures count * (n + 1) == count * n + count
  {
  }

  lemma Elsewhere(rs: seq<Record>, ws: seq<Window>)
    requires ws != [] && DistinctWindows(ws) && forall r :: r in rs ==> HasWindow(r, ws)
    ensures var n := |ws| - 1;
            var fewer := Without(rs, ws[n].partition);
            && |fewer| == |rs| - |Of(rs, ws[n].partition)|
            && DistinctWindows(ws[..n])
            && (forall r :: r in fewer ==> HasWindow(r, ws[..n]))
            && (forall i :: 0 <= i < n ==> Of(fewer, ws[..n][i].partition) == Of(rs, ws[i].partition))
  {
    var n := |ws| - 1;
    var part := ws[n].partition;
    var fewer := Without(rs, part);
    WithoutCounts(rs, part);
    forall i | 0 <= i < n ensures Of(fewer, ws[..n][i].partition) == Of(rs, ws[i].partition) {
      WithoutKeeps(rs, part, ws[i].partition);
    }
    forall r | r in fewer ensures HasWindow(r, ws[..n]) {
      assert HasWindow(r, ws);
      var i :| 0 <= i < |ws| && ws[i].partition == r.partition;
      assert ws[..n][i].partition == r.partition;
    }
  }

  /** Spreading records over windows of at most count each gives at most count * |ws|, and gives
      that many only by filling every one of them. */
  lemma {:induction false} TotalFills(rs: seq<Record>, ws: seq<Window>, count: nat)
    requires DistinctWindows(ws) && forall r :: r in rs ==> HasWindow(r, ws)
    requires forall i :: 0 <= i < |ws| ==> |Of(rs, ws[i].partition)| <= count
    ensures |rs| <= count * |ws|
    ensures |rs| == count * |ws| ==> forall i :: 0 <= i < |ws| ==> |Of(rs, ws[i].partition)| == count
    decreases |ws|
  {
    if ws == [] {
      SomeoneThere(rs);
    } else {
      var n := |ws| - 1;
      var fewer := Without(rs, ws[n].partition);
      Elsewhere(rs, ws);
      hide Of, Without, HasWindow, DistinctWindows;
      TotalFills(fewer, ws[..n], count);
      MulStep(count, n);
      forall i | 0 <= i < |ws| && |rs| == count * |ws| ensures |Of(rs, ws[i].partition)| == count {
        if i < n {
          assert Of(fewer, ws[..n][i].partition) == Of(rs, ws[i].partition);
        }
      }
    }
  }

  /** Reaching the total means every partition is done. */
  lemma TotalIsDone(rs: seq<Record>, ws: seq<Window>, count: nat)
    requires DistinctWindows(ws) && Sized(ws, count) && DistinctKeys(rs) && forall r :: r in rs ==> IsWanted(r, ws)
    requires |rs| >= count * |ws|
    ensures AllDone(rs, ws)
  {
    forall i | 0 <= i < |ws| ensures |Of(rs, ws[i].partition)| <= ws[i].end - ws[i].start {
      OfCovered(rs, ws, i);
      WindowFills(Of(rs, ws[i].partition), ws[i]);
    }
    forall r | r in rs ensures HasWindow(r, ws) {
      WantedIsCovered(r, ws);
      var i :| 0 <= i < |ws| && Covers(ws[i], r);
      assert ws[i].partition == r.partition;
    }
    TotalFills(rs, ws, count);
  }

  // ---- Choosing and sorting ----

  predicate KeyLess(a: Record, b: Record) {
    a.partition < b.partition || (a.partition == b.partition && a.offset < b.offset)
  }

  ghost predicate Sorted(rs: seq<Record>) {
    forall i, j :: 0 <= i < j < |rs| ==> !KeyLess(rs[j], rs[i])
  }

  function Insert(rs: seq<Record>, r: Record): (s: seq<Record>)
    ensures multiset(s) == multiset(rs) + multiset{r}
    decreases |rs|
  {
    if rs == [] then [r]
    else
      var n := |rs| - 1;
      assert rs == rs[..n] + [rs[n]];
      if KeyLess(r, rs[n]) then Insert(rs[..n], r) + [rs[n]] else rs + [r]
  }

  /** A stable sort by partition, then offset. */
  function Sort(rs: seq<Record>): (s: seq<Record>)
    ensures multiset(s) == multiset(rs)
    decreases |rs|
  {
    if rs == [] then []
    else
      assert rs == rs[..|rs| - 1] + [rs[|rs| - 1]];
      Insert(Sort(rs[..|rs| - 1]), rs[|rs| - 1])
  }

  lemma {:induction false} InsertSorted(rs: seq<Record>, r: Record)
    requires Sorted(rs)
    ensures Sorted(Insert(rs, r))
    decreases |rs|
  {
    if rs != [] {
      var n := |rs| - 1;
      if KeyLess(r, rs[n]) {
        InsertSorted(rs[..n], r);
        var s := Insert(rs[..n], r);
        forall i | 0 <= i < |s| ensures !KeyLess(rs[n], s[i]) {
          assert s[i] in multiset(s);
          assert s[i] in multiset(rs[..n]) || s[i] == r;
        }
      }
    }
  }

  lemma {:induction false} SortSorts(rs: seq<Record>)
    ensures Sorted(Sort(rs))
    decreases |rs|
  {
    if rs != [] {
      SortSorts(rs[..|rs| - 1]);
      InsertSorted(Sort(rs[..|rs| - 1]), rs[|rs| - 1]);
    }
  }

  /** The records with the greatest offsets of one partition, at most count of them. */
  function Recent(rs: seq<Record>, part: int, count: nat): seq<Record> {
    var sorted := Sort(Of(rs, part));
    sorted[|sorted| - (if |sorted| <= count then |sorted| else count)..]
  }

  lemma SortKeepsSize(rs: seq<Record>)
    ensures |Sort(rs)| == |rs|
  {
    assert |multiset(Sort(rs))| == |multiset(rs)|;
  }

  /** The recent records are min(count, all) of their partition, none older than one left out. */
  lemma RecentIsNewest(rs: seq<Record>, part: int, count: nat) returns (rest: seq<Record>)
    ensures multiset(Recent(rs, part, count)) + multiset(rest) == multiset(Of(rs, part))
    ensures |Recent(rs, part, count)| == if |Of(rs, part)| <= count then |Of(rs, part)| else count
    ensures forall a, b :: a in Recent(rs, part, count) && b in rest ==> b.offset <= a.offset
  {
    var sorted := Sort(Of(rs, part));
    SortKeepsSize(Of(rs, part));
    SortSorts(Of(rs, part));
    OnlyOfPart(rs, part);
    hide Sort, Of, Sorted;
    var cut := |sorted| - (if |sorted| <= count then |sorted| else count);
    rest := sorted[..cut];
    LaterIsNewer(sorted, cut, part);
    assert Recent(rs, part, count) == sorted[cut..];
    hide Recent;
    assert sorted == rest + sorted[cut..];
    assert multiset(sorted) == multiset(rest) + multiset(sorted[cut..]);
  }

  lemma OnlyOfPart(rs: seq<Record>, part: int)
    ensures forall r :: r in Sort(Of(rs, part)) ==> r.partition == part
  {
    OfAre(rs, part);
    forall r | r in Sort(Of(rs, part)) ensures r.partition == part {
      assert r in multiset(Sort(Of(rs, part)));
      assert r in Of(rs, part);
    }
  }

  lemma LaterIsNewer(sorted: seq<Record>, cut: nat, part: int)
    requires Sorted(sorted) && cut <= |sorted| && forall r :: r in sorted ==> r.partition == part
    ensures forall a, b :: a in sorted[cut..] && b in sorted[..cut] ==> b.offset <= a.offset
  {
    forall a, b | a in sorted[cut..] && b in sorted[..cut] ensures b.offset <= a.offset {
      var i :| 0 <= i < |sorted[cut..]| && sorted[cut..][i] == a;
      var j :| 0 <= j < cut && sorted[j] == b;
      assert sorted[cut + i] == a;
    }
  }

  /** Where a partition has no more than count records, all of them are recent. */
  lemma RecentIsAll(rs: seq<Record>, part: int, count: nat)
    requires |Of(rs, part)| <= count
    ensures multiset(Recent(rs, part, count)) == multiset(Of(rs, part))
  {
    SortKeepsSize(Of(rs, part));
  }

  lemma RecentIsOf(rs: seq<Record>, part: int, count: nat)
    ensures forall r :: r in multiset(Recent(rs, part, count)) ==> r in rs && r.partition == part
  {
    OfAre(rs, part);
    var all := Of(rs, part);
    forall r | r in Recent(rs, part, count) ensures r in rs && r.partition == part {
      assert r in Sort(all);
      assert r in multiset(Sort(all));
      assert r in all;
    }
  }

  // ---- The operation ----

  datatype Outcome = Messages(messages: seq<Record>) | Failed

  /** The messages are, in order of partition and offset, the most recent gathered of each partition. */
  ghost predicate IsAnswer(ms: seq<Record>, rs: seq<Record>, count: nat) {
    Sorted(ms) && forall r: Record :: multiset(ms)[r] == multiset(Recent(rs, r.partition, count))[r]
  }

  /** How often r is chosen when only the given partitions are. */
  ghost function Share(rs: seq<Record>, parts: set<int>, count: nat, r: Record): nat {
    if r.partition in parts then multiset(Recent(rs, r.partition, count))[r] else 0
  }

  lemma ShareGrows(kept: seq<Record>, rs: seq<Record>, parts: set<int>, part: int, count: nat)
    requires part in parts && forall r: Record :: multiset(kept)[r] == Share(rs, parts - {part}, count, r)
    ensures forall r: Record :: multiset(kept + Recent(rs, part, count))[r] == Share(rs, parts, count, r)
  {
    RecentIsOf(rs, part, count);
    var recent := Recent(rs, part, count);
    hide Recent;
    assert multiset(kept + recent) == multiset(kept) + multiset(recent);
  }

  /** What the loop gathers for these end offsets and this count: it stops at count records a window. */
  function Gathering(ends: seq<(int, int)>, count: nat, polls: seq<Poll>): Gathered {
    Gather([], Windows(ends, count), count * |Windows(ends, count)|, polls)
  }

  /** What becomes of these end offsets, this count and these polls. */
  ghost predicate IsOutcome(out: Outcome, ends: seq<(int, int)>, count: nat, polls: seq<Poll>) {
    var g := Gathering(ends, count, polls);
    if Windows(ends, count) == [] then out == Messages([])
    else if g.exit.Error? then out.Failed?
    else out.Messages? && IsAnswer(out.messages, g.records, count)
  }

  method LatestMessages(ends: seq<(int, int)>, count: nat, polls: seq<Poll>) returns (out: Outcome)
    requires Ascending(ends)
    ensures IsOutcome(out, ends, count, polls)
  {
    var starts := Starts(ends, count);
    if starts == [] {
      return Messages([]);
    }
    var gathered := Collect(starts, count * |starts|, polls);
    if gathered.exit.Error? {
      return Failed;
    }
    var messages := Choose(gathered.records, count);
    return Messages(messages);
  }

  method Starts(ends: seq<(int, int)>, count: nat) returns (starts: seq<Window>)
    ensures starts == Windows(ends, count)
  {
    starts := [];
    for i := 0 to |ends|
      invariant starts == Windows(ends[..i], count)
    {
      assert ends[..i + 1][..i] == ends[..i];
      if ends[i].1 <= 0 {
        continue;
      }
      starts := starts + [WindowOf(ends[i].0, ends[i].1, count)];
    }
    assert ends[..|ends|] == ends;
  }

  method Collect(starts: seq<Window>, want: nat, polls: seq<Poll>) returns (g: Gathered)
    ensures g == Gather([], starts, want, polls)
  {
    var collected: seq<Record> := [];
    var i := 0;
    while |collected| < want && i < |polls|
      invariant i <= |polls|
      invariant Gather([], starts, want, polls) == Gather(collected, starts, want, polls[i..])
      decreases |polls| - i
    {
      match polls[i] {
        case Fails =>
          return Gathered(collected, Error);
        case Batch(batch) =>
          if batch == [] {
            assert collected + Wanted(batch, starts) == collected;
            if AllDone(collected, starts) {
              return Gathered(collected, Done);
            }
            i := i + 1;
            continue;
          }
          ghost var was := collected;
          for j := 0 to |batch|
            invariant collected == was + Wanted(batch[..j], starts)
          {
            assert batch[..j + 1][..j] == batch[..j];
            if IsWanted(batch[j], starts) {
              collected := collected + [batch[j]];
            }
          }
          assert batch[..|batch|] == batch;
          if AllDone(collected, starts) {
            return Gathered(collected, Done);
          }
          i := i + 1;
      }
    }
    return Gathered(collected, if |collected| >= want then Total else Deadline);
  }

  /** Groups by partition, keeps the most recent of each group in whatever order the hash map yields
      the groups, and sorts what was kept. */
  method Choose(collected: seq<Record>, count: nat) returns (messages: seq<Record>)
    ensures IsAnswer(messages, collected, count)
  {
    hide Recent;
    var parts: set<int> := set r | r in collected :: r.partition;
    var left := parts;
    var kept: seq<Record> := [];
    while left != {}
      invariant left <= parts
      invariant forall r: Record :: multiset(kept)[r] == Share(collected, parts - left, count, r)
      decreases left
    {
      var part :| part in left;
      ghost var was := kept;
      var recent := Recent(collected, part, count);
      kept := kept + recent;
      left := left - {part};
      ShareGrows(was, collected, parts - left, part, count);
      assert parts - left - {part} == parts - (left + {part});
    }
    forall r: Record | r.partition !in parts ensures multiset(Recent(collected, r.partition, count))[r] == 0 {
      RecentIsOf(collected, r.partition, count);
    }
    messages := Sort(kept);
    SortSorts(kept);
  }

  // ---- Completeness ----

  ghost predicate StrictlySorted(rs: seq<Record>) {
    forall i, j :: 0 <= i < j < |rs| ==> KeyLess(rs[i], rs[j])
  }

  /** The answer is exactly the windows: each offset of each window once, nothing else, ascending. */
  ghost predicate IsComplete(ms: seq<Record>, ws: seq<Window>) {
    && StrictlySorted(ms)
    && (forall r :: r in ms ==> IsWanted(r, ws))
    && (forall i, o :: 0 <= i < |ws| && ws[i].start <= o < ws[i].end ==> HasOffset(ms, ws[i].partition, o))
  }

  ghost predicate HasOffset(ms: seq<Record>, part: int, o: int) {
    exists r :: r in ms && Key(r) == (part, o)
  }

  lemma {:induction false} DistinctKeysOnce(rs: seq<Record>)
    requires DistinctKeys(rs)
    ensures forall r: Record :: multiset(rs)[r] <= 1
    decreases |rs|
  {
    if rs != [] {
      var n := |rs| - 1;
      assert rs == rs[..n] + [rs[n]];
      DistinctKeysOnce(rs[..n]);
      assert rs[n] !in rs[..n];
      assert multiset(rs) == multiset(rs[..n]) + multiset{rs[n]};
    }
  }

  lemma TwiceThere(ms: seq<Record>, i: nat, j: nat)
    requires i < j < |ms| && ms[i] == ms[j]
    ensures multiset(ms)[ms[i]] >= 2
  {
    assert ms == ms[..j] + ms[j..];
    assert ms[i] in ms[..j] && ms[j] in ms[j..];
    assert multiset(ms) == multiset(ms[..j]) + multiset(ms[j..]);
  }

  lemma SameRecordsDistinctKeys(ms: seq<Record>, rs: seq<Record>)
    requires multiset(ms) == multiset(rs) && DistinctKeys(rs)
    ensures DistinctKeys(ms)
  {
    DistinctKeysOnce(rs);
    forall i, j | 0 <= i < j < |ms| ensures Key(ms[i]) != Key(ms[j]) {
      if ms[i] == ms[j] {
        TwiceThere(ms, i, j);
        assert false;
      }
      assert ms[i] in multiset(rs) && ms[j] in multiset(rs);
      var a :| 0 <= a < |rs| && rs[a] == ms[i];
      var b :| 0 <= b < |rs| && rs[b] == ms[j];
      assert a < b || b < a;
    }
  }

  lemma {:induction false} OfHoldsAll(rs: seq<Record>, r: Record)
    ensures multiset(Of(rs, r.partition))[r] == multiset(rs)[r]
    decreases |rs|
  {
    if rs != [] {
      var n := |rs| - 1;
      assert rs == rs[..n] + [rs[n]];
      OfHoldsAll(rs[..n], r);
    }
  }

  /** Gathered records that fit their windows are all chosen. */
  lemma AnswerKeepsAll(ms: seq<Record>, rs: seq<Record>, ws: seq<Window>, count: nat)
    requires IsAnswer(ms, rs, count) && DistinctWindows(ws) && Sized(ws, count)
    requires DistinctKeys(rs) && forall r :: r in rs ==> IsWanted(r, ws)
    ensures multiset(ms) == multiset(rs)
  {
    forall r: Record ensures multiset(ms)[r] == multiset(rs)[r] {
      OfHoldsAll(rs, r);
      PartFits(rs, ws, r.partition, count);
      RecentIsAll(rs, r.partition, count);
    }
  }

  lemma PartFits(rs: seq<Record>, ws: seq<Window>, part: int, count: nat)
    requires DistinctWindows(ws) && Sized(ws, count) && DistinctKeys(rs) && forall r :: r in rs ==> IsWanted(r, ws)
    ensures |Of(rs, part)| <= count
  {
    OfAre(rs, part);
    var mine := Of(rs, part);
    if mine != [] {
      assert mine[0] in mine;
      WantedIsCovered(mine[0], ws);
      var i :| 0 <= i < |ws| && Covers(ws[i], mine[0]);
      OfCovered(rs, ws, i);
      WindowFills(mine, ws[i]);
    }
  }

  lemma StrictFromSorted(ms: seq<Record>)
    requires Sorted(ms) && DistinctKeys(ms)
    ensures StrictlySorted(ms)
  {
    forall i, j | 0 <= i < j < |ms| ensures KeyLess(ms[i], ms[j]) {
      assert Key(ms[i]) != Key(ms[j]);
    }
  }

  // ---- Windows are the tails of the partitions ----

  /** Offset o is among the last `count` of its partition. */
  ghost predicate InTail(ends: seq<(int, int)>, count: nat, part: int, o: int) {
    exists i :: 0 <= i < |ends| && ends[i].0 == part && 0 <= o < ends[i].1 && ends[i].1 - count <= o
  }

  lemma WindowsAreTails(ends: seq<(int, int)>, count: nat, r: Record)
    requires Ascending(ends)
    ensures IsWanted(r, Windows(ends, count)) <==> InTail(ends, count, r.partition, r.offset)
  {
    var ws := Windows(ends, count);
    WindowsAscend(ends, count);
    WantedIsCovered(r, ws);
    if i :| 0 <= i < |ws| && Covers(ws[i], r) {
      assert ws[i] in ws;
      var k :| 0 <= k < |ends| && ends[k].1 > 0 && ws[i] == WindowOf(ends[k].0, ends[k].1, count);
    }
    if i :| 0 <= i < |ends| && ends[i].0 == r.partition && 0 <= r.offset < ends[i].1 && ends[i].1 - count <= r.offset {
      var w := WindowOf(ends[i].0, ends[i].1, count);
      assert w in ws && Covers(w, r);
      var k :| 0 <= k < |ws| && ws[k] == w;
    }
  }

  /** The windows have the sizes of the tails. */
  lemma WindowOfEnd(ends: seq<(int, int)>, count: nat, k: nat) returns (i: nat)
    requires Ascending(ends) && k < |ends| && ends[k].1 > 0
    ensures var ws := Windows(ends, count);
            i < |ws| && ws[i].partition == ends[k].0
            && ws[i].end - ws[i].start == if ends[k].1 <= count then ends[k].1 else count
  {
    var ws := Windows(ends, count);
    assert WindowOf(ends[k].0, ends[k].1, count) in ws;
    i :| 0 <= i < |ws| && ws[i] == WindowOf(ends[k].0, ends[k].1, count);
  }

  // ---- Completeness of the outcome ----

  /** From a poller that never repeats a record: whatever the polls were cut into and whatever order the
      groups came in, the answer is ascending by partition and offset and holds nothing but polled
      records from the tails; and unless the deadline cut it short it holds every offset of every tail. */
  lemma AnswersAreComplete(ends: seq<(int, int)>, count: nat, polls: seq<Poll>, out: Outcome)
    requires Ascending(ends) && DistinctKeys(Polled(polls)) && IsOutcome(out, ends, count, polls) && out.Messages?
    ensures var ms := out.messages;
            && (forall i, j :: 0 <= i < j < |ms| ==>
                  ms[i].partition < ms[j].partition || (ms[i].partition == ms[j].partition && ms[i].offset < ms[j].offset))
            && (forall r :: r in ms ==> r in Polled(polls) && InTail(ends, count, r.partition, r.offset))
    ensures !Gathering(ends, count, polls).exit.Deadline? ==>
              && AllDone(out.messages, Windows(ends, count))
              && forall part, o :: InTail(ends, count, part, o) ==> HasOffset(out.messages, part, o)
  {
    var ws := Windows(ends, count);
    var g := Gathering(ends, count, polls);
    WindowsAscend(ends, count);
    GatheredIsEnough(ends, count, polls);
    hide Gathering;
    if ws != [] {
      AnswerIsExact(out.messages, g.records, ws, count);
    }
    hide Windows, Polled, DistinctKeys, DistinctWindows, Sized, IsWanted, IsAnswer, AllDone, IsComplete, InTail, HasOffset;
    forall r | r in out.messages ensures InTail(ends, count, r.partition, r.offset) {
      WindowsAreTails(ends, count, r);
    }
    if !g.exit.Deadline? {
      TailsHeld(ends, count, ws, g, out);
    }
  }

  lemma TailsHeld(ends: seq<(int, int)>, count: nat, ws: seq<Window>, g: Gathered, out: Outcome)
    requires Ascending(ends) && ws == Windows(ends, count) && out.Messages?
    requires ws == [] ==> out.messages == []
    requires ws != [] ==> AllDone(g.records, ws) && StrictlySorted(out.messages)
                          && multiset(out.messages) == multiset(g.records) && forall r :: r in out.messages <==> r in g.records
    requires DistinctKeys(g.records) && forall r :: r in g.records ==> IsWanted(r, ws)
    ensures AllDone(out.messages, ws)
    ensures forall part, o :: InTail(ends, count, part, o) ==> HasOffset(out.messages, part, o)
  {
    WindowsAscend(ends, count);
    hide Windows, DistinctKeys, InTail;
    if ws != [] {
      hide AllDone, IsWanted, DistinctWindows, Sized;
      DoneIsComplete(out.messages, g.records, ws);
      CompleteIsDone(out.messages, ws);
    }
    forall part, o | InTail(ends, count, part, o) ensures HasOffset(out.messages, part, o) {
      var r := Record(part, o, "");
      WindowsAreTails(ends, count, r);
      WantedIsCovered(r, ws);
      var i :| 0 <= i < |ws| && Covers(ws[i], r);
      assert HasOffset(out.messages, ws[i].partition, o);
    }
  }

  lemma CompleteIsDone(ms: seq<Record>, ws: seq<Window>)
    requires IsComplete(ms, ws) && DistinctWindows(ws)
    ensures AllDone(ms, ws)
  {
    StrictIsSorted(ms);
    CompletenessIsExact(ms, ws);
  }

  lemma StrictIsSorted(ms: seq<Record>)
    requires StrictlySorted(ms)
    ensures Sorted(ms)
  {
  }

  /** Then each partition contributes as many records as it has, but no more than `count`. */
  lemma TailSizes(ends: seq<(int, int)>, count: nat, polls: seq<Poll>, out: Outcome, k: nat)
    requires Ascending(ends) && DistinctKeys(Polled(polls)) && IsOutcome(out, ends, count, polls) && out.Messages?
    requires !Gathering(ends, count, polls).exit.Deadline? && k < |ends|
    ensures var mine := set i: nat | i < |out.messages| && out.messages[i].partition == ends[k].0;
            |mine| == if ends[k].1 <= 0 then 0 else if ends[k].1 <= count then ends[k].1 else count
  {
    AnswersAreComplete(ends, count, polls, out);
    var ms, part := out.messages, ends[k].0;
    PlacesOf(ms, part);
    OfAre(ms, part);
    var mine := Of(ms, part);
    if ends[k].1 > 0 {
      TailIsFull(ends, count, ms, k);
    } else {
      forall r | r in ms ensures r.partition != part {
        NoTail(ends, count, k, r.offset);
      }
      SomeoneThere(mine);
    }
  }

  lemma NoTail(ends: seq<(int, int)>, count: nat, k: nat, o: int)
    requires Ascending(ends) && k < |ends| && ends[k].1 <= 0
    ensures !InTail(ends, count, ends[k].0, o)
  {
    forall i | 0 <= i < |ends| && ends[i].0 == ends[k].0 ensures i == k {
      assert i < k || k < i || i == k;
    }
  }

  lemma TailIsFull(ends: seq<(int, int)>, count: nat, ms: seq<Record>, k: nat)
    requires Ascending(ends) && k < |ends| && ends[k].1 > 0 && StrictlySorted(ms)
    requires forall r :: r in ms ==> InTail(ends, count, r.partition, r.offset)
    requires AllDone(ms, Windows(ends, count))
    ensures |Of(ms, ends[k].0)| == if ends[k].1 <= count then ends[k].1 else count
  {
    var ws := Windows(ends, count);
    var i := WindowOfEnd(ends, count, k);
    WindowsAscend(ends, count);
    forall r | r in ms ensures IsWanted(r, ws) {
      WindowsAreTails(ends, count, r);
    }
    hide Windows, InTail;
    StrictHasDistinctKeys(ms);
    OfCovered(ms, ws, i);
    WindowFills(Of(ms, ws[i].partition), ws[i]);
  }

  lemma StrictHasDistinctKeys(ms: seq<Record>)
    requires StrictlySorted(ms)
    ensures DistinctKeys(ms)
  {
  }

  lemma {:induction false} PlacesOf(rs: seq<Record>, part: int)
    ensures |set i: nat | i < |rs| && rs[i].partition == part| == |Of(rs, part)|
    decreases |rs|
  {
    var all := set i: nat | i < |rs| && rs[i].partition == part;
    if rs == [] {
      assert all == {};
    } else {
      var n := |rs| - 1;
      PlacesOf(rs[..n], part);
      var before := set i: nat | i < |rs[..n]| && rs[..n][i].partition == part;
      assert all == if rs[n].partition == part then before + {n} else before;
    }
  }

  // ---- When the polls bring everything ----

  /** Without a failing poll the loop does not fail; and where the deadline ends it, it has taken all
      that was wanted of every poll and was still not done. */
  lemma {:induction false} DeadlineTookAll(got: seq<Record>, ws: seq<Window>, want: nat, polls: seq<Poll>)
    requires forall i :: 0 <= i < |polls| ==> polls[i].Batch?
    ensures var g := Gather(got, ws, want, polls);
            && !g.exit.Error?
            && (g.exit.Deadline? ==>
                  && (forall r :: r in got || (r in Polled(polls) && IsWanted(r, ws)) ==> r in g.records)
                  && |g.records| < want && (polls != [] ==> !AllDone(g.records, ws)))
    decreases |polls|
  {
    if |got| < want && polls != [] {
      WantedAre(polls[0].records, ws);
      var next := got + Wanted(polls[0].records, ws);
      if !AllDone(next, ws) {
        DeadlineTookAll(next, ws, want, polls[1..]);
      }
    }
  }

  /** If no poll fails, none repeats a record and together they bring every offset of every tail, the
      deadline does not matter: the answer has them all. */
  lemma EverythingPolledIsAnswered(ends: seq<(int, int)>, count: nat, polls: seq<Poll>, out: Outcome)
    requires Ascending(ends) && DistinctKeys(Polled(polls)) && IsOutcome(out, ends, count, polls)
    requires forall i :: 0 <= i < |polls| ==> polls[i].Batch?
    requires forall part, o :: InTail(ends, count, part, o) ==> HasOffset(Polled(polls), part, o)
    ensures out.Messages? && forall part, o :: InTail(ends, count, part, o) ==> HasOffset(out.messages, part, o)
  {
    NoDeadline(ends, count, polls);
    hide Windows, Gather, Polled, DistinctKeys, IsAnswer, InTail, HasOffset;
    AnswersAreComplete(ends, count, polls, out);
  }

  /** The request fails exactly if some poll fails while the loop, on the polls before it, would go on. */
  lemma FailsExactly(ends: seq<(int, int)>, count: nat, polls: seq<Poll>, out: Outcome)
    requires IsOutcome(out, ends, count, polls)
    ensures out.Failed? <==>
              exists k :: 0 <= k < |polls| && polls[k].Fails? && Gathering(ends, count, polls[..k]).exit.Deadline?
  {
    ErrorExactly([], Windows(ends, count), count * |Windows(ends, count)|, polls);
  }

  lemma {:induction false} ErrorExactly(got: seq<Record>, ws: seq<Window>, want: nat, polls: seq<Poll>)
    ensures Gather(got, ws, want, polls).exit.Error? <==>
              exists k :: 0 <= k < |polls| && polls[k].Fails? && Gather(got, ws, want, polls[..k]).exit.Deadline?
    decreases |polls|
  {
    if |got| < want && polls != [] {
      assert polls[..0] == [];
      forall k | 1 <= k <= |polls|
        ensures polls[..k][1..] == polls[1..][..k - 1] && polls[..k][0] == polls[0]
      {
      }
      if polls[0].Batch? && !AllDone(got + Wanted(polls[0].records, ws), ws) {
        var next := got + Wanted(polls[0].records, ws);
        ErrorExactly(next, ws, want, polls[1..]);
        if k :| 0 <= k < |polls| - 1 && polls[1..][k].Fails? && Gather(next, ws, want, polls[1..][..k]).exit.Deadline? {
          assert polls[k + 1].Fails? && polls[..k + 1][1..] == polls[1..][..k];
        }
        if k :| 0 <= k < |polls| && polls[k].Fails? && Gather(got, ws, want, polls[..k]).exit.Deadline? {
          assert polls[1..][k - 1].Fails? && polls[..k][1..] == polls[1..][..k - 1];
        }
      }
    }
  }

  lemma NoDeadline(ends: seq<(int, int)>, count: nat, polls: seq<Poll>)
    requires Ascending(ends) && DistinctKeys(Polled(polls))
    requires forall i :: 0 <= i < |polls| ==> polls[i].Batch?
    requires forall part, o :: InTail(ends, count, part, o) ==> HasOffset(Polled(polls), part, o)
    ensures !Gathering(ends, count, polls).exit.Deadline? && !Gathering(ends, count, polls).exit.Error?
  {
    hide InTail, HasOffset, Polled, IsWanted, AllDone, DistinctKeys, Windows, Gather;
    var ws := Windows(ends, count);
    GatheredIsEnough(ends, count, polls);
    NoProduct(ws, count);
    GatherEnds(ends, count, polls, ws, count * |ws|);
  }

  lemma NoProduct(ws: seq<Window>, count: nat)
    ensures count * |ws| > 0 ==> count > 0 && ws != []
  {
  }

  lemma GatherEnds(ends: seq<(int, int)>, count: nat, polls: seq<Poll>, ws: seq<Window>, want: nat)
    requires Ascending(ends) && ws == Windows(ends, count) && (want > 0 ==> count > 0 && ws != [])
    requires forall i :: 0 <= i < |polls| ==> polls[i].Batch?
    requires DistinctKeys(Gather([], ws, want, polls).records)
    requires forall part, o :: InTail(ends, count, part, o) ==> HasOffset(Polled(polls), part, o)
    ensures !Gather([], ws, want, polls).exit.Deadline? && !Gather([], ws, want, polls).exit.Error?
  {
    var g := Gather([], ws, want, polls);
    DeadlineTookAll([], ws, want, polls);
    hide Gather, Windows, Polled, DistinctKeys, IsWanted, AllDone, InTail, HasOffset;
    if g.exit.Deadline? {
      AllPolledIsDone(ends, count, polls, ws, g.records);
      SomethingPolled(ends, count, polls, ws);
    }
  }

  lemma AllPolledIsDone(ends: seq<(int, int)>, count: nat, polls: seq<Poll>, ws: seq<Window>, rs: seq<Record>)
    requires Ascending(ends) && ws == Windows(ends, count) && DistinctKeys(rs)
    requires forall part, o :: InTail(ends, count, part, o) ==> HasOffset(Polled(polls), part, o)
    requires forall r :: r in Polled(polls) && IsWanted(r, ws) ==> r in rs
    ensures AllDone(rs, ws)
  {
    WindowsAscend(ends, count);
    forall i | 0 <= i < |ws| ensures |Of(rs, ws[i].partition)| >= ws[i].end - ws[i].start {
      forall o | ws[i].start <= o < ws[i].end ensures HasOffset(rs, ws[i].partition, o) {
        var r := Record(ws[i].partition, o, "");
        WantedIsCovered(r, ws);
        assert Covers(ws[i], r);
        WindowsAreTails(ends, count, r);
        var q :| q in Polled(polls) && Key(q) == (ws[i].partition, o);
        WantedIsCovered(q, ws);
        assert Covers(ws[i], q);
      }
      WindowHeld(rs, ws[i]);
    }
  }

  lemma SomethingPolled(ends: seq<(int, int)>, count: nat, polls: seq<Poll>, ws: seq<Window>)
    requires Ascending(ends) && ws == Windows(ends, count) && count > 0 && ws != []
    requires forall part, o :: InTail(ends, count, part, o) ==> HasOffset(Polled(polls), part, o)
    ensures polls != []
  {
    assert ws[0] in ws;
    var k :| 0 <= k < |ends| && ends[k].1 > 0 && ws[0] == WindowOf(ends[k].0, ends[k].1, count);
    assert InTail(ends, count, ends[k].0, ends[k].1 - 1);
    assert HasOffset(Polled(polls), ends[k].0, ends[k].1 - 1);
  }

  lemma GatheredIsEnough(ends: seq<(int, int)>, count: nat, polls: seq<Poll>)
    requires Ascending(ends) && DistinctKeys(Polled(polls))
    ensures var ws := Windows(ends, count);
            var g := Gathering(ends, count, polls);
            && DistinctKeys(g.records) && (forall r :: r in g.records ==> IsWanted(r, ws) && r in Polled(polls))
            && (g.exit.Total? || g.exit.Done? ==> AllDone(g.records, ws))
  {
    WindowsAscend(ends, count);
    hide Gather, Polled, DistinctKeys, DistinctWindows, Sized, IsWanted, AllDone, Windows;
    GatheredWithin(Windows(ends, count), count, count * |Windows(ends, count)|, polls);
  }

  lemma GatheredWithin(ws: seq<Window>, count: nat, want: nat, polls: seq<Poll>)
    requires DistinctWindows(ws) && Sized(ws, count) && want == count * |ws| && DistinctKeys(Polled(polls))
    ensures var g := Gather([], ws, want, polls);
            && DistinctKeys(g.records) && (forall r :: r in g.records ==> IsWanted(r, ws) && r in Polled(polls))
            && (g.exit.Total? || g.exit.Done? ==> AllDone(g.records, ws))
  {
    assert [] + Polled(polls) == Polled(polls);
    GatherFacts([], ws, want, polls);
    hide Gather, Polled, DistinctKeys, DistinctWindows, Sized, IsWanted, AllDone;
    var g := Gather([], ws, want, polls);
    if g.exit.Total? {
      TotalIsDone(g.records, ws, count);
    }
  }

  lemma AnswerIsExact(ms: seq<Record>, rs: seq<Record>, ws: seq<Window>, count: nat)
    requires IsAnswer(ms, rs, count) && DistinctWindows(ws) && Sized(ws, count)
    requires DistinctKeys(rs) && forall r :: r in rs ==> IsWanted(r, ws)
    ensures StrictlySorted(ms) && multiset(ms) == multiset(rs) && forall r :: r in ms <==> r in rs
  {
    AnswerKeepsAll(ms, rs, ws, count);
    SameRecordsDistinctKeys(ms, rs);
    StrictFromSorted(ms);
    assert forall r :: r in ms <==> r in multiset(ms);
    assert forall r :: r in rs <==> r in multiset(rs);
  }

  lemma DoneIsComplete(ms: seq<Record>, rs: seq<Record>, ws: seq<Window>)
    requires StrictlySorted(ms) && forall r :: r in ms <==> r in rs
    requires DistinctWindows(ws) && DistinctKeys(rs) && AllDone(rs, ws) && forall r :: r in rs ==> IsWanted(r, ws)
    ensures IsComplete(ms, ws)
  {
    forall i, o | 0 <= i < |ws| && ws[i].start <= o < ws[i].end ensures HasOffset(ms, ws[i].partition, o) {
      OffsetThere(rs, ws, i, o);
    }
  }

  lemma OffsetThere(rs: seq<Record>, ws: seq<Window>, i: nat, o: int)
    requires DistinctWindows(ws) && DistinctKeys(rs) && AllDone(rs, ws) && forall r :: r in rs ==> IsWanted(r, ws)
    requires i < |ws| && ws[i].start <= o < ws[i].end
    ensures HasOffset(rs, ws[i].partition, o)
  {
    var mine := Of(rs, ws[i].partition);
    OfCovered(rs, ws, i);
    OfAre(rs, ws[i].partition);
    WindowFills(mine, ws[i]);
    assert o in Offsets(mine);
    var r :| r in mine && r.offset == o;
    assert Key(r) == (ws[i].partition, o);
  }

  /** A window's offsets are all a complete answer has: two of them list the same keys in the same order. */
  lemma {:induction false} CompleteAnswersAgree(a: seq<Record>, b: seq<Record>)
    requires StrictlySorted(a) && StrictlySorted(b)
    requires forall part, o :: HasOffset(a, part, o) <==> HasOffset(b, part, o)
    ensures |a| == |b| && forall i :: 0 <= i < |a| ==> Key(a[i]) == Key(b[i])
    decreases |a|
  {
    if a == [] || b == [] {
      if a == [] {
        NoneThere(a, b);
      } else {
        NoneThere(b, a);
      }
    } else {
      FirstAgrees(a, b);
      RestAgrees(a, b);
      RestAgrees(b, a);
      CompleteAnswersAgree(a[1..], b[1..]);
      forall i | 0 <= i < |a| ensures Key(a[i]) == Key(b[i]) {
        if i > 0 {
          assert a[i] == a[1..][i - 1] && b[i] == b[1..][i - 1];
        }
      }
    }
  }

  lemma NoneThere(a: seq<Record>, b: seq<Record>)
    requires a == [] && forall part, o :: HasOffset(a, part, o) <==> HasOffset(b, part, o)
    ensures b == []
  {
    if b != [] {
      assert HasOffset(b, b[0].partition, b[0].offset) by {
        assert b[0] in b;
      }
    }
  }

  lemma Finds(a: seq<Record>, r: Record) returns (i: nat)
    requires HasOffset(a, r.partition, r.offset)
    ensures i < |a| && Key(a[i]) == Key(r)
  {
    var q :| q in a && Key(q) == (r.partition, r.offset);
    i :| 0 <= i < |a| && a[i] == q;
  }

  lemma Has(a: seq<Record>, i: nat)
    requires i < |a|
    ensures HasOffset(a, a[i].partition, a[i].offset)
  {
    assert a[i] in a && Key(a[i]) == (a[i].partition, a[i].offset);
  }

  lemma FirstAgrees(a: seq<Record>, b: seq<Record>)
    requires a != [] && b != [] && StrictlySorted(a) && StrictlySorted(b)
    requires forall part, o :: HasOffset(a, part, o) <==> HasOffset(b, part, o)
    ensures Key(a[0]) == Key(b[0])
  {
    Has(a, 0);
    Has(b, 0);
    var i := Finds(b, a[0]);
    var j := Finds(a, b[0]);
  }

  lemma RestAgrees(a: seq<Record>, b: seq<Record>)
    requires a != [] && b != [] && StrictlySorted(a) && StrictlySorted(b) && Key(a[0]) == Key(b[0])
    requires forall part, o :: HasOffset(a, part, o) <==> HasOffset(b, part, o)
    ensures forall part, o :: HasOffset(a[1..], part, o) ==> HasOffset(b[1..], part, o)
  {
    forall part, o | HasOffset(a[1..], part, o) ensures HasOffset(b[1..], part, o) {
      var r := Record(part, o, "");
      var i := Finds(a[1..], r);
      assert a[1..][i] == a[i + 1];
      Has(a, i + 1);
      var j := Finds(b, r);
      assert j > 0;
      assert b[j] == b[1..][j - 1];
      Has(b[1..], j - 1);
    }
  }

  /** A sorted answer within the windows is complete exactly if it has no key twice and as many records
      of each partition as its window has offsets. */
  lemma CompletenessIsExact(ms: seq<Record>, ws: seq<Window>)
    requires Sorted(ms) && DistinctWindows(ws) && forall r :: r in ms ==> IsWanted(r, ws)
    ensures IsComplete(ms, ws) <==> DistinctKeys(ms) && AllDone(ms, ws)
  {
    if DistinctKeys(ms) && AllDone(ms, ws) {
      StrictFromSorted(ms);
      DoneIsComplete(ms, ms, ws);
    }
    if IsComplete(ms, ws) {
      assert DistinctKeys(ms);
      forall i | 0 <= i < |ws| ensures |Of(ms, ws[i].partition)| >= ws[i].end - ws[i].start {
        if ws[i].start <= ws[i].end {
          FullWindow(ms, ws, i);
        }
      }
    }
  }

  lemma FullWindow(ms: seq<Record>, ws: seq<Window>, i: nat)
    requires IsComplete(ms, ws) && DistinctKeys(ms) && i < |ws| && ws[i].start <= ws[i].end
    ensures |Of(ms, ws[i].partition)| >= ws[i].end - ws[i].start
  {
    assert forall o :: ws[i].start <= o < ws[i].end ==> HasOffset(ms, ws[i].partition, o);
    WindowHeld(ms, ws[i]);
  }

  lemma WindowHeld(ms: seq<Record>, w: Window)
    requires DistinctKeys(ms) && w.start <= w.end && forall o :: w.start <= o < w.end ==> HasOffset(ms, w.partition, o)
    ensures |Of(ms, w.partition)| >= w.end - w.start
  {
    var mine := Of(ms, w.partition);
    OfAre(ms, w.partition);
    OffsetsCount(mine, w.partition);
    forall o | o in Range(w.start, w.end) ensures o in Offsets(mine) {
      assert HasOffset(ms, w.partition, o);
      var r :| r in ms && Key(r) == (w.partition, o);
      assert r in mine;
    }
    SubsetSize(Range(w.start, w.end), Offsets(mine));
  }

  function Copies(r: Record, k: nat): (rs: seq<Record>)
    ensures |rs| == k && forall i :: 0 <= i < k ==> rs[i] == r
  {
    if k == 0 then [] else Copies(r, k - 1) + [r]
  }

  lemma {:induction false} CopiesKept(r: Record, k: nat, ws: seq<Window>)
    requires IsWanted(r, ws)
    ensures Wanted(Copies(r, k), ws) == Copies(r, k) == Of(Copies(r, k), r.partition)
  {
    if k > 0 {
      CopiesKept(r, k - 1, ws);
      var before := Copies(r, k - 1);
      assert (before + [r])[..|before|] == before;
    }
  }

  lemma OneWindow(part: int, end: int, count: nat)
    requires end > 0
    ensures Windows([(part, end)], count) == [WindowOf(part, end, count)]
  {
    assert [(part, end)][..0] == [];
    assert Windows([], count) == [];
  }

  /** A poller that repeats a record can make the loop stop early: whatever the window of two or more
      offsets, as many copies of one record as the window is long end it with all others missing. */
  lemma RepeatsHideOffsets(part: int, end: int, count: nat, r: Record)
    requires end > 0 && WindowOf(part, end, count).start + 2 <= end && Covers(WindowOf(part, end, count), r)
    ensures var w := WindowOf(part, end, count);
            var g := Gather([], Windows([(part, end)], count), count, [Batch(Copies(r, w.end - w.start))]);
            && !g.exit.Deadline? && !g.exit.Error?
            && forall q :: q in g.records ==> q == r
  {
    var w := WindowOf(part, end, count);
    OneWindow(part, end, count);
    var copies := Copies(r, w.end - w.start);
    CopiesKept(r, w.end - w.start, [w]);
    assert [] + copies == copies && AllDone(copies, [w]);
    hide Windows, Wanted, Of, AllDone, Copies, WindowOf;
  }
}
