/** Port ranges: merging a list of ranges into the one sorted list of maximal runs with the same ports. */
module PortSet {
  import opened Common

  datatype Range = Range(from: int, to: int) {
    predicate Contains(port: int) { from <= port <= to }

    predicate Overlaps(other: Range) { from <= other.to && other.from <= to }

    predicate Valid() { 0 < from <= to <= 65535 }

    predicate NonEmpty() { from <= to }
  }

  predicate Covers(ranges: seq<Range>, port: int) {
    exists i :: 0 <= i < |ranges| && ranges[i].Contains(port)
  }

  predicate SortedByFrom(ranges: seq<Range>) {
    forall i, j :: 0 <= i < j < |ranges| ==> ranges[i].from <= ranges[j].from
  }

  /** Sorted, non-empty and with at least one port missing between neighbours. */
  predicate Canonical(ranges: seq<Range>) {
    && (forall i :: 0 <= i < |ranges| ==> ranges[i].NonEmpty())
    && (forall i, j :: 0 <= i < j < |ranges| ==> ranges[i].to + 1 < ranges[j].from)
  }

  /** A run of covered ports that cannot be extended on either side. */
  ghost predicate MaximalRun(covered: int -> bool, run: Range) {
    && run.NonEmpty()
    && (forall port :: run.Contains(port) ==> covered(port))
    && !covered(run.from - 1) && !covered(run.to + 1)
  }

  lemma GapsAround(ranges: seq<Range>, i: nat)
    requires Canonical(ranges) && i < |ranges|
    ensures !Covers(ranges, ranges[i].from - 1) && !Covers(ranges, ranges[i].to + 1)
    ensures forall port :: ranges[i].Contains(port) ==> Covers(ranges, port)
  {
    forall j | 0 <= j < |ranges|
      ensures !ranges[j].Contains(ranges[i].from - 1) && !ranges[j].Contains(ranges[i].to + 1)
    {
      assert j < i || i < j || i == j;
    }
  }

  lemma RunIsMember(ranges: seq<Range>, run: Range, i: nat)
    requires Canonical(ranges) && MaximalRun(port => Covers(ranges, port), run)
    requires i < |ranges| && ranges[i].Contains(run.from)
    ensures run == ranges[i]
  {
    GapsAround(ranges, i);
    assert !ranges[i].Contains(run.from - 1) && !ranges[i].Contains(run.to + 1);
    assert !run.Contains(ranges[i].to + 1);
  }

  /** The members of a canonical list are exactly the maximal runs of the ports it covers. */
  lemma CanonicalMembers(ranges: seq<Range>, run: Range)
    requires Canonical(ranges)
    ensures run in ranges <==> MaximalRun(port => Covers(ranges, port), run)
  {
    if run in ranges {
      var i :| 0 <= i < |ranges| && ranges[i] == run;
      GapsAround(ranges, i);
    } else if MaximalRun(port => Covers(ranges, port), run) {
      assert run.Contains(run.from);
      var i :| 0 <= i < |ranges| && ranges[i].Contains(run.from);
      RunIsMember(ranges, run, i);
    }
  }

  lemma CanonicalUnique(a: seq<Range>, b: seq<Range>)
    requires Canonical(a) && Canonical(b) && forall port :: Covers(a, port) <==> Covers(b, port)
    ensures a == b
  {
    forall run ensures run in a <==> run in b {
      CanonicalMembers(a, run);
      CanonicalMembers(b, run);
    }
    SameMembers(a, b);
  }

  lemma {:induction false} SameMembers(a: seq<Range>, b: seq<Range>)
    requires Canonical(a) && Canonical(b) && forall run :: run in a <==> run in b
    ensures a == b
  {
    assert |a| > 0 ==> a[0] in a;
    assert |b| > 0 ==> b[0] in b;
    if a == [] {
    } else {
      forall run | run in a[1..] ensures run in b[1..] {
        assert run in b && run != b[0];
      }
      forall run | run in b[1..] ensures run in a[1..] {
        assert run in a && run != a[0];
      }
      SameMembers(a[1..], b[1..]);
    }
  }

  lemma SortedAround(front: seq<Range>, range: Range, back: seq<Range>)
    requires SortedByFrom(front + back)
    requires forall i :: 0 <= i < |front| ==> front[i].from <= range.from
    requires forall i :: 0 <= i < |back| ==> range.from <= back[i].from
    ensures SortedByFrom(front + [range] + back)
  {
    var whole, grown := front + back, front + [range] + back;
    forall i, j | 0 <= i < j < |grown| ensures grown[i].from <= grown[j].from {
      var before, after := if i < |front| then i else i - 1, if j <= |front| then j else j - 1;
      assert i != |front| ==> grown[i] == whole[before];
      assert j != |front| ==> grown[j] == whole[after];
    }
  }

  lemma MultisetAround(front: seq<Range>, range: Range, back: seq<Range>)
    ensures multiset(front + [range] + back) == multiset(front + back) + multiset{range}
  {
  }

  lemma InsertedAt(ordered: seq<Range>, range: Range, k: nat)
    requires SortedByFrom(ordered) && k <= |ordered|
    requires k > 0 ==> ordered[k - 1].from <= range.from
    requires forall j :: k <= j < |ordered| ==> range.from < ordered[j].from
    ensures var grown := ordered[..k] + [range] + ordered[k..];
            SortedByFrom(grown) && multiset(grown) == multiset(ordered) + multiset{range}
  {
    assert ordered == ordered[..k] + ordered[k..];
    SortedAround(ordered[..k], range, ordered[k..]);
    MultisetAround(ordered[..k], range, ordered[k..]);
  }

  /** `range` put behind every range that starts no later. */
  method InsertByFrom(ordered: seq<Range>, range: Range) returns (grown: seq<Range>)
    requires SortedByFrom(ordered)
    ensures SortedByFrom(grown) && multiset(grown) == multiset(ordered) + multiset{range}
  {
    var k := |ordered|;
    while k > 0 && range.from < ordered[k - 1].from
      invariant 0 <= k <= |ordered|
      invariant forall j :: k <= j < |ordered| ==> range.from < ordered[j].from
    {
      k := k - 1;
    }
    InsertedAt(ordered, range, k);
    grown := ordered[..k] + [range] + ordered[k..];
  }

  method SortByFrom(ranges: seq<Range>) returns (ordered: seq<Range>)
    ensures multiset(ordered) == multiset(ranges) && SortedByFrom(ordered)
  {
    ordered := [];
    for i := 0 to |ranges|
      invariant multiset(ordered) == multiset(ranges[..i]) && SortedByFrom(ordered)
    {
      assert ranges[..i + 1] == ranges[..i] + [ranges[i]];
      ordered := InsertByFrom(ordered, ranges[i]);
    }
    assert ranges[..|ranges|] == ranges;
  }

  lemma SamePorts(a: seq<Range>, b: seq<Range>, port: int)
    requires multiset(a) == multiset(b) && Covers(a, port)
    ensures Covers(b, port)
  {
    var i :| 0 <= i < |a| && a[i].Contains(port);
    assert a[i] in multiset(b);
    var j :| 0 <= j < |b| && b[j] == a[i];
  }

  lemma CoversAppended(front: seq<Range>, last: Range, port: int)
    ensures Covers(front + [last], port) <==> Covers(front, port) || last.Contains(port)
  {
    if Covers(front, port) {
      var i :| 0 <= i < |front| && front[i].Contains(port);
      assert (front + [last])[i] == front[i];
    }
    if last.Contains(port) {
      assert (front + [last])[|front|] == last;
    }
  }

  lemma ExtendsRun(front: seq<Range>, previous: Range, current: Range)
    requires current.from <= previous.to + 1 && previous.from <= current.from
    ensures var grown := Range(previous.from, Max(previous.to, current.to));
            forall port :: Covers(front + [grown], port) <==> Covers(front + [previous], port) || current.Contains(port)
  {
    var grown := Range(previous.from, Max(previous.to, current.to));
    forall port
      ensures Covers(front + [grown], port) <==> Covers(front + [previous], port) || current.Contains(port)
    {
      CoversAppended(front, grown, port);
      CoversAppended(front, previous, port);
    }
  }

  lemma CanonicalGrows(front: seq<Range>, previous: Range, to: int)
    requires Canonical(front + [previous]) && previous.from <= to
    ensures Canonical(front + [Range(previous.from, to)])
  {
    var was, now := front + [previous], front + [Range(previous.from, to)];
    forall i | 0 <= i < |now| ensures now[i].NonEmpty() {
      assert was[i].NonEmpty() && (i < |front| ==> was[i] == now[i]);
    }
    forall i, j | 0 <= i < j < |now| ensures now[i].to + 1 < now[j].from {
      assert was[i] == now[i] && was[j].from == now[j].from;
    }
  }

  lemma CanonicalAppends(merged: seq<Range>, current: Range)
    requires Canonical(merged) && current.NonEmpty()
    requires |merged| > 0 && merged[|merged| - 1].to + 1 < current.from
    ensures Canonical(merged + [current])
  {
    var now := merged + [current];
    forall i, j | 0 <= i < j < |now| ensures now[i].to + 1 < now[j].from {
      assert now[i] == merged[i] && i < |merged| - 1 ==> merged[i].to + 1 < merged[|merged| - 1].from;
    }
  }

  /** The list after one pass of the merging loop. */
  function Absorb(merged: seq<Range>, current: Range): seq<Range>
    requires |merged| > 0
  {
    var previous := merged[|merged| - 1];
    if current.from <= previous.to + 1 then
      merged[..|merged| - 1] + [Range(previous.from, Max(previous.to, current.to))]
    else
      merged + [current]
  }

  lemma AbsorbCovers(merged: seq<Range>, current: Range, port: int)
    requires |merged| > 0 && merged[|merged| - 1].from <= current.from
    ensures Covers(Absorb(merged, current), port) <==> Covers(merged, port) || current.Contains(port)
  {
    var front, previous := merged[..|merged| - 1], merged[|merged| - 1];
    assert merged == front + [previous];
    if current.from <= previous.to + 1 {
      ExtendsRun(front, previous, current);
    } else {
      CoversAppended(merged, current, port);
    }
  }

  lemma AbsorbCanonical(merged: seq<Range>, current: Range)
    requires |merged| > 0 && merged[|merged| - 1].from <= current.from
    requires Canonical(merged) && current.NonEmpty()
    ensures Canonical(Absorb(merged, current))
  {
    var front, previous := merged[..|merged| - 1], merged[|merged| - 1];
    assert merged == front + [previous];
    if current.from <= previous.to + 1 {
      CanonicalGrows(front, previous, Max(previous.to, current.to));
    } else {
      CanonicalAppends(merged, current);
    }
  }

  lemma AbsorbStep(seen: seq<Range>, merged: seq<Range>, current: Range)
    requires |merged| > 0 && merged[|merged| - 1].from <= current.from
    requires forall port :: Covers(merged, port) <==> Covers(seen, port)
    ensures forall port :: Covers(Absorb(merged, current), port) <==> Covers(seen + [current], port)
  {
    forall port ensures Covers(Absorb(merged, current), port) <==> Covers(seen + [current], port) {
      AbsorbCovers(merged, current, port);
      CoversAppended(seen, current, port);
    }
  }

  lemma SameRanges(ordered: seq<Range>, ranges: seq<Range>)
    requires multiset(ordered) == multiset(ranges)
    ensures |ordered| == |ranges|
    ensures forall port :: Covers(ordered, port) <==> Covers(ranges, port)
    ensures (forall i :: 0 <= i < |ranges| ==> ranges[i].NonEmpty()) ==> forall i :: 0 <= i < |ordered| ==>
              ordered[i].NonEmpty()
  {
    assert |ordered| == |multiset(ordered)| == |multiset(ranges)| == |ranges|;
    forall port ensures Covers(ordered, port) <==> Covers(ranges, port) {
      if Covers(ordered, port) {
        SamePorts(ordered, ranges, port);
      } else if Covers(ranges, port) {
        SamePorts(ranges, ordered, port);
      }
    }
    forall i | 0 <= i < |ordered| ensures ordered[i] in ranges {
      assert ordered[i] in multiset(ranges);
    }
  }

  /**
   The same ports, whatever the order, overlaps or repetitions of the ranges given; sorted and separated when none of
   the ranges given is empty.
   */
  method Merge(ranges: seq<Range>) returns (merged: seq<Range>)
    ensures forall port :: Covers(merged, port) <==> Covers(ranges, port)
    ensures (forall i :: 0 <= i < |ranges| ==> ranges[i].NonEmpty()) ==> Canonical(merged)
  {
    if |ranges| == 0 {
      return [];
    }
    var ordered := SortByFrom(ranges);
    SameRanges(ordered, ranges);
    merged := [ordered[0]];
    assert ordered[..1] == [ordered[0]];
    ghost var solid := forall i :: 0 <= i < |ordered| ==> ordered[i].NonEmpty();
    for i := 1 to |ordered|
      invariant |merged| > 0 && merged[|merged| - 1].from <= ordered[i - 1].from
      invariant forall port :: Covers(merged, port) <==> Covers(ordered[..i], port)
      invariant solid ==> Canonical(merged)
    {
      var current, last := ordered[i], |merged| - 1;
      assert ordered[..i + 1] == ordered[..i] + [current];
      AbsorbStep(ordered[..i], merged, current);
      if solid {
        AbsorbCanonical(merged, current);
      }
      if current.from <= merged[last].to + 1 {
        merged := merged[..last] + [Range(merged[last].from, Max(merged[last].to, current.to))];
      } else {
        merged := merged + [current];
      }
    }
    assert ordered[..|ordered|] == ordered;
  }
}
