/** Leaving the ports that manual UFW restrictions cover to those restrictions, and managing only the rest. */
module UfwManual {
  import opened Common
  import opened PortSet
  import opened FirewallPlan
  import opened UfwStore

  /** Some rule other than an ALLOW that concerns this one covers the port. */
  predicate Restricted(existing: seq<Entry>, rule: Rule, port: int) {
    exists i :: 0 <= i < |existing| && Blocks(existing[i], rule) && existing[i].rule.ports.Contains(port)
  }

  predicate SolidEntries(existing: seq<Entry>) {
    forall i :: 0 <= i < |existing| ==> existing[i].rule.ports.NonEmpty()
  }

  /** All parts belong to the scope of `rule`, and none is empty. */
  predicate PartsOf(rule: Rule, parts: seq<Rule>) {
    forall i :: 0 <= i < |parts| ==> parts[i] == rule.(ports := parts[i].ports) && parts[i].ports.NonEmpty()
  }

  function PortsOf(parts: seq<Rule>): (ports: seq<Range>)
    ensures |ports| == |parts| && forall i :: 0 <= i < |parts| ==> ports[i] == parts[i].ports
  {
    seq(|parts|, i requires 0 <= i < |parts| => parts[i].ports)
  }

  method Exclusions(rule: Rule, existing: seq<Entry>) returns (exclusions: seq<Range>)
    requires SolidEntries(existing) && rule.ports.NonEmpty()
    ensures forall i :: 0 <= i < |exclusions| ==> exclusions[i].NonEmpty()
    ensures forall port :: Covers(exclusions, port) <==> rule.ports.Contains(port) && Restricted(existing, rule, port)
  {
    exclusions := [];
    for i := 0 to |existing|
      invariant forall k :: 0 <= k < |exclusions| ==> exclusions[k].NonEmpty()
      invariant forall port :: Covers(exclusions, port) <==>
                rule.ports.Contains(port) && Restricted(existing[..i], rule, port)
    {
      var current := existing[i];
      var cut := Range(Max(rule.ports.from, current.rule.ports.from), Min(rule.ports.to, current.rule.ports.to));
      var grown := if current.action != Allow && Overlaps(rule, current.rule) then exclusions + [cut] else exclusions;
      forall port
        ensures Covers(grown, port) <==> rule.ports.Contains(port) && Restricted(existing[..i + 1], rule, port)
      {
        CoversAppended(exclusions, cut, port);
        RestrictedAppended(existing, i, rule, port);
      }
      exclusions := grown;
    }
    assert existing[..|existing|] == existing;
  }

  lemma RestrictedAppended(existing: seq<Entry>, i: nat, rule: Rule, port: int)
    requires i < |existing|
    ensures Restricted(existing[..i + 1], rule, port)
       <==> Restricted(existing[..i], rule, port)
            || (Blocks(existing[i], rule) && existing[i].rule.ports.Contains(port))
  {
    var front, grown := existing[..i], existing[..i + 1];
    assert grown[i] == existing[i] && forall k :: 0 <= k < i ==> grown[k] == front[k];
  }

  /** What is left of a range once the cuts are taken out. */
  function Gaps(range: Range, cuts: seq<Range>): seq<Range>
    decreases |cuts|
  {
    if cuts == [] then (if range.NonEmpty() then [range] else [])
    else (if range.from < cuts[0].from then [Range(range.from, cuts[0].from - 1)] else []) +
         Gaps(Range(cuts[0].to + 1, range.to), cuts[1..])
  }

  /** Ascending and apart, within a range. */
  predicate Ordered(range: Range, ranges: seq<Range>) {
    && (forall i :: 0 <= i < |ranges| ==> range.from <= ranges[i].from <= ranges[i].to <= range.to)
    && (forall i, j :: 0 <= i < j < |ranges| ==> ranges[i].to < ranges[j].from)
  }

  lemma CoversCons(head: Range, tail: seq<Range>, port: int)
    ensures Covers([head] + tail, port) <==> head.Contains(port) || Covers(tail, port)
  {
    var whole := [head] + tail;
    assert whole[0] == head && forall i :: 0 <= i < |tail| ==> tail[i] == whole[i + 1];
    if Covers(tail, port) {
      var i :| 0 <= i < |tail| && tail[i].Contains(port);
      assert whole[i + 1].Contains(port);
    }
  }

  lemma {:induction false} GapsOrdered(range: Range, cuts: seq<Range>)
    requires Ordered(range, cuts)
    ensures Ordered(range, Gaps(range, cuts))
    decreases |cuts|
  {
    if cuts == [] {
    } else {
      GapsOrdered(Range(cuts[0].to + 1, range.to), cuts[1..]);
    }
  }

  lemma {:induction false} GapsCover(range: Range, cuts: seq<Range>, port: int)
    requires Ordered(range, cuts)
    ensures Covers(Gaps(range, cuts), port) <==> range.Contains(port) && !Covers(cuts, port)
    decreases |cuts|
  {
    if cuts == [] {
      CoversCons(range, [], port);
    } else {
      var rest := Range(cuts[0].to + 1, range.to);
      assert [cuts[0]] + cuts[1..] == cuts;
      CoversCons(cuts[0], cuts[1..], port);
      GapsCover(rest, cuts[1..], port);
      var gap := Range(range.from, cuts[0].from - 1);
      CoversCons(gap, Gaps(rest, cuts[1..]), port);
      assert [] + Gaps(rest, cuts[1..]) == Gaps(rest, cuts[1..]);
      assert port < cuts[0].from ==> !Covers(cuts[1..], port);
    }
  }

  /** Ranges whose ports all lie in a range are within it. */
  lemma CanonicalInside(ranges: seq<Range>, range: Range)
    requires Canonical(ranges) && forall port :: Covers(ranges, port) ==> range.Contains(port)
    ensures Ordered(range, ranges)
  {
    forall i | 0 <= i < |ranges| ensures range.from <= ranges[i].from <= ranges[i].to <= range.to {
      assert ranges[i].Contains(ranges[i].from) && ranges[i].Contains(ranges[i].to);
      assert Covers(ranges, ranges[i].from) && Covers(ranges, ranges[i].to);
    }
  }

  /** The loop that walks along the merged restrictions of a rule. */
  method CutRule(rule: Rule, merged: seq<Range>) returns (managed: seq<Rule>, manual: seq<Rule>)
    ensures CutInto(rule, managed, Gaps(rule.ports, merged)) && CutInto(rule, manual, merged)
  {
    managed, manual := [], [];
    var from := rule.ports.from;
    ghost var gaps: seq<Range> := [];
    for i := 0 to |merged|
      invariant CutInto(rule, manual, merged[..i]) && CutInto(rule, managed, gaps)
      invariant gaps + Gaps(Range(from, rule.ports.to), merged[i..]) == Gaps(rule.ports, merged)
    {
      var excluded := merged[i];
      GapsNext(gaps, Range(from, rule.ports.to), merged, i);
      if from < excluded.from {
        CutNext(rule, managed, gaps, Range(from, excluded.from - 1));
        managed := managed + [rule.(ports := Range(from, excluded.from - 1))];
        gaps := gaps + [Range(from, excluded.from - 1)];
      }
      CutNext(rule, manual, merged[..i], excluded);
      manual := manual + [rule.(ports := excluded)];
      assert merged[..i + 1] == merged[..i] + [excluded];
      from := excluded.to + 1;
    }
    assert merged[|merged|..] == [];
    if from <= rule.ports.to {
      CutNext(rule, managed, gaps, Range(from, rule.ports.to));
      managed := managed + [rule.(ports := rule.ports.(from := from))];
      gaps := gaps + [Range(from, rule.ports.to)];
    } else {
      assert gaps + [] == gaps;
    }
    assert merged[..|merged|] == merged;
  }

  /** The rule once for each of these ranges. */
  predicate CutInto(rule: Rule, parts: seq<Rule>, ports: seq<Range>) {
    |parts| == |ports| && forall k :: 0 <= k < |parts| ==> parts[k] == rule.(ports := ports[k])
  }

  lemma CutNext(rule: Rule, parts: seq<Rule>, ports: seq<Range>, range: Range)
    requires CutInto(rule, parts, ports)
    ensures CutInto(rule, parts + [rule.(ports := range)], ports + [range])
  {
  }

  lemma GapsNext(gaps: seq<Range>, left: Range, merged: seq<Range>, i: nat)
    requires i < |merged|
    ensures gaps + Gaps(left, merged[i..])
         == (if left.from < merged[i].from then gaps + [Range(left.from, merged[i].from - 1)] else gaps)
            + Gaps(Range(merged[i].to + 1, left.to), merged[i + 1..])
  {
    assert merged[i..][1..] == merged[i + 1..];
    var rest := Gaps(Range(merged[i].to + 1, left.to), merged[i + 1..]);
    if left.from < merged[i].from {
      JoinRanges(gaps, Range(left.from, merged[i].from - 1), rest);
    } else {
      assert [] + rest == rest;
    }
  }

  lemma JoinRanges(a: seq<Range>, b: Range, c: seq<Range>)
    ensures a + ([b] + c) == a + [b] + c
  {
  }

  /** One rule cut up: its ports are split exactly into the restricted ones and the rest. */
  method SplitRule(rule: Rule, existing: seq<Entry>) returns (managed: seq<Rule>, manual: seq<Rule>)
    requires SolidEntries(existing) && rule.ports.NonEmpty()
    ensures PartsOf(rule, managed) && PartsOf(rule, manual)
    ensures Ordered(rule.ports, PortsOf(managed)) && Ordered(rule.ports, PortsOf(manual))
    ensures forall port :: Covers(PortsOf(manual), port) <==>
              rule.ports.Contains(port) && Restricted(existing, rule, port)
    ensures forall port :: Covers(PortsOf(managed), port) <==>
              rule.ports.Contains(port) && !Restricted(existing, rule, port)
  {
    var exclusions := Exclusions(rule, existing);
    var merged := Merge(exclusions);
    managed, manual := CutRule(rule, merged);
    assert PortsOf(managed) == Gaps(rule.ports, merged) && PortsOf(manual) == merged;
    CanonicalInside(merged, rule.ports);
    GapsOrdered(rule.ports, merged);
    forall port ensures Covers(Gaps(rule.ports, merged), port) <==> rule.ports.Contains(port) && !Covers(merged, port) {
      GapsCover(rule.ports, merged, port);
    }
    PartsSolid(rule, managed);
    PartsSolid(rule, manual);
  }

  lemma PartsSolid(rule: Rule, parts: seq<Rule>)
    requires Ordered(rule.ports, PortsOf(parts))
    requires forall k :: 0 <= k < |parts| ==> parts[k] == rule.(ports := parts[k].ports)
    ensures PartsOf(rule, parts)
  {
    forall k | 0 <= k < |parts| ensures parts[k].ports.NonEmpty() {
      assert PortsOf(parts)[k] == parts[k].ports;
    }
  }

  // ---------------------------------------------------------------- a whole list of rules

  /** Some rule of the scope covers the port, and whether a manual restriction does is as asked. */
  predicate Wanted(allows: seq<Rule>, existing: seq<Entry>, scope: Rule, port: int, restricted: bool) {
    exists i :: 0 <= i < |allows| && allows[i].Scope() == scope && allows[i].ports.Contains(port) &&
                Restricted(existing, allows[i], port) == restricted
  }

  lemma WantedAppended(allows: seq<Rule>, existing: seq<Entry>, i: nat, scope: Rule, port: int, restricted: bool)
    requires i < |allows|
    ensures Wanted(allows[..i + 1], existing, scope, port, restricted)
       <==> || Wanted(allows[..i], existing, scope, port, restricted)
            || (allows[i].Scope() == scope && allows[i].ports.Contains(port)
                && Restricted(existing, allows[i], port) == restricted)
  {
    var front, grown := allows[..i], allows[..i + 1];
    assert grown[i] == allows[i] && forall k :: 0 <= k < i ==> grown[k] == front[k];
  }

  lemma PartsOpen(rule: Rule, parts: seq<Rule>, scope: Rule, port: int)
    requires PartsOf(rule, parts)
    ensures Opens(parts, scope, port) <==> rule.Scope() == scope && Covers(PortsOf(parts), port)
  {
    if Covers(PortsOf(parts), port) {
      var i :| 0 <= i < |parts| && PortsOf(parts)[i].Contains(port);
      assert parts[i].Scope() == rule.Scope() && parts[i].ports.Contains(port);
    }
    if Opens(parts, scope, port) {
      var i :| 0 <= i < |parts| && parts[i].Scope() == scope && parts[i].ports.Contains(port);
      assert PortsOf(parts)[i].Contains(port);
    }
  }

  /**
   Every port of every rule ends up in exactly one list: in `manual` when a rule other than an ALLOW concerns it,
   otherwise in `managed`.
   */
  method SplitManagedAllows(allows: seq<Rule>, existing: seq<Entry>) returns (managed: seq<Rule>, manual: seq<Rule>)
    requires SolidEntries(existing) && SolidRules(allows)
    ensures SolidRules(managed) && SolidRules(manual)
    ensures forall scope, port :: Opens(managed, scope, port) <==> Wanted(allows, existing, scope, port, false)
    ensures forall scope, port :: Opens(manual, scope, port) <==> Wanted(allows, existing, scope, port, true)
  {
    managed, manual := [], [];
    for i := 0 to |allows|
      invariant SolidRules(managed) && SolidRules(manual)
      invariant forall scope, port :: Opens(managed, scope, port) <==> Wanted(allows[..i], existing, scope, port, false)
      invariant forall scope, port :: Opens(manual, scope, port) <==> Wanted(allows[..i], existing, scope, port, true)
    {
      var kept, left := SplitRule(allows[i], existing);
      forall scope, port
        ensures Opens(managed + kept, scope, port) <==> Wanted(allows[..i + 1], existing, scope, port, false)
      {
        WantedAppended(allows, existing, i, scope, port, false);
        OpensConcat(managed, kept, scope, port);
        PartsOpen(allows[i], kept, scope, port);
      }
      forall scope, port
        ensures Opens(manual + left, scope, port) <==> Wanted(allows[..i + 1], existing, scope, port, true)
      {
        WantedAppended(allows, existing, i, scope, port, true);
        OpensConcat(manual, left, scope, port);
        PartsOpen(allows[i], left, scope, port);
      }
      managed, manual := managed + kept, manual + left;
    }
    assert allows[..|allows|] == allows;
  }

  /** No managed part is stopped by an entry that is there, and no entry that stops a rule concerns its managed part. */
  lemma ManagedPartsAreFree(rule: Rule, part: Rule, existing: seq<Entry>, e: Entry)
    requires part == rule.(ports := part.ports) && e in existing && SolidEntries(existing) && part.ports.NonEmpty()
    requires forall port :: part.ports.Contains(port) ==> rule.ports.Contains(port) && !Restricted(existing, rule, port)
    ensures !Blocks(e, part)
  {
    var i :| 0 <= i < |existing| && existing[i] == e;
    var port := Max(part.ports.from, e.rule.ports.from);
    assert part.ports.Contains(port) ==> rule.ports.Contains(port) && !Restricted(existing, rule, port);
    assert !(Blocks(existing[i], rule) && existing[i].rule.ports.Contains(port) && part.ports.Contains(port));
  }
}
