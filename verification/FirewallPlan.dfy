/** Which ports are opened and forwarded: combining the plans of all running nodes into one set of rules. */
module FirewallPlan {
  import opened Common
  import opened PortSet

  /** `address` and `source` are empty for any; `target` is 0 for a rule that only opens ports. */
  datatype Rule = Rule(family: int, address: string, source: string, protocol: string, ports: Range, target: int) {
    /** Everything but the ports: rules of one scope are merged with each other. */
    function Scope(): Rule { this.(ports := Range(0, 0)) }

    function Opened(): Rule { this.(target := 0) }
  }

  datatype Plan = Plan(listeners: seq<Rule>, redirects: seq<Rule>, restricted: bool) {
    function Rules(): seq<Rule> { listeners + redirects }
  }

  datatype PlanError = Pending | Conflict

  predicate Overlaps(a: Rule, b: Rule) {
    && a.family == b.family && a.protocol == b.protocol
    && (a.address == "" || b.address == "" || a.address == b.address) && a.ports.Overlaps(b.ports)
  }

  /** Some rule of this scope covers the port. */
  predicate Opens(rules: seq<Rule>, scope: Rule, port: int) {
    exists i :: 0 <= i < |rules| && rules[i].Scope() == scope && rules[i].ports.Contains(port)
  }

  predicate SolidRules(rules: seq<Rule>) {
    forall i :: 0 <= i < |rules| ==> rules[i].ports.NonEmpty()
  }

  // ---------------------------------------------------------------- merging

  /**
   One rule per maximal run of open ports of each scope, in the order of `rank` (the order of the rules' key texts).
   */
  ghost predicate IsMerge(opens: (Rule, int) -> bool, merged: seq<Rule>, rank: Rule -> int) {
    && (forall rule :: rule in merged <==> MaximalRun(port => opens(rule.Scope(), port), rule.ports))
    && Ascending(merged, rank)
  }

  function OpensOf(rules: seq<Rule>): (Rule, int) -> bool {
    (scope, port) => Opens(rules, scope, port)
  }

  ghost predicate Injective(rank: Rule -> int) {
    forall a, b :: rank(a) == rank(b) ==> a == b
  }

  predicate Ascending(rules: seq<Rule>, rank: Rule -> int) {
    forall i, j :: 0 <= i < j < |rules| ==> rank(rules[i]) < rank(rules[j])
  }

  lemma {:induction false} SortedUnique(a: seq<Rule>, b: seq<Rule>, rank: Rule -> int)
    requires forall rule :: rule in a <==> rule in b
    requires Ascending(a, rank) && Ascending(b, rank)
    ensures a == b
  {
    assert |a| > 0 ==> a[0] in a;
    assert |b| > 0 ==> b[0] in b;
    if a == [] {
    } else {
      forall rule | rule in a[1..] ensures rule in b[1..] {
        assert rule in b && rule != b[0];
      }
      forall rule | rule in b[1..] ensures rule in a[1..] {
        assert rule in a && rule != a[0];
      }
      SortedUnique(a[1..], b[1..], rank);
    }
  }

  /** The merged rules depend on nothing but which ports are open in which scope. */
  lemma MergeDependsOnPorts(opens: (Rule, int) -> bool, others: (Rule, int) -> bool, merged: seq<Rule>,
                            otherMerged: seq<Rule>,
                            rank: Rule -> int)
    requires forall scope: Rule, port :: opens(scope, port) <==> others(scope, port)
    requires IsMerge(opens, merged, rank) && IsMerge(others, otherMerged, rank)
    ensures merged == otherMerged
  {
    forall rule ensures rule in merged <==> rule in otherMerged {
      assert forall port :: opens(rule.Scope(), port) <==> others(rule.Scope(), port);
    }
    SortedUnique(merged, otherMerged, rank);
  }

  ghost function RunEnd(covered: int -> bool, port: int, beyond: int): (end: int)
    requires covered(port) && !covered(beyond) && port < beyond
    ensures port <= end < beyond && !covered(end + 1) && forall p :: port <= p <= end ==> covered(p)
    decreases beyond - port
  {
    if covered(port + 1) then RunEnd(covered, port + 1, beyond) else port
  }

  ghost function RunStart(covered: int -> bool, port: int, before: int): (start: int)
    requires covered(port) && !covered(before) && before < port
    ensures before < start <= port && !covered(start - 1) && forall p :: start <= p <= port ==> covered(p)
    decreases port - before
  {
    if covered(port - 1) then RunStart(covered, port - 1, before) else port
  }

  lemma {:induction false} PortBounds(rules: seq<Rule>) returns (before: int, beyond: int)
    ensures forall i, port :: 0 <= i < |rules| && rules[i].ports.Contains(port) ==> before < port < beyond
  {
    if rules == [] {
      before, beyond := 0, 0;
    } else {
      var front, last := rules[..|rules| - 1], rules[|rules| - 1].ports;
      before, beyond := PortBounds(front);
      before, beyond := Min(before, last.from - 1), Max(beyond, last.to + 1);
      assert forall i :: 0 <= i < |front| ==> front[i] == rules[i];
    }
  }

  lemma MergeLosesNoPort(opens: (Rule, int) -> bool, merged: seq<Rule>, rank: Rule -> int, scope: Rule, port: int,
                         before: int, beyond: int)
    requires IsMerge(opens, merged, rank) && opens(scope, port) && scope.Scope() == scope
    requires before < port < beyond && !opens(scope, before) && !opens(scope, beyond)
    ensures Opens(merged, scope, port)
  {
    var covered := p => opens(scope, p);
    var rule := scope.(ports := Range(RunStart(covered, port, before), RunEnd(covered, port, beyond)));
    assert rule.Scope() == scope;
    assert MaximalRun(p => opens(rule.Scope(), p), rule.ports);
    var i :| 0 <= i < |merged| && merged[i] == rule;
    assert merged[i].ports.Contains(port);
  }

  /** Merging opens the same ports: none is lost and none is added. */
  lemma MergeKeepsPorts(rules: seq<Rule>, merged: seq<Rule>, rank: Rule -> int, scope: Rule, port: int)
    requires IsMerge(OpensOf(rules), merged, rank)
    ensures Opens(merged, scope, port) <==> Opens(rules, scope, port)
  {
    if Opens(rules, scope, port) {
      var before, beyond := PortBounds(rules);
      var i :| 0 <= i < |rules| && rules[i].Scope() == scope;
      MergeLosesNoPort(OpensOf(rules), merged, rank, scope, port, before, beyond);
    }
    if Opens(merged, scope, port) {
      var i :| 0 <= i < |merged| && merged[i].Scope() == scope && merged[i].ports.Contains(port);
      assert merged[i] in merged;
    }
  }

  /** Merging what is merged changes nothing. */
  lemma MergeIsIdempotent(rules: seq<Rule>, merged: seq<Rule>, again: seq<Rule>, rank: Rule -> int)
    requires IsMerge(OpensOf(rules), merged, rank) && IsMerge(OpensOf(merged), again, rank)
    ensures again == merged
  {
    forall scope, port ensures Opens(merged, scope, port) <==> Opens(rules, scope, port) {
      MergeKeepsPorts(rules, merged, rank, scope, port);
    }
    MergeDependsOnPorts(OpensOf(merged), OpensOf(rules), again, merged, rank);
  }

  lemma AscendingAround(front: seq<Rule>, rule: Rule, back: seq<Rule>, rank: Rule -> int)
    requires Ascending(front + back, rank)
    requires forall i :: 0 <= i < |front| ==> rank(front[i]) < rank(rule)
    requires forall i :: 0 <= i < |back| ==> rank(rule) < rank(back[i])
    ensures Ascending(front + [rule] + back, rank)
  {
    var whole, grown := front + back, front + [rule] + back;
    forall i, j | 0 <= i < j < |grown| ensures rank(grown[i]) < rank(grown[j]) {
      var before, after := if i < |front| then i else i - 1, if j <= |front| then j else j - 1;
      assert i != |front| ==> grown[i] == whole[before];
      assert j != |front| ==> grown[j] == whole[after];
    }
  }

  lemma MembersAround(front: seq<Rule>, rule: Rule, back: seq<Rule>, r: Rule)
    ensures r in front + [rule] + back <==> r in front + back || r == rule
  {
  }

  lemma InsertedAt(ordered: seq<Rule>, rule: Rule, rank: Rule -> int, k: nat)
    requires Ascending(ordered, rank) && Injective(rank) && rule !in ordered && k <= |ordered|
    requires k > 0 ==> rank(ordered[k - 1]) <= rank(rule)
    requires forall j :: k <= j < |ordered| ==> rank(rule) < rank(ordered[j])
    ensures var grown := ordered[..k] + [rule] + ordered[k..];
            Ascending(grown, rank) && forall r :: r in grown <==> r in ordered || r == rule
  {
    var front, back := ordered[..k], ordered[k..];
    assert ordered == front + back;
    assert k > 0 ==> rank(ordered[k - 1]) != rank(rule);
    AscendingAround(front, rule, back, rank);
    forall r ensures r in front + [rule] + back <==> r in ordered || r == rule {
      MembersAround(front, rule, back, r);
    }
  }

  method InsertByRank(ordered: seq<Rule>, rule: Rule, rank: Rule -> int) returns (grown: seq<Rule>)
    requires Ascending(ordered, rank) && Injective(rank) && rule !in ordered
    ensures Ascending(grown, rank) && forall r :: r in grown <==> r in ordered || r == rule
  {
    var k := |ordered|;
    while k > 0 && rank(rule) < rank(ordered[k - 1])
      invariant 0 <= k <= |ordered|
      invariant forall j :: k <= j < |ordered| ==> rank(rule) < rank(ordered[j])
    {
      k := k - 1;
    }
    InsertedAt(ordered, rule, rank, k);
    grown := ordered[..k] + [rule] + ordered[k..];
  }

  method SortByRank(rules: seq<Rule>, rank: Rule -> int) returns (ordered: seq<Rule>)
    requires Injective(rank) && forall i, j :: 0 <= i < j < |rules| ==> rules[i] != rules[j]
    ensures Ascending(ordered, rank) && forall r :: r in ordered <==> r in rules
  {
    ordered := [];
    for i := 0 to |rules|
      invariant Ascending(ordered, rank) && forall r :: r in ordered <==> r in rules[..i]
    {
      assert rules[..i + 1] == rules[..i] + [rules[i]];
      ordered := InsertByRank(ordered, rules[i], rank);
    }
    assert rules[..|rules|] == rules;
  }

  /** The port ranges collected for a scope, none if it has not been met. */
  function RangesOf(groups: map<Rule, seq<Range>>, scope: Rule): seq<Range> {
    if scope in groups then groups[scope] else []
  }

  lemma OpensAppended(front: seq<Rule>, last: Rule, scope: Rule, port: int)
    ensures Opens(front + [last], scope, port) <==>
              Opens(front, scope, port) || (last.Scope() == scope && last.ports.Contains(port))
  {
    var whole := front + [last];
    if Opens(front, scope, port) {
      var i :| 0 <= i < |front| && front[i].Scope() == scope && front[i].ports.Contains(port);
      assert whole[i] == front[i];
    }
    assert whole[|front|] == last;
  }

  method GroupPorts(rules: seq<Rule>) returns (groups: map<Rule, seq<Range>>)
    requires SolidRules(rules)
    ensures forall scope, port :: Covers(RangesOf(groups, scope), port) <==> Opens(rules, scope, port)
    ensures forall scope :: scope in groups ==>
              scope.Scope() == scope && forall i :: 0 <= i < |groups[scope]| ==> groups[scope][i].NonEmpty()
  {
    groups := map[];
    for i := 0 to |rules|
      invariant forall scope, port :: Covers(RangesOf(groups, scope), port) <==> Opens(rules[..i], scope, port)
      invariant forall scope :: scope in groups ==>
                  scope.Scope() == scope && forall j :: 0 <= j < |groups[scope]| ==> groups[scope][j].NonEmpty()
    {
      var key := rules[i].Scope();
      var grown := groups[key := RangesOf(groups, key) + [rules[i].ports]];
      assert rules[..i + 1] == rules[..i] + [rules[i]];
      forall scope, port ensures Covers(RangesOf(grown, scope), port) <==> Opens(rules[..i + 1], scope, port) {
        OpensAppended(rules[..i], rules[i], scope, port);
        CoversAppended(RangesOf(groups, key), rules[i].ports, port);
      }
      groups := grown;
    }
    assert rules[..|rules|] == rules;
  }

  method WithPorts(scope: Rule, ports: seq<Range>) returns (rules: seq<Rule>)
    ensures |rules| == |ports| && forall i :: 0 <= i < |ports| ==> rules[i] == scope.(ports := ports[i])
  {
    rules := [];
    for i := 0 to |ports|
      invariant |rules| == i && forall j :: 0 <= j < i ==> rules[j] == scope.(ports := ports[j])
    {
      rules := rules + [scope.(ports := ports[i])];
    }
  }

  method MergeRules(rules: seq<Rule>, rank: Rule -> int) returns (merged: seq<Rule>)
    requires SolidRules(rules) && Injective(rank)
    ensures IsMerge(OpensOf(rules), merged, rank)
  {
    var groups := GroupPorts(rules);
    var all: seq<Rule> := [];
    var todo := groups.Keys;
    while todo != {}
      invariant todo <= groups.Keys
      invariant forall rule :: rule in all <==>
                  rule.Scope() in groups.Keys - todo && MaximalRun(port => Opens(rules, rule.Scope(), port), rule.ports)
      invariant forall i, j :: 0 <= i < j < |all| ==> all[i] != all[j]
    {
      var scope :| scope in todo;
      var ports := Merge(groups[scope]);
      var more := WithPorts(scope, ports);
      RunsOfScope(rules, scope, ports, more);
      todo := todo - {scope};
      assert forall i :: 0 <= i < |all| ==> all[i] in all;
      assert forall i :: 0 <= i < |more| ==> more[i].Scope() == scope;
      all := all + more;
    }
    forall rule: Rule | MaximalRun(port => Opens(rules, rule.Scope(), port),
                                   rule.ports) ensures rule.Scope() in groups {
      assert Opens(rules, rule.Scope(), rule.ports.from) by { assert rule.ports.Contains(rule.ports.from); }
      assert Covers(RangesOf(groups, rule.Scope()), rule.ports.from);
    }
    merged := SortByRank(all, rank);
  }

  lemma RunsOfScope(rules: seq<Rule>, scope: Rule, ports: seq<Range>, made: seq<Rule>)
    requires Canonical(ports) && scope.Scope() == scope
    requires forall port :: Covers(ports, port) <==> Opens(rules, scope, port)
    requires |made| == |ports| && forall i :: 0 <= i < |ports| ==> made[i] == scope.(ports := ports[i])
    ensures forall rule :: rule in made <==>
              rule.Scope() == scope && MaximalRun(port => Opens(rules, rule.Scope(), port), rule.ports)
    ensures forall i, j :: 0 <= i < j < |made| ==> made[i] != made[j]
  {
    forall rule
      ensures rule in made <==>
                rule.Scope() == scope && MaximalRun(port => Opens(rules, rule.Scope(), port), rule.ports)
    {
      CanonicalMembers(ports, rule.ports);
      if rule.Scope() == scope {
        assert rule == scope.(ports := rule.ports);
        assert MaximalRun(port => Opens(rules, rule.Scope(), port), rule.ports)
           <==> MaximalRun(port => Covers(ports, port), rule.ports);
        if rule.ports in ports {
          var i :| 0 <= i < |ports| && ports[i] == rule.ports;
          assert made[i] == rule;
        }
      }
    }
  }

  // ---------------------------------------------------------------- combining plans

  predicate ClashAt(left: Plan, right: Plan, a: Rule, b: Rule) {
    Overlaps(a, b) && (left.restricted || right.restricted || a.source != "" || b.source != "")
  }

  /** Two nodes share a port that at least one of them restricts by source. */
  predicate Clash(left: Plan, right: Plan) {
    exists a, b :: a in left.Rules() && b in right.Rules() && ClashAt(left, right, a, b)
  }

  ghost predicate SharedRestricted(plans: map<string, Plan>) {
    exists owner, other :: owner in plans && other in plans && owner != other && Clash(plans[owner], plans[other])
  }

  /** A node's own UDP listeners and its forwarded ranges, each with the port its packets end up at. */
  predicate IsClaim(plan: Plan, claim: Rule) {
    || claim in plan.redirects
    || exists i :: 0 <= i < |plan.listeners| && plan.listeners[i].protocol == "udp" &&
                   claim == plan.listeners[i].(target := plan.listeners[i].ports.from)
  }

  ghost predicate Claimed(plans: map<string, Plan>, claim: Rule) {
    exists owner :: owner in plans && IsClaim(plans[owner], claim)
  }

  predicate Contradict(a: Rule, b: Rule) {
    && a.family == b.family && (a.address == "" || b.address == "" || a.address == b.address)
    && a.ports.Overlaps(b.ports) && a.target != b.target
  }

  ghost predicate ClaimsConflict(plans: map<string, Plan>) {
    exists a, b :: Claimed(plans, a) && Claimed(plans, b) && Contradict(a, b)
  }

  predicate PlanAllows(plan: Plan, scope: Rule, port: int) {
    || Opens(plan.listeners, scope, port)
    || exists i :: 0 <= i < |plan.redirects| && plan.redirects[i].Opened().Scope() == scope
                   && plan.redirects[i].ports.Contains(port)
  }

  ghost predicate AnyAllows(plans: map<string, Plan>, scope: Rule, port: int) {
    exists owner :: owner in plans && PlanAllows(plans[owner], scope, port)
  }

  ghost predicate AnyRedirects(plans: map<string, Plan>, scope: Rule, port: int) {
    exists owner :: owner in plans && Opens(plans[owner].redirects, scope, port)
  }

  ghost function AllAllows(plans: map<string, Plan>): (Rule, int) -> bool {
    (scope, port) => AnyAllows(plans, scope, port)
  }

  ghost function AllRedirects(plans: map<string, Plan>): (Rule, int) -> bool {
    (scope, port) => AnyRedirects(plans, scope, port)
  }

  predicate SolidPlans(plans: map<string, Plan>) {
    forall owner :: owner in plans ==> SolidRules(plans[owner].listeners) && SolidRules(plans[owner].redirects)
  }

  datatype Combined = Combined(allows: seq<Rule>, redirects: seq<Rule>)

  /** What combining the plans must answer, whatever order the plans are walked in. */
  ghost predicate IsCombination(plans: map<string, Plan>, rank: Rule -> int, r: Result<Combined, PlanError>) {
    && (r.Err? && r.error.Pending? <==> SharedRestricted(plans))
    && (r.Err? && r.error.Conflict? <==> !SharedRestricted(plans) && ClaimsConflict(plans))
    && (r.Ok? ==>
          && IsMerge(AllAllows(plans), r.value.allows, rank) && IsMerge(AllRedirects(plans), r.value.redirects, rank))
  }

  /** Acceptance and output are determined by the plans alone. */
  lemma CombinationIsUnique(plans: map<string, Plan>, rank: Rule -> int, a: Result<Combined, PlanError>,
                            b: Result<Combined, PlanError>)
    requires IsCombination(plans, rank, a) && IsCombination(plans, rank, b)
    ensures a == b
  {
    assert a.Err? ==> a.error.Pending? || a.error.Conflict?;
    assert b.Err? ==> b.error.Pending? || b.error.Conflict?;
    if a.Ok? && b.Ok? {
      MergeDependsOnPorts(AllAllows(plans), AllAllows(plans), a.value.allows, b.value.allows, rank);
      MergeDependsOnPorts(AllRedirects(plans), AllRedirects(plans), a.value.redirects, b.value.redirects, rank);
    }
  }

  datatype Datagram = Datagram(family: int, address: string, port: int)

  predicate Receives(claim: Rule, packet: Datagram) {
    claim.family == packet.family && (claim.address == "" || claim.address == packet.address)
    && claim.ports.Contains(packet.port)
  }

  /** A packet both of two contradicting claims receive. */
  function Witness(a: Rule, b: Rule): Datagram {
    Datagram(a.family, if a.address == "" then b.address else a.address, Max(a.ports.from, b.ports.from))
  }

  ghost predicate ForwardsToOne(plans: map<string, Plan>) {
    forall packet, a, b :: Claimed(plans, a) && Claimed(plans, b) && Receives(a, packet) && Receives(b, packet) ==>
                             a.target == b.target
  }

  /** The plans are free of conflicts exactly when every UDP packet is forwarded to one port at most. */
  lemma ForwardingIsAFunction(plans: map<string, Plan>)
    requires SolidPlans(plans)
    ensures !ClaimsConflict(plans) <==> ForwardsToOne(plans)
  {
    if ClaimsConflict(plans) {
      var a, b :| Claimed(plans, a) && Claimed(plans, b) && Contradict(a, b);
      ClaimIsSolid(plans, a);
      ClaimIsSolid(plans, b);
      assert Receives(a, Witness(a, b)) && Receives(b, Witness(a, b));
    } else {
      forall packet, a, b | Claimed(plans, a) && Claimed(plans, b) && Receives(a, packet) && Receives(b, packet)
        ensures a.target == b.target
      {
        assert !Contradict(a, b);
      }
    }
  }

  lemma ClaimIsSolid(plans: map<string, Plan>, claim: Rule)
    requires SolidPlans(plans) && Claimed(plans, claim)
    ensures claim.ports.NonEmpty()
  {
    var owner :| owner in plans && IsClaim(plans[owner], claim);
    if claim in plans[owner].redirects {
      var i :| 0 <= i < |plans[owner].redirects| && plans[owner].redirects[i] == claim;
    } else {
      var i :| 0 <= i < |plans[owner].listeners|
      && claim == plans[owner].listeners[i].(target := plans[owner].listeners[i].ports.from);
      assert claim.ports == plans[owner].listeners[i].ports;
    }
  }

  /** Two plans that were accepted together keep a restricted port to one of them. */
  lemma RestrictedPortsAreExclusive(plans: map<string, Plan>, owner: string, other: string, a: Rule, b: Rule,
                                    packet: Datagram)
    requires !SharedRestricted(plans) && owner in plans && other in plans && owner != other
    requires a in plans[owner].Rules() && b in plans[other].Rules() && a.protocol == b.protocol
    requires Receives(a, packet) && Receives(b, packet)
    ensures !plans[owner].restricted && !plans[other].restricted && a.source == "" && b.source == ""
  {
    assert !Clash(plans[owner], plans[other]);
    assert !ClashAt(plans[owner], plans[other], a, b);
  }

  /** Owners are compared as text. */
  predicate TextBefore(a: string, b: string) {
    if b == "" then false
    else if a == "" then true
    else a[0] < b[0] || (a[0] == b[0] && TextBefore(a[1..], b[1..]))
  }

  lemma {:induction false} TextOrdered(a: string, b: string)
    requires a != b
    ensures TextBefore(a, b) || TextBefore(b, a)
  {
    if a != "" && b != "" && a[0] == b[0] {
      assert a == [a[0]] + a[1..] && b == [b[0]] + b[1..];
      TextOrdered(a[1..], b[1..]);
    }
  }

  lemma ClashSymmetric(left: Plan, right: Plan)
    requires Clash(left, right)
    ensures Clash(right, left)
  {
    var a, b :| a in left.Rules() && b in right.Rules() && ClashAt(left, right, a, b);
    assert ClashAt(right, left, b, a);
  }

  method Clashes(left: Plan, right: Plan) returns (found: bool)
    ensures found == Clash(left, right)
  {
    var ours, theirs := left.Rules(), right.Rules();
    for i := 0 to |ours|
      invariant forall k, b :: 0 <= k < i && b in theirs ==> !ClashAt(left, right, ours[k], b)
    {
      for j := 0 to |theirs|
        invariant forall l :: 0 <= l < j ==> !ClashAt(left, right, ours[i], theirs[l])
      {
        if ClashAt(left, right, ours[i], theirs[j]) {
          return true;
        }
      }
    }
    return false;
  }

  method FindShared(plans: map<string, Plan>) returns (found: bool)
    ensures found == SharedRestricted(plans)
  {
    var owners := plans.Keys;
    while owners != {}
      invariant owners <= plans.Keys
      invariant forall owner, other :: owner in plans.Keys - owners && other in plans && TextBefore(owner, other) ==>
                                         !Clash(plans[owner], plans[other])
    {
      var owner :| owner in owners;
      var others := plans.Keys;
      while others != {}
        invariant others <= plans.Keys
        invariant forall other :: other in plans.Keys - others && TextBefore(owner, other) ==>
                  !Clash(plans[owner], plans[other])
      {
        var other :| other in others;
        others := others - {other};
        if TextBefore(owner, other) {
          var clash := Clashes(plans[owner], plans[other]);
          if clash {
            NotBeforeItself(owner);
            return true;
          }
        }
      }
      owners := owners - {owner};
    }
    forall owner, other | owner in plans && other in plans
           && owner != other ensures !Clash(plans[owner], plans[other]) {
      TextOrdered(owner, other);
      if TextBefore(other, owner) && Clash(plans[owner], plans[other]) {
        ClashSymmetric(plans[owner], plans[other]);
      }
    }
    return false;
  }

  lemma {:induction false} NotBeforeItself(a: string)
    ensures !TextBefore(a, a)
  {
    if a != "" {
      NotBeforeItself(a[1..]);
    }
  }

  lemma OpensConcat(front: seq<Rule>, back: seq<Rule>, scope: Rule, port: int)
    ensures Opens(front + back, scope, port) <==> Opens(front, scope, port) || Opens(back, scope, port)
  {
    var whole := front + back;
    assert forall i :: 0 <= i < |front| ==> whole[i] == front[i];
    assert forall i :: 0 <= i < |back| ==> whole[|front| + i] == back[i];
  }

  /** One plan's share of the rules to open, to forward, and of the claims to compare. */
  method CollectPlan(plan: Plan) returns (allows: seq<Rule>, claims: seq<Rule>)
    requires SolidRules(plan.listeners) && SolidRules(plan.redirects)
    ensures SolidRules(allows) && forall scope, port :: Opens(allows, scope, port) <==> PlanAllows(plan, scope, port)
    ensures forall claim :: claim in claims <==> IsClaim(plan, claim)
  {
    allows, claims := [], [];
    for i := 0 to |plan.listeners|
      invariant allows == plan.listeners[..i]
      invariant forall claim :: claim in claims <==>
                  exists k :: 0 <= k < i && plan.listeners[k].protocol == "udp" &&
                              claim == plan.listeners[k].(target := plan.listeners[k].ports.from)
    {
      allows := allows + [plan.listeners[i]];
      if plan.listeners[i].protocol == "udp" {
        claims := claims + [plan.listeners[i].(target := plan.listeners[i].ports.from)];
      }
    }
    ghost var own := claims;
    var forwarded: seq<Rule> := [];
    for i := 0 to |plan.redirects|
      invariant |forwarded| == i && forall k :: 0 <= k < i ==> forwarded[k] == plan.redirects[k].Opened()
      invariant claims == own + plan.redirects[..i]
    {
      claims := claims + [plan.redirects[i]];
      forwarded := forwarded + [plan.redirects[i].Opened()];
    }
    forall scope, port ensures Opens(allows + forwarded, scope, port) <==> PlanAllows(plan, scope, port) {
      OpensConcat(allows, forwarded, scope, port);
    }
    allows := allows + forwarded;
  }

  lemma CollectNext(plans: map<string, Plan>, owner: string, done: set<string>, allows: seq<Rule>, more: seq<Rule>,
                    scope: Rule, port: int)
    requires owner in plans && done <= plans.Keys
    requires Opens(allows, scope, port) <==> exists o :: o in done && PlanAllows(plans[o], scope, port)
    requires Opens(more, scope, port) <==> PlanAllows(plans[owner], scope, port)
    ensures Opens(allows + more, scope, port) <==> exists o :: o in done + {owner} && PlanAllows(plans[o], scope, port)
  {
    OpensConcat(allows, more, scope, port);
    assert owner in done + {owner};
  }

  lemma CollectNextRedirects(plans: map<string, Plan>, owner: string, done: set<string>, redirects: seq<Rule>,
                             scope: Rule, port: int)
    requires owner in plans && done <= plans.Keys
    requires Opens(redirects, scope, port) <==> exists o :: o in done && Opens(plans[o].redirects, scope, port)
    ensures Opens(redirects + plans[owner].redirects, scope, port)
       <==> exists o :: o in done + {owner} && Opens(plans[o].redirects, scope, port)
  {
    OpensConcat(redirects, plans[owner].redirects, scope, port);
    assert owner in done + {owner};
  }

  method Collect(plans: map<string, Plan>) returns (allows: seq<Rule>, redirects: seq<Rule>, claims: seq<Rule>)
    requires SolidPlans(plans)
    ensures SolidRules(allows) && SolidRules(redirects)
    ensures forall scope, port :: Opens(allows, scope, port) <==> AnyAllows(plans, scope, port)
    ensures forall scope, port :: Opens(redirects, scope, port) <==> AnyRedirects(plans, scope, port)
    ensures forall claim :: claim in claims <==> Claimed(plans, claim)
  {
    allows, redirects, claims := [], [], [];
    var todo := plans.Keys;
    while todo != {}
      invariant todo <= plans.Keys && SolidRules(allows) && SolidRules(redirects)
      invariant forall scope, port :: Opens(allows, scope, port) <==>
                  exists owner :: owner in plans.Keys - todo && PlanAllows(plans[owner], scope, port)
      invariant forall scope, port :: Opens(redirects, scope, port) <==>
                  exists owner :: owner in plans.Keys - todo && Opens(plans[owner].redirects, scope, port)
      invariant forall claim :: claim in claims <==>
                exists owner :: owner in plans.Keys - todo && IsClaim(plans[owner], claim)
    {
      var owner :| owner in todo;
      var forwarded, claimed := CollectPlan(plans[owner]);
      ghost var done := plans.Keys - todo;
      forall scope, port
        ensures Opens(allows + forwarded, scope, port) <==>
                  exists o :: o in done + {owner} && PlanAllows(plans[o], scope, port)
        ensures Opens(redirects + plans[owner].redirects, scope, port)
           <==> exists o :: o in done + {owner} && Opens(plans[o].redirects, scope, port)
      {
        CollectNext(plans, owner, done, allows, forwarded, scope, port);
        CollectNextRedirects(plans, owner, done, redirects, scope, port);
      }
      assert plans.Keys - (todo - {owner}) == done + {owner};
      allows, redirects, claims := allows + forwarded, redirects + plans[owner].redirects, claims + claimed;
      todo := todo - {owner};
    }
  }

  method FindConflict(claims: seq<Rule>) returns (found: bool)
    ensures found <==> exists a, b :: a in claims && b in claims && Contradict(a, b)
  {
    for i := 0 to |claims|
      invariant forall k, l :: 0 <= k < i && k < l < |claims| ==> !Contradict(claims[k], claims[l])
    {
      for j := i + 1 to |claims|
        invariant forall l :: i < l < j ==> !Contradict(claims[i], claims[l])
      {
        if Contradict(claims[i], claims[j]) {
          return true;
        }
      }
    }
    forall a, b | a in claims && b in claims ensures !Contradict(a, b) {
      var k :| 0 <= k < |claims| && claims[k] == a;
      var l :| 0 <= l < |claims| && claims[l] == b;
      assert k != l ==> !Contradict(claims[if k < l then k else l], claims[if k < l then l else k]);
    }
    return false;
  }

  /** Being merged is a matter of which ports are open. */
  lemma MergeOfSame(opens: (Rule, int) -> bool, others: (Rule, int) -> bool, merged: seq<Rule>, rank: Rule -> int)
    requires forall scope: Rule, port :: opens(scope, port) <==> others(scope, port)
    requires IsMerge(opens, merged, rank)
    ensures IsMerge(others, merged, rank)
  {
    forall rule ensures rule in merged <==> MaximalRun(port => others(rule.Scope(), port), rule.ports) {
      assert forall port :: opens(rule.Scope(), port) <==> others(rule.Scope(), port);
    }
  }

  lemma MergedUnion(rules: seq<Rule>, opens: (Rule, int) -> bool, merged: seq<Rule>, rank: Rule -> int)
    requires forall scope, port :: Opens(rules, scope, port) <==> opens(scope, port)
    requires IsMerge(OpensOf(rules), merged, rank)
    ensures IsMerge(opens, merged, rank)
  {
    MergeOfSame(OpensOf(rules), opens, merged, rank);
  }

  /**
   Refuses shared restricted ports first, then contradicting forwards; otherwise the union of all plans, port by port.
   */
  method CombinePlans(plans: map<string, Plan>, rank: Rule -> int) returns (r: Result<Combined, PlanError>)
    requires SolidPlans(plans) && Injective(rank)
    ensures IsCombination(plans, rank, r)
  {
    var shared := FindShared(plans);
    if shared {
      return Err(Pending);
    }
    var allows, redirects, claims := Collect(plans);
    var conflict := FindConflict(claims);
    if conflict {
      return Err(Conflict);
    }
    var mergedAllows := MergeRules(allows, rank);
    var mergedRedirects := MergeRules(redirects, rank);
    MergedUnion(allows, AllAllows(plans), mergedAllows, rank);
    MergedUnion(redirects, AllRedirects(plans), mergedRedirects, rank);
    return Ok(Combined(mergedAllows, mergedRedirects));
  }
}
