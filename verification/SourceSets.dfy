/**
 Source filters through iptables and ipset: the sets of blocked source addresses, the chains that drop packets by them,
 and which packets are dropped.
 */
module SourceSets {
  import opened Common
  import opened PortSet
  import opened FirewallPlan

  // ---------------------------------------------------------------- prefixes

  function Width(family: int): nat {
    if family == 4 then 32 else 128
  }

  /** The addresses whose first `bits` bits are those of `base`. */
  datatype Prefix = Prefix(base: nat, bits: nat) {
    predicate Valid(family: int) { bits <= Width(family) && base < Pow2(Width(family)) }

    predicate Contains(family: int, address: nat) {
      bits <= Width(family) && address / Pow2(Width(family) - bits) == base / Pow2(Width(family) - bits)
    }
  }

  predicate InAny(prefixes: set<Prefix>, family: int, address: nat) {
    exists p :: p in prefixes && p.Contains(family, address)
  }

  datatype Blocked = Blocked(family: int, prefix: Prefix)

  datatype SourcePlan = SourcePlan(listeners: seq<Rule>, blocked: seq<Blocked>)

  predicate PlanBlocks(plan: SourcePlan, family: int, address: nat) {
    exists i :: 0 <= i < |plan.blocked| && plan.blocked[i].family == family
                && plan.blocked[i].prefix.Contains(family, address)
  }

  function LowerHalf(): Prefix { Prefix(0, 1) }

  function UpperHalf(family: int): Prefix { Prefix(Pow2(Width(family) - 1), 1) }

  /** What one blocked prefix becomes: ipset refuses /0, so it is entered as two halves. */
  function Entered(family: int, prefix: Prefix): set<Prefix> {
    if prefix.bits == 0 then {LowerHalf(), UpperHalf(family)} else {prefix}
  }

  /** The sorted list without repetitions that is entered into the set is a set here. */
  function IpsetPrefixes(blocked: seq<Blocked>, family: int): set<Prefix> {
    if blocked == [] then {}
    else
      IpsetPrefixes(blocked[..|blocked| - 1], family) +
      (if blocked[|blocked| - 1].family == family then Entered(family, blocked[|blocked| - 1].prefix) else {})
  }

  lemma HalvesCoverAll(family: int, address: nat)
    requires address < Pow2(Width(family))
    ensures LowerHalf().Contains(family, address) || UpperHalf(family).Contains(family, address)
    ensures Prefix(0, 0).Contains(family, address)
  {
    var half := Pow2(Width(family) - 1);
    assert Pow2(Width(family)) == 2 * half;
    QuotientOfHalf(address, half);
    assert 0 / half == 0 && half / half == 1;
    assert address / Pow2(Width(family)) == 0 == 0 / Pow2(Width(family));
  }

  lemma QuotientIs(a: nat, d: nat, q: nat)
    requires d > 0 && q * d <= a < (q + 1) * d
    ensures a / d == q
  {
    var e := a / d;
    assert e * d <= a < (e + 1) * d;
    if e < q {
      ProductGrows(e + 1, q, d);
    } else if q < e {
      ProductGrows(q + 1, e, d);
    }
  }

  lemma QuotientOfHalf(address: nat, half: nat)
    requires half > 0 && address < 2 * half
    ensures address / half == 0 || address / half == 1
    ensures address / (2 * half) == 0
  {
    QuotientIs(address, half, if address < half then 0 else 1);
    QuotientIs(address, 2 * half, 0);
  }

  lemma EnteredSame(family: int, prefix: Prefix, address: nat)
    requires prefix.Valid(family) && address < Pow2(Width(family))
    ensures InAny(Entered(family, prefix), family, address) <==> prefix.Contains(family, address)
  {
    if prefix.bits == 0 {
      HalvesCoverAll(family, address);
      assert Pow2(Width(family)) == 2 * Pow2(Width(family) - 1);
      QuotientOfHalf(prefix.base, Pow2(Width(family) - 1));
      QuotientOfHalf(address, Pow2(Width(family) - 1));
      assert LowerHalf() in Entered(family, prefix) && UpperHalf(family) in Entered(family, prefix);
    } else {
      assert prefix in Entered(family, prefix);
    }
  }

  predicate ValidBlocked(blocked: seq<Blocked>) {
    forall i :: 0 <= i < |blocked| ==> blocked[i].prefix.Valid(blocked[i].family)
  }

  /** The entered prefixes match the addresses the plan blocks, and none of them is a /0. */
  lemma {:induction false} IpsetPrefixesSame(plan: SourcePlan, family: int, address: nat)
    requires ValidBlocked(plan.blocked) && address < Pow2(Width(family))
    ensures InAny(IpsetPrefixes(plan.blocked, family), family, address) <==> PlanBlocks(plan, family, address)
    ensures forall p :: p in IpsetPrefixes(plan.blocked, family) ==> p.bits > 0
    decreases |plan.blocked|
  {
    if plan.blocked == [] {
    } else {
      var n := |plan.blocked| - 1;
      var front, last := plan.(blocked := plan.blocked[..n]), plan.blocked[n];
      IpsetPrefixesSame(front, family, address);
      assert forall i :: 0 <= i < n ==> front.blocked[i] == plan.blocked[i];
      if last.family == family {
        EnteredSame(family, last.prefix, address);
      }
    }
  }

  // ---------------------------------------------------------------- sets, chains, packets

  /** Set names carry a digest of their content; `temporary` is the name used to build a replacement. */
  datatype SetName = Own(prefixes: set<Prefix>, family: int, temporary: bool) | Other(name: string)

  datatype Content = Content(family: int, prefixes: set<Prefix>, expires: bool)

  function Nominal(name: SetName): Content
    requires name.Own?
  {
    Content(name.family, name.prefixes, false)
  }

  datatype DropRule = DropRule(address: string, protocol: string, ports: Range, blockedBy: SetName)

  /** This instance's chain: its drop rules in order, and how INPUT refers to it. */
  datatype Chain = Chain(present: bool, rules: seq<DropRule>, jumps: nat, first: bool)

  const NoChain: Chain := Chain(false, [], 0, false)

  datatype Kernel = Kernel(sets: map<SetName, Content>, chain4: Chain, chain6: Chain) {
    function ChainOf(family: int): Chain { if family == 4 then chain4 else chain6 }

    function WithChain(family: int, chain: Chain): Kernel {
      if family == 4 then this.(chain4 := chain) else this.(chain6 := chain)
    }
  }

  datatype Packet = Packet(family: int, address: string, protocol: string, port: int, source: nat)

  predicate Matches(rule: DropRule, packet: Packet) {
    && (rule.address == "" || rule.address == packet.address) && rule.protocol == packet.protocol
    && rule.ports.Contains(packet.port)
  }

  predicate InSet(sets: map<SetName, Content>, name: SetName, packet: Packet) {
    name in sets && sets[name].family == packet.family && InAny(sets[name].prefixes, packet.family, packet.source)
  }

  predicate Dropped(k: Kernel, packet: Packet) {
    var chain := k.ChainOf(packet.family);
    chain.jumps > 0 && exists i ::
      0 <= i < |chain.rules| && Matches(chain.rules[i], packet) && InSet(k.sets, chain.rules[i].blockedBy, packet)
  }

  /** Dropped, and still dropped if every set held just what its name says. */
  predicate DroppedAsNamed(k: Kernel, packet: Packet) {
    var chain := k.ChainOf(packet.family);
    chain.jumps > 0 && exists i ::
      && 0 <= i < |chain.rules| && Matches(chain.rules[i], packet) && InSet(k.sets, chain.rules[i].blockedBy, packet)
      && chain.rules[i].blockedBy.Own? && chain.rules[i].blockedBy.family == packet.family
      && InAny(chain.rules[i].blockedBy.prefixes, packet.family, packet.source)
  }

  /** What the plans ask to drop. */
  predicate PlansDrop(plans: seq<SourcePlan>, packet: Packet) {
    exists i, j :: 0 <= i < |plans| && 0 <= j < |plans[i].listeners|
                   && ListenerDrops(plans[i], plans[i].listeners[j], packet)
  }

  predicate ListenerDrops(plan: SourcePlan, listener: Rule, packet: Packet) {
    && listener.family == packet.family && (listener.address == "" || listener.address == packet.address)
    && listener.protocol == packet.protocol && listener.ports.Contains(packet.port)
    && PlanBlocks(plan, packet.family, packet.source)
  }

  // ---------------------------------------------------------------- the rules a set of plans needs

  function ListenerRules(listeners: seq<Rule>, family: int, name: SetName): seq<DropRule> {
    if listeners == [] then []
    else
      var last := listeners[|listeners| - 1];
      ListenerRules(listeners[..|listeners| - 1], family, name) +
      (if last.family == family then [DropRule(last.address, last.protocol, last.ports, name)] else [])
  }

  function SetOf(plan: SourcePlan, family: int): SetName {
    Own(IpsetPrefixes(plan.blocked, family), family, false)
  }

  function PlanRules(plan: SourcePlan, family: int): seq<DropRule> {
    if IpsetPrefixes(plan.blocked, family) == {} then [] else ListenerRules(plan.listeners, family, SetOf(plan, family))
  }

  function SourceRules(plans: seq<SourcePlan>, family: int): seq<DropRule> {
    if plans == [] then [] else SourceRules(plans[..|plans| - 1], family) + PlanRules(plans[|plans| - 1], family)
  }

  /** The chain that serves the plans. */
  function WantedChain(plans: seq<SourcePlan>, family: int): Chain {
    if plans == [] then NoChain else Chain(true, SourceRules(plans, family), 1, true)
  }

  predicate Desired(plans: seq<SourcePlan>, name: SetName) {
    exists i :: 0 <= i < |plans| && IsSetOf(plans[i], name)
  }

  predicate IsSetOf(plan: SourcePlan, name: SetName) {
    || (name == SetOf(plan, 4) && name.prefixes != {})
    || (name == SetOf(plan, 6) && name.prefixes != {})
  }

  lemma {:induction false} ListenerRulesAre(listeners: seq<Rule>, family: int, name: SetName, rule: DropRule)
    ensures rule in ListenerRules(listeners, family, name) <==>
            exists j :: 0 <= j < |listeners| && listeners[j].family == family &&
                        rule == DropRule(listeners[j].address, listeners[j].protocol, listeners[j].ports, name)
  {
    if listeners == [] {
    } else {
      var n := |listeners| - 1;
      ListenerRulesAre(listeners[..n], family, name, rule);
      assert forall j :: 0 <= j < n ==> listeners[..n][j] == listeners[j];
    }
  }

  lemma {:induction false} SourceRulesAre(plans: seq<SourcePlan>, family: int, rule: DropRule)
    ensures rule in SourceRules(plans, family) <==> exists i :: 0 <= i < |plans| && rule in PlanRules(plans[i], family)
  {
    if plans == [] {
    } else {
      var n := |plans| - 1;
      SourceRulesAre(plans[..n], family, rule);
      assert forall i :: 0 <= i < n ==> plans[..n][i] == plans[i];
    }
  }

  /** The rules wanted name only the sets wanted. */
  lemma RulesNameDesired(plans: seq<SourcePlan>, family: int, rule: DropRule)
    requires rule in SourceRules(plans, family) && (family == 4 || family == 6)
    ensures Desired(plans, rule.blockedBy) && rule.blockedBy.Own? && rule.blockedBy.family == family
            && !rule.blockedBy.temporary
  {
    SourceRulesAre(plans, family, rule);
    var i :| 0 <= i < |plans| && rule in PlanRules(plans[i], family);
    ListenerRulesAre(plans[i].listeners, family, SetOf(plans[i], family), rule);
    assert IsSetOf(plans[i], rule.blockedBy);
  }

  predicate ValidPlans(plans: seq<SourcePlan>) {
    forall i :: 0 <= i < |plans| ==> ValidBlocked(plans[i].blocked)
  }

  predicate AllNominal(plans: seq<SourcePlan>, sets: map<SetName, Content>) {
    forall name :: name in sets && Desired(plans, name) ==> sets[name] == Nominal(name)
  }

  predicate AllPresent(plans: seq<SourcePlan>, sets: map<SetName, Content>) {
    forall i, family :: 0 <= i < |plans| && family in {4, 6} && SetOf(plans[i], family).prefixes != {} ==>
              SetOf(plans[i], family) in sets
  }

  lemma PlanRuleDrops(plan: SourcePlan, listener: Rule, k: Kernel, packet: Packet) returns (rule: DropRule)
    requires ListenerDrops(plan, listener, packet) && listener in plan.listeners
    requires ValidBlocked(plan.blocked) && packet.source < Pow2(Width(packet.family)) && packet.family in {4, 6}
    requires SetOf(plan, packet.family).prefixes != {} ==>
               SetOf(plan, packet.family) in k.sets
               && k.sets[SetOf(plan, packet.family)] == Nominal(SetOf(plan, packet.family))
    ensures rule in PlanRules(plan, packet.family) && Matches(rule, packet) && InSet(k.sets, rule.blockedBy, packet)
  {
    IpsetPrefixesSame(plan, packet.family, packet.source);
    rule := DropRule(listener.address, listener.protocol, listener.ports, SetOf(plan, packet.family));
    var j :| 0 <= j < |plan.listeners| && plan.listeners[j] == listener;
    ListenerRulesAre(plan.listeners, packet.family, SetOf(plan, packet.family), rule);
  }

  /**
   Once a family's chain is the wanted one and the sets hold what their names say, what the plans ask for is dropped.
   */
  lemma WantedChainDrops(plans: seq<SourcePlan>, k: Kernel, packet: Packet)
    requires ValidPlans(plans) && packet.source < Pow2(Width(packet.family)) && packet.family in {4, 6}
    requires k.ChainOf(packet.family) == WantedChain(plans, packet.family)
    requires AllNominal(plans, k.sets) && AllPresent(plans, k.sets) && PlansDrop(plans, packet)
    ensures Dropped(k, packet)
  {
    var i, j :| 0 <= i < |plans| && 0 <= j < |plans[i].listeners|
    && ListenerDrops(plans[i], plans[i].listeners[j], packet);
    if SetOf(plans[i], packet.family).prefixes != {} {
      assert IsSetOf(plans[i], SetOf(plans[i], packet.family));
    }
    var rule := PlanRuleDrops(plans[i], plans[i].listeners[j], k, packet);
    SourceRulesAre(plans, packet.family, rule);
    var chain := k.ChainOf(packet.family);
    var r :| 0 <= r < |chain.rules| && chain.rules[r] == rule;
  }

  /** And nothing else is. */
  lemma WantedChainDropsOnly(plans: seq<SourcePlan>, k: Kernel, packet: Packet)
    requires ValidPlans(plans) && packet.source < Pow2(Width(packet.family)) && packet.family in {4, 6}
    requires k.ChainOf(packet.family) == WantedChain(plans, packet.family)
    requires AllNominal(plans, k.sets) && Dropped(k, packet)
    ensures PlansDrop(plans, packet)
  {
    var chain := k.ChainOf(packet.family);
    var r :| 0 <= r < |chain.rules| && Matches(chain.rules[r], packet)
    && InSet(k.sets, chain.rules[r].blockedBy, packet);
    var rule := chain.rules[r];
    RulesNameDesired(plans, packet.family, rule);
    SourceRulesAre(plans, packet.family, rule);
    var i :| 0 <= i < |plans| && rule in PlanRules(plans[i], packet.family);
    ListenerRulesAre(plans[i].listeners, packet.family, SetOf(plans[i], packet.family), rule);
    var j :| 0 <= j < |plans[i].listeners| && plans[i].listeners[j].family == packet.family &&
             rule == DropRule(plans[i].listeners[j].address, plans[i].listeners[j].protocol,
                              plans[i].listeners[j].ports, SetOf(plans[i], packet.family));
    IpsetPrefixesSame(plans[i], packet.family, packet.source);
    assert ListenerDrops(plans[i], plans[i].listeners[j], packet);
  }
}
