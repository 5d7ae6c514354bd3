/** One synchronisation with UFW: every check first, then the rules wanted, then the ones no longer wanted. */
module UfwApply {
  import opened Common
  import opened PortSet
  import opened FirewallPlan
  import opened UfwStore
  import opened UfwManual
  import opened UfwRecords
  import opened UfwBackend

  datatype Status = Missing | Unreadable | Inactive | Active

  /**
   `managed` says that the rules come from plans; `wantsUfw` and `explicit` that the backend setting admits or names
   UFW.
   */
  datatype Request = Request(allows: seq<Rule>, redirects: seq<Rule>, enabled: bool, managed: bool, wantsUfw: bool,
                             explicit: bool, forwards: bool, recovering: bool, protected: seq<Rule>)

  datatype Outcome = Done | Refused(pending: bool) | Failed

  predicate ValidRule(rule: Rule) {
    && (rule.family == 4 || rule.family == 6) && rule.ports.Valid()
    && (rule.protocol == "tcp" || rule.protocol == "udp")
    && 0 <= rule.target <= 65535 && (rule.target != 0 ==> rule.protocol == "udp" && rule.source == "")
  }

  predicate OverlapsAny(rule: Rule, others: seq<Rule>) {
    exists i :: 0 <= i < |others| && Overlaps(rule, others[i])
  }

  /** A rule is kept while nodes are still being recovered, or while a node awaiting confirmation uses its ports. */
  predicate KeepsOwned(request: Request, rule: Rule) {
    request.recovering || exists i :: 0 <= i < |request.protected| && Overlaps(request.protected[i], rule)
  }

  /** Kept, unless a manual restriction has taken over some of its ports. */
  predicate Kept(request: Request, manual: seq<Rule>, rule: Rule) {
    KeepsOwned(request, rule) && !OverlapsAny(rule, manual)
  }

  function OwnRules(me: string, store: seq<Entry>): set<Rule> {
    set e | e in store && IsOwn(me, e) :: e.rule
  }

  lemma OwnRulesHave(me: string, store: seq<Entry>)
    ensures forall rule :: rule in OwnRules(me, store) <==> HasOwn(me, store, rule)
  {
    forall rule | HasOwn(me, store, rule) ensures rule in OwnRules(me, store) {
      var e :| e in store && Exact(e, rule) && OwnsComment(me, rule, e.comment);
      assert IsOwn(me, e);
    }
    forall rule | rule in OwnRules(me, store) ensures HasOwn(me, store, rule) {
      var e :| e in store && IsOwn(me, e) && e.rule == rule;
      assert Exact(e, rule);
    }
  }

  // ---------------------------------------------------------------- source-scoped rules

  predicate HasSources(rules: seq<Rule>) {
    exists i :: 0 <= i < |rules| && rules[i].source != ""
  }

  /** The ports an older rule shares with a source-scoped one stay within sources that are confirmed now. */
  predicate SourceConfirmed(owned: Rule, wanted: Rule, allows: seq<Rule>) {
    && owned.source != ""
    && exists i :: 0 <= i < |allows| &&
         allows[i].source == owned.source && allows[i].family == owned.family && allows[i].protocol == owned.protocol &&
         (allows[i].address == "" || allows[i].address == owned.address) &&
         allows[i].ports.from <= Max(owned.ports.from, wanted.ports.from) &&
         allows[i].ports.to >= Min(owned.ports.to, wanted.ports.to)
  }

  predicate TooWide(owned: Rule, wanted: Rule, allows: seq<Rule>) {
    && wanted.source != "" && owned.protocol == wanted.protocol && owned.ports.Overlaps(wanted.ports)
    && (owned.family != wanted.family || Overlaps(owned, wanted)) && !SourceConfirmed(owned, wanted, allows)
  }

  /** A kept rule would let in more than a source-scoped rule admits. */
  predicate KeepsTooMuch(request: Request, owned: seq<OwnedRule>, allows: seq<Rule>) {
    exists i, j :: 0 <= i < |owned| && 0 <= j < |allows| && KeepsOwned(request, owned[i].rule)
                   && TooWide(owned[i].rule, allows[j], allows)
  }

  method CheckKept(request: Request, owned: seq<OwnedRule>, allows: seq<Rule>) returns (found: bool)
    ensures found == KeepsTooMuch(request, owned, allows)
  {
    for i := 0 to |owned|
      invariant forall k, j :: 0 <= k < i && 0 <= j < |allows| ==>
                  !(KeepsOwned(request, owned[k].rule) && TooWide(owned[k].rule, allows[j], allows))
    {
      if KeepsOwned(request, owned[i].rule) {
        for j := 0 to |allows|
          invariant forall l :: 0 <= l < j ==> !TooWide(owned[i].rule, allows[l], allows)
        {
          if TooWide(owned[i].rule, allows[j], allows) {
            return true;
          }
        }
      }
    }
    return false;
  }

  /** An entry on the ports of a source-scoped rule that is not an unprioritised one of this instance's own. */
  predicate Intrudes(me: string, owned: seq<OwnedRule>, e: Entry, wanted: Rule) {
    wanted.source != "" && Overlaps(wanted, e.rule) && !(IsOwn(me, e) && OwnedRule(e.rule, false) in owned)
  }

  predicate SourceConflict(me: string, owned: seq<OwnedRule>, existing: seq<Entry>, wanted: seq<Rule>) {
    exists i, j :: 0 <= i < |wanted| && 0 <= j < |existing| && Intrudes(me, owned, existing[j], wanted[i])
  }

  method CheckSources(me: string, owned: seq<OwnedRule>, existing: seq<Entry>, wanted: seq<Rule>) returns (found: bool)
    ensures found == SourceConflict(me, owned, existing, wanted)
  {
    for i := 0 to |wanted|
      invariant forall k, j :: 0 <= k < i && 0 <= j < |existing| ==> !Intrudes(me, owned, existing[j], wanted[k])
    {
      for j := 0 to |existing|
        invariant forall l :: 0 <= l < j ==> !Intrudes(me, owned, existing[l], wanted[i])
      {
        if Intrudes(me, owned, existing[j], wanted[i]) {
          return true;
        }
      }
    }
    return false;
  }

  /** Forwarding rewrites the port the rules see, so neither the outer ports nor the target may be restricted. */
  predicate RedirectRestricted(redirect: Rule, existing: seq<Entry>) {
    || !Unblocked(existing, redirect.Opened(), |existing|)
    || !Unblocked(existing, redirect.Opened().(ports := Range(redirect.target, redirect.target)), |existing|)
  }

  predicate RedirectsRestricted(redirects: seq<Rule>, existing: seq<Entry>) {
    exists i :: 0 <= i < |redirects| && RedirectRestricted(redirects[i], existing)
  }

  method CheckRedirects(redirects: seq<Rule>, existing: seq<Entry>) returns (found: bool)
    ensures found == RedirectsRestricted(redirects, existing)
  {
    for i := 0 to |redirects|
      invariant forall k :: 0 <= k < i ==> !RedirectRestricted(redirects[k], existing)
    {
      var outer := redirects[i].Opened();
      var target := outer.(ports := Range(redirects[i].target, redirects[i].target));
      found := AnyBlocks([outer, target], existing);
      assert [outer, target][0] == outer && [outer, target][1] == target;
      assert found == RedirectRestricted(redirects[i], existing);
      if found {
        return;
      }
    }
    return false;
  }

  /** What a kept rule that manual restrictions have cut into still opens. */
  predicate RetainedBy(request: Request, rule: Rule, existing: seq<Entry>, manual: seq<Rule>, scope: Rule, port: int) {
    && KeepsOwned(request, rule) && OverlapsAny(rule, manual)
    && rule.Scope() == scope && rule.ports.Contains(port) && !Restricted(existing, rule, port)
  }

  predicate Retained(request: Request, owned: seq<OwnedRule>, existing: seq<Entry>, manual: seq<Rule>, scope: Rule,
                     port: int) {
    exists i :: 0 <= i < |owned| && RetainedBy(request, owned[i].rule, existing, manual, scope, port)
  }

  /**
   The ports to open: all that the plans ask for, or those no manual restriction keeps to itself and what kept rules
   retain.
   */
  predicate Selects(request: Request, allows: seq<Rule>, owned: seq<OwnedRule>, existing: seq<Entry>, manual: seq<Rule>,
                    scope: Rule, port: int) {
    || (if request.managed then Opens(allows, scope, port) else Wanted(allows, existing, scope, port, false))
    || Retained(request, owned, existing, manual, scope, port)
  }

  ghost predicate IsSelection(request: Request, allows: seq<Rule>, owned: seq<OwnedRule>, existing: seq<Entry>,
                              wanted: seq<Rule>,
                              manual: seq<Rule>, rank: Rule -> int) {
    && IsMerge((scope, port) => Selects(request, allows, owned, existing, manual, scope, port), wanted, rank)
    && (request.managed ==> manual == [])
    && (!request.managed ==> forall scope, port :: Opens(manual, scope, port) <==>
          Wanted(allows, existing, scope, port, true))
  }

  lemma RetainedNext(request: Request, owned: seq<OwnedRule>, existing: seq<Entry>, manual: seq<Rule>, i: nat,
                     scope: Rule, port: int)
    requires i < |owned|
    ensures Retained(request, owned[..i + 1], existing, manual, scope, port)
       <==> || Retained(request, owned[..i], existing, manual, scope, port)
            || RetainedBy(request, owned[i].rule, existing, manual, scope, port)
  {
    var front, grown := owned[..i], owned[..i + 1];
    assert grown[i] == owned[i] && forall k :: 0 <= k < i ==> grown[k] == front[k];
  }

  /** What one kept rule retains, none for the others. */
  method Retain(request: Request, rule: Rule, existing: seq<Entry>, manual: seq<Rule>) returns (retained: seq<Rule>)
    requires SolidEntries(existing) && rule.ports.NonEmpty()
    ensures SolidRules(retained)
    ensures forall scope, port :: Opens(retained, scope, port) <==>
              RetainedBy(request, rule, existing, manual, scope, port)
  {
    retained := [];
    if KeepsOwned(request, rule) && OverlapsAny(rule, manual) {
      var cut;
      retained, cut := SplitManagedAllows([rule], existing);
      forall scope, port
        ensures Wanted([rule], existing, scope, port, false)
           <==> rule.Scope() == scope && rule.ports.Contains(port) && !Restricted(existing, rule, port)
      {
        assert [rule][0] == rule;
      }
    }
  }

  /** The rules to open through UFW, and the parts manual restrictions keep to themselves. */
  method SelectRules(request: Request, allows: seq<Rule>, owned: seq<OwnedRule>, existing: seq<Entry>,
                     rank: Rule -> int)
    returns (wanted: seq<Rule>, manual: seq<Rule>)
    requires SolidRules(allows) && SolidEntries(existing) && Injective(rank)
    requires forall i :: 0 <= i < |owned| ==> owned[i].rule.ports.NonEmpty()
    ensures SolidRules(wanted) && Ascending(wanted, rank)
    ensures IsSelection(request, allows, owned, existing, wanted, manual, rank)
  {
    var chosen := allows;
    manual := [];
    if !request.managed {
      chosen, manual := SplitManagedAllows(allows, existing);
    }
    for i := 0 to |owned|
      invariant SolidRules(chosen)
      invariant forall scope, port :: Opens(chosen, scope, port) <==>
                Selects(request, allows, owned[..i], existing, manual, scope, port)
    {
      var retained := Retain(request, owned[i].rule, existing, manual);
      forall scope, port
        ensures Opens(chosen + retained, scope, port) <==>
                  Selects(request, allows, owned[..i + 1], existing, manual, scope, port)
      {
        OpensConcat(chosen, retained, scope, port);
        RetainedNext(request, owned, existing, manual, i, scope, port);
      }
      chosen := chosen + retained;
    }
    assert owned[..|owned|] == owned;
    wanted := MergeRules(chosen, rank);
    MergedUnion(chosen, (scope, port) => Selects(request, allows, owned, existing, manual, scope, port), wanted, rank);
    forall i | 0 <= i < |wanted| ensures wanted[i].ports.NonEmpty() {
      assert wanted[i] in wanted;
    }
  }

  // ---------------------------------------------------------------- opening and withdrawing

  /** This instance's entries for the rules outside `rules`, and everybody else's, are where they were. */
  ghost predicate OutsideSame(me: string, was: seq<Entry>, now: seq<Entry>, rules: seq<Rule>) {
    && Foreign(me, now) == Foreign(me, was)
    && forall rule :: rule !in rules ==> Relevant(me, now, rule) == Relevant(me, was, rule)
  }

  lemma OutsideNext(me: string, a: seq<Entry>, b: seq<Entry>, c: seq<Entry>, rules: seq<Rule>, rule: Rule,
                    more: seq<Rule>)
    requires OutsideSame(me, a, b, rules) && OnlyTouches(me, b, c, rule)
    requires forall r :: r in more <==> r in rules || r == rule
    ensures OutsideSame(me, a, c, more)
  {
  }

  ghost predicate AllSettled(b: Backend, rules: seq<Rule>)
    reads b
  {
    forall i :: 0 <= i < |rules| ==> Settled(b.me, b.store, rules[i], b.Desired(rules[i]))
  }

  /** Records of the rules handled so far are the ones asked for; the others are as they were. */
  predicate RecordsFollow(was: seq<OwnedRule>, now: seq<OwnedRule>, rules: seq<Rule>, managed: bool) {
    && (forall o :: o in now ==> if o.rule in rules then o.managed == managed else o in was)
    && (forall o :: o in was && o.rule !in rules ==> o in now)
  }

  lemma RecordsNext(was: seq<OwnedRule>, mid: seq<OwnedRule>, now: seq<OwnedRule>, rules: seq<Rule>, rule: Rule,
                    managed: bool, more: seq<Rule>)
    requires RecordsFollow(was, mid, rules, managed) && OnlyRecord(mid, now, OwnedRule(rule, managed), true)
    requires forall r :: r in more <==> r in rules || r == rule
    ensures RecordsFollow(was, now, more, managed)
  {
  }

  lemma SettledNext(me: string, was: seq<Entry>, now: seq<Entry>, rule: Rule, touched: Rule, comment: Comment)
    requires Settled(me, was, rule, comment) && OnlyTouches(me, was, now, touched) && rule != touched
    ensures Settled(me, now, rule, comment)
  {
    SettledView(me, was, now, rule, comment);
  }

  /** The rules up to position `i` are open and on record. */
  ghost predicate Opened(b: Backend, existing: seq<Entry>, was: seq<OwnedRule>, wanted: seq<Rule>, managed: bool)
    reads b
  {
    OutsideSame(b.me, existing, b.store, wanted) && RecordsFollow(was, b.owned, wanted, managed)
    && AllSettled(b, wanted)
  }

  /** What holds for the rules before still holds once one more rule is settled and on record. */
  lemma OpenedNext(b: Backend, existing: seq<Entry>, was: seq<OwnedRule>, wanted: seq<Rule>, managed: bool, i: nat,
                   store: seq<Entry>, owned: seq<OwnedRule>)
    requires i < |wanted| && wanted[i] !in wanted[..i]
    requires OutsideSame(b.me, existing, store, wanted[..i]) && RecordsFollow(was, owned, wanted[..i], managed)
    requires forall k :: 0 <= k < i ==> Settled(b.me, store, wanted[k], b.Desired(wanted[k]))
    requires OnlyTouches(b.me, store, b.store, wanted[i])
    requires OnlyRecord(owned, b.owned, OwnedRule(wanted[i], managed), true)
    requires Settled(b.me, b.store, wanted[i], b.Desired(wanted[i]))
    ensures Opened(b, existing, was, wanted[..i + 1], managed)
  {
    var rule, more := wanted[i], wanted[..i + 1];
    assert more == wanted[..i] + [rule];
    OutsideNext(b.me, existing, store, b.store, wanted[..i], rule, more);
    RecordsNext(was, owned, b.owned, wanted[..i], rule, managed, more);
    forall k | 0 <= k < |more| ensures Settled(b.me, b.store, more[k], b.Desired(more[k])) {
      if k < i {
        assert wanted[..i][k] == wanted[k];
        SettledNext(b.me, store, b.store, wanted[k], rule, b.Desired(wanted[k]));
      }
    }
  }

  method EnsureNext(b: Backend, wanted: seq<Rule>, managed: bool, existing: seq<Entry>, i: nat,
                    ghost was: seq<OwnedRule>)
    returns (ok: bool)
    requires b.Valid() && Distinct(existing) && i < |wanted| && wanted[i].ports.NonEmpty() && wanted[i] !in wanted[..i]
    requires Opened(b, existing, was, wanted[..i], managed)
    modifies b
    ensures b.Valid() && old(b.trace) <= b.trace && Foreign(b.me, b.store) == Foreign(b.me, existing)
    ensures ok ==> Opened(b, existing, was, wanted[..i + 1], managed)
  {
    ghost var store, owned := b.store, b.owned;
    assert forall k :: 0 <= k < i ==> wanted[..i][k] == wanted[k];
    if managed {
      ok := b.EnsureManaged(OwnedRule(wanted[i], true), existing);
    } else {
      ok := b.EnsureAppended(OwnedRule(wanted[i], false), existing);
    }
    if ok {
      OpenedNext(b, existing, was, wanted, managed, i, store, owned);
    }
  }

  method EnsureAll(b: Backend, wanted: seq<Rule>, managed: bool, existing: seq<Entry>) returns (ok: bool)
    requires b.Valid() && existing == b.store && SolidRules(wanted)
    requires forall i, j :: 0 <= i < j < |wanted| ==> wanted[i] != wanted[j]
    modifies b
    ensures b.Valid() && old(b.trace) <= b.trace && Foreign(b.me, b.store) == Foreign(b.me, existing)
    ensures ok ==> Opened(b, existing, old(b.owned), wanted, managed)
  {
    ghost var was := b.owned;
    assert wanted[..0] == [];
    for i := 0 to |wanted|
      invariant b.Valid() && old(b.trace) <= b.trace
      invariant Opened(b, existing, was, wanted[..i], managed)
    {
      ok := EnsureNext(b, wanted, managed, existing, i, was);
      if !ok {
        return;
      }
    }
    assert wanted[..|wanted|] == wanted;
    return true;
  }

  predicate Stale(request: Request, wanted: seq<Rule>, manual: seq<Rule>, rule: Rule) {
    rule !in wanted && !Kept(request, manual, rule)
  }

  /** Rules that are stale and were handled may have lost their entries; nothing else changed. */
  ghost predicate OnlyStaleLost(me: string, request: Request, wanted: seq<Rule>, manual: seq<Rule>,
                                was: seq<Entry>, now: seq<Entry>, handled: seq<OwnedRule>) {
    && Foreign(me, now) == Foreign(me, was)
    && forall rule :: !Stale(request, wanted, manual, rule) || !HasRecord(handled, rule) ==>
                        Relevant(me, now, rule) == Relevant(me, was, rule)
  }

  lemma RecordedRulesOnly(b: Backend, request: Request, wanted: seq<Rule>, manual: seq<Rule>, copy: seq<OwnedRule>)
    requires b.Valid() && forall o :: o in b.owned ==> o in copy
    requires forall j :: 0 <= j < |copy| && Stale(request, wanted, manual, copy[j].rule) ==>
              !HasRecord(b.owned, copy[j].rule)
    ensures forall rule :: HasOwn(b.me, b.store, rule) ==> !Stale(request, wanted, manual, rule)
  {
    forall rule | HasOwn(b.me, b.store, rule) ensures !Stale(request, wanted, manual, rule) {
      var e :| e in b.store && Exact(e, rule) && OwnsComment(b.me, rule, e.comment);
      assert IsOwn(b.me, e) && HasRecord(b.owned, rule);
      var o :| o in b.owned && o.rule == rule;
      var j :| 0 <= j < |copy| && copy[j] == o;
    }
  }

  /** The sweep over the records has got to position `i`. */
  ghost predicate Swept(request: Request, wanted: seq<Rule>, manual: seq<Rule>, copy: seq<OwnedRule>,
                        now: seq<OwnedRule>, i: nat)
    requires i <= |copy|
  {
    && (forall o :: o in now ==> o in copy)
    && (forall j :: 0 <= j < i && Stale(request, wanted, manual, copy[j].rule) ==> !HasRecord(now, copy[j].rule))
  }

  lemma SweptNext(request: Request, wanted: seq<Rule>, manual: seq<Rule>, copy: seq<OwnedRule>, was: seq<OwnedRule>,
                  i: nat)
    requires i < |copy| && Swept(request, wanted, manual, copy, was, i) && DistinctRecords(was)
    ensures Swept(request, wanted, manual, copy, Forgotten(was, copy[i].rule), i + 1)
  {
    ForgottenRecords(was, copy[i].rule);
    forall j | 0 <= j < i + 1 && Stale(request, wanted, manual, copy[j].rule)
      ensures !HasRecord(Forgotten(was, copy[i].rule), copy[j].rule)
    {
      assert j < i ==> !HasRecord(was, copy[j].rule);
    }
  }

  lemma StaleNext(me: string, request: Request, wanted: seq<Rule>, manual: seq<Rule>,
                  a: seq<Entry>, b: seq<Entry>, c: seq<Entry>, handled: seq<OwnedRule>, record: OwnedRule)
    requires OnlyStaleLost(me, request, wanted, manual, a, b, handled) && OnlyTouches(me, b, c, record.rule)
    requires Stale(request, wanted, manual, record.rule)
    ensures OnlyStaleLost(me, request, wanted, manual, a, c, handled + [record])
  {
    assert record in handled + [record] && forall o :: o in handled ==> o in handled + [record];
  }

  lemma StaleSkipped(me: string, request: Request, wanted: seq<Rule>, manual: seq<Rule>,
                     a: seq<Entry>, b: seq<Entry>, handled: seq<OwnedRule>, record: OwnedRule)
    requires OnlyStaleLost(me, request, wanted, manual, a, b, handled)
    ensures OnlyStaleLost(me, request, wanted, manual, a, b, handled + [record])
  {
    assert forall o :: o in handled ==> o in handled + [record];
  }

  lemma ViewOfStale(me: string, request: Request, wanted: seq<Rule>, manual: seq<Rule>, listed: seq<Entry>,
                    was: seq<Entry>, now: seq<Entry>, copy: seq<OwnedRule>, i: nat)
    requires i < |copy| && DistinctRecords(copy) && Stale(request, wanted, manual, copy[i].rule)
    requires Relevant(me, listed, copy[i].rule) == Relevant(me, was, copy[i].rule)
    requires OnlyStaleLost(me, request, wanted, manual, was, now, copy[..i])
    ensures Relevant(me, listed, copy[i].rule) == Relevant(me, now, copy[i].rule)
  {
    assert !HasRecord(copy[..i], copy[i].rule);
  }

  method SweepNext(b: Backend, request: Request, wanted: seq<Rule>, manual: seq<Rule>, listed: seq<Entry>,
                   ghost start: seq<Entry>, copy: seq<OwnedRule>, i: nat)
    returns (ok: bool)
    requires b.Valid() && i < |copy| && DistinctRecords(copy) && Distinct(listed)
    requires copy[i].rule in wanted ==> copy[i].managed == request.managed
    requires copy[i].rule !in wanted ==> Relevant(b.me, listed, copy[i].rule) == Relevant(b.me, start, copy[i].rule)
    requires OnlyStaleLost(b.me, request, wanted, manual, start, b.store, copy[..i])
             && Swept(request, wanted, manual, copy, b.owned, i)
    modifies b
    ensures b.Valid() && old(b.trace) <= b.trace && Foreign(b.me, b.store) == Foreign(b.me, start)
    ensures ok ==> OnlyStaleLost(b.me, request, wanted, manual, start, b.store, copy[..i + 1])
    ensures ok ==> Swept(request, wanted, manual, copy, b.owned, i + 1)
  {
    var record := copy[i];
    assert copy[..i + 1] == copy[..i] + [record];
    if (record.rule in wanted && record.managed == request.managed) || Kept(request, manual, record.rule) {
      StaleSkipped(b.me, request, wanted, manual, start, b.store, copy[..i], record);
      return true;
    }
    ViewOfStale(b.me, request, wanted, manual, listed, start, b.store, copy, i);
    SweptNext(request, wanted, manual, copy, b.owned, i);
    ok := b.Remove(record.rule, listed);
    StaleNext(b.me, request, wanted, manual, start, old(b.store), b.store, copy[..i], record);
  }

  /** Takes out what is on record and no longer wanted nor kept. */
  method RemoveStale(b: Backend, request: Request, wanted: seq<Rule>, manual: seq<Rule>, listed: seq<Entry>)
    returns (ok: bool)
    requires b.Valid() && Distinct(listed)
    requires forall o :: o in b.owned && o.rule in wanted ==> o.managed == request.managed
    requires forall o :: o in b.owned && o.rule !in wanted ==>
              Relevant(b.me, listed, o.rule) == Relevant(b.me, b.store, o.rule)
    modifies b
    ensures b.Valid() && old(b.trace) <= b.trace && Foreign(b.me, b.store) == old(Foreign(b.me, b.store))
    ensures ok ==> forall rule :: HasOwn(b.me, b.store, rule) ==> !Stale(request, wanted, manual, rule)
    ensures ok ==> forall rule :: !Stale(request, wanted, manual, rule) ==>
              Relevant(b.me, b.store, rule) == old(Relevant(b.me, b.store, rule))
    ensures ok ==> forall o :: o in b.owned ==> o in old(b.owned)
  {
    var copy := b.owned;
    ghost var start := b.store;
    for i := 0 to |copy|
      invariant b.Valid() && old(b.trace) <= b.trace
      invariant OnlyStaleLost(b.me, request, wanted, manual, start, b.store, copy[..i])
      invariant Swept(request, wanted, manual, copy, b.owned, i)
    {
      ok := SweepNext(b, request, wanted, manual, listed, start, copy, i);
      if !ok {
        return;
      }
    }
    RecordedRulesOnly(b, request, wanted, manual, copy);
    return true;
  }

  // ---------------------------------------------------------------- the whole synchronisation

  /** The rules this instance holds after a successful synchronisation. */
  function FinalRules(me: string, before: seq<Entry>, request: Request, wanted: seq<Rule>,
                      manual: seq<Rule>): set<Rule> {
    (set rule | rule in wanted && !HasManual(me, before, rule)) +
    (set rule | rule in OwnRules(me, before) && Kept(request, manual, rule))
  }

  lemma OwnIsRelevant(me: string, a: seq<Entry>, b: seq<Entry>, rule: Rule)
    requires Relevant(me, a, rule) == Relevant(me, b, rule)
    ensures HasOwn(me, a, rule) == HasOwn(me, b, rule)
  {
    assert forall e :: e in Relevant(me, a, rule) <==> e in Relevant(me, b, rule);
  }

  lemma HoldsFinalRule(me: string, before: seq<Entry>, mid: seq<Entry>, after: seq<Entry>, request: Request,
                       wanted: seq<Rule>, manual: seq<Rule>, rule: Rule, comment: Comment)
    requires Distinct(before) && Distinct(mid) && Distinct(after) && OwnsComment(me, rule, comment)
    requires OutsideSame(me, before, mid, wanted) && Foreign(me, after) == Foreign(me, mid)
    requires rule in wanted ==> Settled(me, mid, rule, comment)
    requires HasOwn(me, after, rule) ==> !Stale(request, wanted, manual, rule)
    requires !Stale(request, wanted, manual, rule) ==> Relevant(me, after, rule) == Relevant(me, mid, rule)
    ensures rule in wanted ==> Settled(me, after, rule, comment)
    ensures HasOwn(me, after, rule) <==>
            || (rule in wanted && !HasManual(me, before, rule))
            || (HasOwn(me, before, rule) && Kept(request, manual, rule))
  {
    ManualIsForeign(me, before, mid, rule);
    ManualIsForeign(me, mid, after, rule);
    if HasManual(me, before, rule) {
      ManualExcludesOwn(me, before, rule);
      ManualExcludesOwn(me, after, rule);
    }
    if !Stale(request, wanted, manual, rule) {
      OwnIsRelevant(me, mid, after, rule);
      if rule in wanted {
        SettledView(me, mid, after, rule, comment);
      } else {
        OwnIsRelevant(me, before, mid, rule);
      }
    }
  }

  ghost predicate WellSettled(b: Backend, before: seq<Entry>, request: Request, wanted: seq<Rule>, manual: seq<Rule>)
    reads b
  {
    OwnRules(b.me, b.store) == FinalRules(b.me, before, request, wanted, manual) && AllSettled(b, wanted)
  }

  /** Records are those of the rules wanted, with the priority asked for, or were there before. */
  predicate RecordsSettled(was: seq<OwnedRule>, now: seq<OwnedRule>, wanted: seq<Rule>, managed: bool) {
    forall o :: o in now ==> if o.rule in wanted then o.managed == managed else o in was
  }

  lemma ReachesFinalRules(b: Backend, before: seq<Entry>, mid: seq<Entry>, request: Request, wanted: seq<Rule>,
                          manual: seq<Rule>)
    requires b.Valid() && Distinct(before) && Distinct(mid)
    requires OutsideSame(b.me, before, mid, wanted) && Foreign(b.me, b.store) == Foreign(b.me, mid)
    requires forall i :: 0 <= i < |wanted| ==> Settled(b.me, mid, wanted[i], b.Desired(wanted[i]))
    requires forall rule :: HasOwn(b.me, b.store, rule) ==> !Stale(request, wanted, manual, rule)
    requires forall rule :: !Stale(request, wanted, manual, rule) ==>
              Relevant(b.me, b.store, rule) == Relevant(b.me, mid, rule)
    ensures WellSettled(b, before, request, wanted, manual)
  {
    OwnRulesHave(b.me, before);
    OwnRulesHave(b.me, b.store);
    forall rule
      ensures rule in wanted ==> Settled(b.me, b.store, rule, b.Desired(rule))
      ensures rule in OwnRules(b.me, b.store) <==> rule in FinalRules(b.me, before, request, wanted, manual)
    {
      HoldsFinalRule(b.me, before, mid, b.store, request, wanted, manual, rule, b.Desired(rule));
    }
  }

  predicate AllValid(rules: seq<Rule>) {
    forall i :: 0 <= i < |rules| ==> ValidRule(rules[i])
  }

  method CheckRules(rules: seq<Rule>) returns (ok: bool)
    ensures ok == AllValid(rules)
  {
    for i := 0 to |rules|
      invariant forall k :: 0 <= k < i ==> ValidRule(rules[k])
    {
      if !ValidRule(rules[i]) {
        return false;
      }
    }
    return true;
  }

  /** No rule for certain sources is opened where other rules could let everybody in. */
  predicate SourcesAreIsolated(me: string, owned: seq<OwnedRule>, existing: seq<Entry>, wanted: seq<Rule>,
                               denies: Option<bool>) {
    !SourceConflict(me, owned, existing, wanted) && (HasSources(wanted) ==> denies == Some(true))
  }

  /** UFW is needed, by the setting or for the rules on record, but cannot be asked. */
  predicate Unavailable(request: Request, owned: seq<OwnedRule>, status: Status) {
    || (status == Missing && (owned != [] || (request.wantsUfw && request.explicit)))
    || (status == Unreadable && (owned != [] || request.wantsUfw))
  }

  predicate UsesUfw(request: Request, status: Status) {
    status == Active && request.wantsUfw
  }

  /** Reasons to refuse that do not depend on which rules are chosen. */
  predicate CannotStart(request: Request, allows: seq<Rule>, redirects: seq<Rule>, owned: seq<OwnedRule>,
                        existing: seq<Entry>, status: Status) {
    || KeepsTooMuch(request, owned, allows)
    || Unavailable(request, owned, status)
    || (UsesUfw(request, status) && !request.managed && RedirectsRestricted(redirects, existing))
  }

  /**
   Every check that is made before the first write; `denies` is the default policy, if it can be read. The user is asked
   to confirm (`Some(true)`) rather than told of a failure exactly where the cause is an ambiguity.
   */
  method Check(b: Backend, request: Request, allows: seq<Rule>, redirects: seq<Rule>, status: Status,
               denies: Option<bool>, rank: Rule -> int)
    returns (refused: Option<bool>, wanted: seq<Rule>, manual: seq<Rule>, listed: seq<Entry>)
    requires b.Valid() && SolidEntries(b.store) && Injective(rank) && SolidRules(allows)
    requires forall i :: 0 <= i < |b.owned| ==> b.owned[i].rule.ports.NonEmpty()
    ensures refused.Some? <==>
              || CannotStart(request, allows, redirects, b.owned, b.store, status)
              || (UsesUfw(request, status) && !SourcesAreIsolated(b.me, b.owned, b.store, wanted, denies))
    ensures refused.Some? ==>
              (refused.value <==> KeepsTooMuch(request, b.owned, allows) ||
                                  (!CannotStart(request, allows, redirects, b.owned, b.store, status) && denies.Some?))
    ensures SolidRules(wanted) && Ascending(wanted, rank)
    ensures !CannotStart(request, allows, redirects, b.owned, b.store, status) && UsesUfw(request, status) ==>
              listed == b.store && IsSelection(request, allows, b.owned, b.store, wanted, manual, rank)
    ensures !UsesUfw(request, status) ==> wanted == [] && manual == []
    ensures refused.None? ==> listed == b.store || (b.owned == [] && wanted == [] && listed == [])
  {
    wanted, manual, listed := [], [], [];
    var tooMuch := CheckKept(request, b.owned, allows);
    if tooMuch {
      return Some(true), wanted, manual, listed;
    }
    var owns := b.owned != [];
    if !request.wantsUfw && !owns {
      return None, wanted, manual, listed;
    }
    if status == Missing {
      return if request.explicit || owns then Some(false) else None, wanted, manual, listed;
    }
    if status == Unreadable {
      return Some(false), wanted, manual, listed;
    }
    if status == Active || owns {
      listed := b.store;
    }
    if status == Active && request.wantsUfw {
      if !request.managed {
        var restricted := CheckRedirects(redirects, listed);
        if restricted {
          return Some(false), wanted, manual, listed;
        }
      }
      wanted, manual := SelectRules(request, allows, b.owned, listed, rank);
      if HasSources(wanted) && denies != Some(true) {
        assert denies.Some? ==> denies.value == false;
        return Some(denies == Some(false)), wanted, manual, listed;
      }
      var conflict := CheckSources(b.me, b.owned, listed, wanted);
      if conflict {
        ConflictHasSources(b.me, b.owned, listed, wanted);
        return Some(true), wanted, manual, listed;
      }
    }
    return None, wanted, manual, listed;
  }

  lemma ConflictHasSources(me: string, owned: seq<OwnedRule>, existing: seq<Entry>, wanted: seq<Rule>)
    requires SourceConflict(me, owned, existing, wanted)
    ensures HasSources(wanted)
  {
    var i, j :| 0 <= i < |wanted| && 0 <= j < |existing| && Intrudes(me, owned, existing[j], wanted[i]);
  }

  /** Switched off, the firewall is asked for nothing. */
  function Effective(request: Request, rules: seq<Rule>): seq<Rule> {
    if request.enabled then rules else []
  }

  /** Switched off, with nothing to withdraw. */
  predicate Idle(request: Request, owned: seq<OwnedRule>) {
    !request.enabled && owned == [] && !request.forwards
  }

  predicate Blocked(request: Request, owned: seq<OwnedRule>, existing: seq<Entry>, status: Status) {
    CannotStart(request, Effective(request, request.allows), Effective(request, request.redirects), owned, existing,
                status)
  }

  /**
   The whole synchronisation. Whatever fails, `Valid` still holds: after every single command every entry of this
   instance is on record in memory, and in the file unless its rule is lost.
   */
  method Apply(b: Backend, request: Request, status: Status, denies: Option<bool>, forwarded: bool, rank: Rule -> int)
    returns (outcome: Outcome, ghost wanted: seq<Rule>, ghost manual: seq<Rule>)
    requires b.Valid() && SolidEntries(b.store) && Injective(rank)
    requires forall i :: 0 <= i < |b.owned| ==> b.owned[i].rule.ports.NonEmpty()
    modifies b
    ensures b.Valid() && old(b.trace) <= b.trace && Foreign(b.me, b.store) == old(Foreign(b.me, b.store))
    ensures outcome.Refused? <==>
              || !AllValid(request.allows + request.redirects)
              || (!Idle(request, old(b.owned)) &&
                  (|| Blocked(request, old(b.owned), old(b.store), status)
                   || (UsesUfw(request, status)
                       && !SourcesAreIsolated(b.me, old(b.owned), old(b.store), wanted, denies))))
    ensures outcome.Refused? ==>
              b.store == old(b.store) && b.owned == old(b.owned) && b.durable == old(b.durable)
              && b.lost == old(b.lost) && b.trace == old(b.trace)
    ensures AllValid(request.allows + request.redirects) && !Idle(request, old(b.owned)) &&
            !Blocked(request, old(b.owned), old(b.store), status) && UsesUfw(request, status) ==>
              IsSelection(request, Effective(request, request.allows), old(b.owned), old(b.store), wanted, manual, rank)
    ensures Idle(request, old(b.owned)) || !UsesUfw(request, status) ==> wanted == [] && manual == []
    ensures SolidRules(wanted)
    ensures outcome.Done? ==> WellSettled(b, old(b.store), request, wanted, manual)
    ensures outcome.Done? ==> RecordsSettled(old(b.owned), b.owned, wanted, request.managed)
  {
    wanted, manual := [], [];
    var valid := CheckRules(request.allows + request.redirects);
    if !valid {
      return Refused(false), wanted, manual;
    }
    assert forall i :: 0 <= i < |request.allows| ==> (request.allows + request.redirects)[i] == request.allows[i];
    var allows, redirects := Effective(request, request.allows), Effective(request, request.redirects);
    if !request.enabled && b.owned == [] && !request.forwards {
      NothingHeld(b, request);
      return Done, wanted, manual;
    }
    var refused, chosen, left, listed := Check(b, request, allows, redirects, status, denies, rank);
    wanted, manual := chosen, left;
    if refused.Some? {
      return Refused(refused.value), wanted, manual;
    }
    var ok := Carry(b, request, chosen, left, listed, forwarded);
    return if ok then Done else Failed, wanted, manual;
  }

  /** What follows the checks: open, forward (`forwarded` says whether that succeeds), withdraw. */
  method Carry(b: Backend, request: Request, wanted: seq<Rule>, manual: seq<Rule>, listed: seq<Entry>, forwarded: bool)
    returns (ok: bool)
    requires b.Valid() && SolidRules(wanted) && Distinct(listed)
    requires forall i, j :: 0 <= i < j < |wanted| ==> wanted[i] != wanted[j]
    requires listed == b.store || (b.owned == [] && wanted == [])
    modifies b
    ensures b.Valid() && old(b.trace) <= b.trace && Foreign(b.me, b.store) == old(Foreign(b.me, b.store))
    ensures ok ==> WellSettled(b, old(b.store), request, wanted, manual)
    ensures ok ==> RecordsSettled(old(b.owned), b.owned, wanted, request.managed)
  {
    ghost var mid := b.store;
    if wanted != [] {
      ok := EnsureAll(b, wanted, request.managed, listed);
      if !ok {
        return;
      }
      mid := b.store;
    }
    if !forwarded {
      return false;
    }
    ok := RemoveStale(b, request, wanted, manual, listed);
    if ok {
      ReachesFinalRules(b, old(b.store), mid, request, wanted, manual);
    }
  }

  /** A rule for certain sources that is on record with priority is taken for an intruder. */
  lemma PrioritisedSourceIntrudes(me: string, owned: seq<OwnedRule>, store: seq<Entry>, wanted: seq<Rule>, rule: Rule)
    requires DistinctRecords(owned) && OwnedRule(rule, true) in owned && HasOwn(me, store, rule)
    requires rule in wanted && rule.source != "" && rule.ports.NonEmpty()
    ensures forall denies :: !SourcesAreIsolated(me, owned, store, wanted, denies)
  {
    var e :| e in store && Exact(e, rule) && OwnsComment(me, rule, e.comment);
    var i :| 0 <= i < |wanted| && wanted[i] == rule;
    var j :| 0 <= j < |store| && store[j] == e;
    var k :| 0 <= k < |owned| && owned[k] == OwnedRule(rule, true);
    assert OwnedRule(rule, false) !in owned;
    assert Intrudes(me, owned, store[j], wanted[i]);
  }

  /** No manual entry opens a rule for certain sources, or the synchronisation would have been refused. */
  lemma IsolatedHasNoManual(me: string, owned: seq<OwnedRule>, store: seq<Entry>, wanted: seq<Rule>,
                            denies: Option<bool>, rule: Rule)
    requires SourcesAreIsolated(me, owned, store, wanted, denies) && rule in wanted && rule.source != ""
             && rule.ports.NonEmpty()
    ensures !HasManual(me, store, rule)
  {
    var i :| 0 <= i < |wanted| && wanted[i] == rule;
    forall j | 0 <= j < |store| && Exact(store[j], rule) ensures OwnsComment(me, rule, store[j].comment) {
      assert !Intrudes(me, owned, store[j], wanted[i]);
    }
  }

  lemma StaysSolid(b: Backend, before: seq<Entry>, request: Request, wanted: seq<Rule>, manual: seq<Rule>)
    requires SolidEntries(before) && SolidRules(wanted) && WellSettled(b, before, request, wanted, manual)
    requires Foreign(b.me, b.store) == Foreign(b.me, before)
    ensures SolidEntries(b.store)
  {
    forall i | 0 <= i < |b.store| ensures b.store[i].rule.ports.NonEmpty() {
      var e := b.store[i];
      if IsOwn(b.me, e) {
        assert e.rule in OwnRules(b.me, b.store);
        assert e.rule in FinalRules(b.me, before, request, wanted, manual);
        if e.rule in OwnRules(b.me, before) {
          var o :| o in before && IsOwn(b.me, o) && o.rule == e.rule;
        } else {
          var k :| 0 <= k < |wanted| && wanted[k] == e.rule;
        }
      } else {
        assert e in Foreign(b.me, b.store) && e in Foreign(b.me, before) && e in before;
      }
    }
  }

  lemma RecordsStaySolid(was: seq<OwnedRule>, now: seq<OwnedRule>, wanted: seq<Rule>, managed: bool)
    requires RecordsSettled(was, now, wanted, managed) && SolidRules(wanted)
    requires forall i :: 0 <= i < |was| ==> was[i].rule.ports.NonEmpty()
    ensures forall i :: 0 <= i < |now| ==> now[i].rule.ports.NonEmpty()
  {
    forall i | 0 <= i < |now| ensures now[i].rule.ports.NonEmpty() {
      if now[i].rule in wanted {
        var k :| 0 <= k < |wanted| && wanted[k] == now[i].rule;
      } else {
        assert now[i] in was;
      }
    }
  }

  /** With plans, what is selected depends on the plans alone. */
  lemma SelectionRepeats(request: Request, allows: seq<Rule>, owned: seq<OwnedRule>, existing: seq<Entry>,
                         wanted: seq<Rule>,
                         manual: seq<Rule>, laterOwned: seq<OwnedRule>, later: seq<Entry>, again: seq<Rule>,
                         laterManual: seq<Rule>, rank: Rule -> int)
    requires request.managed && IsSelection(request, allows, owned, existing, wanted, manual, rank)
    requires IsSelection(request, allows, laterOwned, later, again, laterManual, rank)
    ensures wanted == again
  {
    MergeDependsOnPorts((scope, port) => Selects(request, allows, owned, existing, manual, scope, port),
                        (scope, port) => Selects(request, allows, laterOwned, later, laterManual, scope, port),
                        wanted, again, rank);
  }

  lemma SourceIntrudesNext(b: Backend, before: seq<Entry>, owned: seq<OwnedRule>, request: Request, wanted: seq<Rule>,
                           manual: seq<Rule>, denies: Option<bool>)
    requires b.Valid() && SolidRules(wanted) && HasSources(wanted) && WellSettled(b, before, request, wanted, manual)
    requires RecordsSettled(owned, b.owned, wanted, true) && SourcesAreIsolated(b.me, owned, before, wanted, denies)
    ensures forall later :: !SourcesAreIsolated(b.me, b.owned, b.store, wanted, later)
  {
    var i :| 0 <= i < |wanted| && wanted[i].source != "";
    var rule := wanted[i];
    IsolatedHasNoManual(b.me, owned, before, wanted, denies, rule);
    assert rule in FinalRules(b.me, before, request, wanted, manual);
    OwnRulesHave(b.me, b.store);
    assert HasOwn(b.me, b.store, rule);
    var e :| e in b.store && Exact(e, rule) && OwnsComment(b.me, rule, e.comment);
    assert IsOwn(b.me, e) && HasRecord(b.owned, rule);
    var o :| o in b.owned && o.rule == rule;
    assert o == OwnedRule(rule, true);
    PrioritisedSourceIntrudes(b.me, b.owned, b.store, wanted, rule);
  }

  /** Merging changes no scope, and so neither adds nor loses sources. */
  lemma MergedSources(rules: seq<Rule>, merged: seq<Rule>, rank: Rule -> int)
    requires SolidRules(rules) && SolidRules(merged) && IsMerge(OpensOf(rules), merged, rank)
    ensures HasSources(merged) <==> HasSources(rules)
  {
    if HasSources(merged) {
      var i :| 0 <= i < |merged| && merged[i].source != "";
      SourceReturns(merged, rules, merged, rank, rules, i);
    }
    if HasSources(rules) {
      var k :| 0 <= k < |rules| && rules[k].source != "";
      SourceReturns(rules, rules, merged, rank, merged, k);
    }
  }

  /** A rule of one list opens its first port; the other list opens it too, within the same scope. */
  lemma SourceReturns(these: seq<Rule>, rules: seq<Rule>, merged: seq<Rule>, rank: Rule -> int, those: seq<Rule>,
                      i: nat)
    requires IsMerge(OpensOf(rules), merged, rank) && i < |these| && these[i].source != "" && these[i].ports.NonEmpty()
    requires (these == merged && those == rules) || (these == rules && those == merged)
    ensures HasSources(those)
  {
    var rule := these[i];
    assert Opens(these, rule.Scope(), rule.ports.from);
    MergeKeepsPorts(rules, merged, rank, rule.Scope(), rule.ports.from);
    var k :| 0 <= k < |those| && those[k].Scope() == rule.Scope() && those[k].ports.Contains(rule.ports.from);
    assert those[k].source == those[k].Scope().source == rule.source;
  }

  lemma SelectionSources(request: Request, owned: seq<OwnedRule>, existing: seq<Entry>, wanted: seq<Rule>,
                         manual: seq<Rule>, rank: Rule -> int)
    requires request.managed && SolidRules(request.allows) && SolidRules(wanted)
    requires IsSelection(request, request.allows, owned, existing, wanted, manual, rank)
    ensures HasSources(wanted) <==> HasSources(request.allows)
  {
    MergeOfSame((scope, port) => Selects(request, request.allows, owned, existing, manual, scope, port),
                OpensOf(request.allows), wanted, rank);
    MergedSources(request.allows, wanted, rank);
  }

  /** Without sources, and with UFW at hand, nothing stands against a synchronisation of plans. */
  lemma NothingAgainst(me: string, request: Request, owned: seq<OwnedRule>, existing: seq<Entry>, wanted: seq<Rule>,
                       denies: Option<bool>)
    requires request.managed && request.enabled && !HasSources(request.allows) && !HasSources(wanted)
    ensures !Blocked(request, owned, existing, Active)
    ensures SourcesAreIsolated(me, owned, existing, wanted, denies)
  {
    if SourceConflict(me, owned, existing, wanted) {
      ConflictHasSources(me, owned, existing, wanted);
    }
  }

  /**
   Synchronising twice with the same plans: when the first synchronisation succeeded, the second is refused exactly when
   the plans hold a rule for certain sources. It finds the entry that the first one put ahead of the user's rules, and
   looks it up among the records without priority only.
   */
  method ApplyTwice(b: Backend, request: Request, denies: Option<bool>, forwarded: bool, later: Option<bool>,
                    rank: Rule -> int)
    returns (first: Outcome, second: Outcome)
    requires b.Valid() && SolidEntries(b.store) && Injective(rank)
    requires request.enabled && request.managed && request.wantsUfw
    requires forall i :: 0 <= i < |b.owned| ==> b.owned[i].rule.ports.NonEmpty()
    modifies b
    ensures first.Done? ==> (second.Refused? <==> HasSources(request.allows))
  {
    ghost var wanted, manual, again, laterManual;
    ghost var before, owned := b.store, b.owned;
    first, wanted, manual := Apply(b, request, Active, denies, forwarded, rank);
    second := first;
    if first == Done {
      AllowsSolid(request);
      SelectionSources(request, owned, before, wanted, manual, rank);
      StaysSolid(b, before, request, wanted, manual);
      RecordsStaySolid(owned, b.owned, wanted, true);
      ghost var mid, records := b.store, b.owned;
      if HasSources(wanted) {
        SourceIntrudesNext(b, before, owned, request, wanted, manual, denies);
      } else {
        NothingAgainst(b.me, request, records, mid, wanted, later);
      }
      second, again, laterManual := Apply(b, request, Active, later, forwarded, rank);
      if !Blocked(request, records, mid, Active) {
        SelectionRepeats(request, request.allows, owned, before, wanted, manual, records, mid, again, laterManual,
                         rank);
      }
    }
  }

  lemma AllowsSolid(request: Request)
    requires AllValid(request.allows + request.redirects)
    ensures SolidRules(request.allows)
  {
    forall i | 0 <= i < |request.allows| ensures request.allows[i].ports.NonEmpty() {
      assert (request.allows + request.redirects)[i] == request.allows[i];
    }
  }

  lemma NothingHeld(b: Backend, request: Request)
    requires b.Valid() && b.owned == []
    ensures WellSettled(b, b.store, request, [], [])
  {
    assert forall e :: e in b.store && IsOwn(b.me, e) ==> HasRecord(b.owned, e.rule);
    assert OwnRules(b.me, b.store) == {};
  }
}
