/**
 The UFW side of the firewall backend: record first, then change the rules, so that a crash between any two commands
 leaves no entry of this instance off the record and no entry of anybody else touched.
 */
module UfwBackend {
  import opened Common
  import opened PortSet
  import opened FirewallPlan
  import opened UfwStore
  import opened UfwManual
  import opened UfwRecords

  /** Where an instance's entries and the ones in their way stand in a listing, -1 for none. */
  datatype Position = Position(own: int, manual: int, blocker: int)

  predicate Elsewhere(me: string, existing: seq<Entry>, rule: Rule) {
    exists e :: e in existing && Overlaps(rule, e.rule) && e.comment.Marked? && !OwnsComment(me, e.rule, e.comment)
  }

  /** Another entry of this instance is in no rule's way. */
  predicate SameView(me: string, existing: seq<Entry>, store: seq<Entry>, rule: Rule) {
    Distinct(existing) && Relevant(me, existing, rule) == Relevant(me, store, rule)
  }

  lemma SameViewFacts(me: string, existing: seq<Entry>, store: seq<Entry>, rule: Rule)
    requires SameView(me, existing, store, rule)
    ensures HasOwn(me, existing, rule) == HasOwn(me, store, rule)
            && HasManual(me, existing, rule) == HasManual(me, store, rule)
    ensures Reaches(existing, rule) == Reaches(store, rule)
    ensures forall e :: Exact(e, rule) || e.action != Allow ==> (e in existing <==> e in store)
  {
    ReachesRelevant(me, existing, rule);
    ReachesRelevant(me, store, rule);
    assert forall e :: e in Relevant(me, existing, rule) <==> e in Relevant(me, store, rule);
  }

  /** The rule is let through by a manual entry, or by this instance's entry with the comment wanted now. */
  predicate Settled(me: string, store: seq<Entry>, rule: Rule, comment: Comment) {
    Reaches(store, rule) && (HasManual(me, store, rule) || Entry(rule, Allow, comment, false) in store)
  }

  lemma SettledView(me: string, was: seq<Entry>, now: seq<Entry>, rule: Rule, comment: Comment)
    requires Relevant(me, was, rule) == Relevant(me, now, rule) && Settled(me, was, rule, comment)
    ensures Settled(me, now, rule, comment)
  {
    ReachesRelevant(me, was, rule);
    ReachesRelevant(me, now, rule);
    assert forall e :: e in Relevant(me, was, rule) <==> e in Relevant(me, now, rule);
  }

  /** With one entry per rule, a manual one leaves no room for this instance's. */
  lemma ManualExcludesOwn(me: string, store: seq<Entry>, rule: Rule)
    requires Distinct(store) && HasManual(me, store, rule)
    ensures !HasOwn(me, store, rule)
  {
    var e :| e in store && Exact(e, rule) && !OwnsComment(me, rule, e.comment);
    var i :| 0 <= i < |store| && store[i] == e;
    forall o | o in store && Exact(o, rule) ensures o == e {
      var j :| 0 <= j < |store| && store[j] == o;
      FindExact(store, i, rule);
      FindExact(store, j, rule);
    }
  }

  method FindPosition(me: string, rule: Rule, existing: seq<Entry>) returns (r: Option<Position>)
    requires rule.ports.NonEmpty()
    ensures r.None? <==> Elsewhere(me, existing, rule)
    ensures r.Some? ==>
              && -1 <= r.value.own < |existing| && -1 <= r.value.manual < |existing|
              && -1 <= r.value.blocker < |existing|
              && (r.value.own >= 0 <==> HasOwn(me, existing, rule))
              && (r.value.own >= 0 ==> Exact(existing[r.value.own], rule)
                                       && OwnsComment(me, rule, existing[r.value.own].comment))
              && (r.value.manual >= 0 <==> HasManual(me, existing, rule))
              && (r.value.manual >= 0 ==> Exact(existing[r.value.manual], rule))
              && (r.value.blocker >= 0 ==> Blocks(existing[r.value.blocker], rule))
              && Unblocked(existing, rule, if r.value.blocker < 0 then |existing| else r.value.blocker)
  {
    var own, manual, blocker := -1, -1, -1;
    for i := 0 to |existing|
      invariant -1 <= own < i && -1 <= manual < i && -1 <= blocker < i
      invariant !Elsewhere(me, existing[..i], rule)
      invariant own >= 0 <==> HasOwn(me, existing[..i], rule)
      invariant own >= 0 ==> Exact(existing[own], rule) && OwnsComment(me, rule, existing[own].comment)
      invariant manual >= 0 <==> HasManual(me, existing[..i], rule)
      invariant manual >= 0 ==> Exact(existing[manual], rule)
      invariant blocker >= 0 ==> Blocks(existing[blocker], rule)
      invariant Unblocked(existing, rule, if blocker < 0 then i else blocker)
    {
      var current := existing[i];
      assert forall e :: e in existing[..i + 1] <==> e in existing[..i] || e == current;
      if !Overlaps(rule, current.rule) {
        continue;
      }
      if current.comment.Marked? && !OwnsComment(me, current.rule, current.comment) {
        return None;
      }
      if current.action != Allow && blocker < 0 {
        blocker := i;
      }
      if current.scoped || current.rule != rule || current.action != Allow {
        continue;
      }
      if OwnsComment(me, rule, current.comment) {
        own := i;
      } else {
        manual := i;
      }
    }
    assert existing[..|existing|] == existing;
    return Some(Position(own, manual, blocker));
  }

  /** Ahead of every entry in its way, the rule's entry is reached. */
  lemma AheadReaches(existing: seq<Entry>, rule: Rule, i: nat, blocker: int)
    requires Distinct(existing) && i < |existing| && Exact(existing[i], rule) && blocker < |existing|
    requires Unblocked(existing, rule, if blocker < 0 then |existing| else blocker)
    requires blocker >= 0 ==> Blocks(existing[blocker], rule)
    ensures Reaches(existing, rule) <==> blocker < 0 || i < blocker
  {
    FindExact(existing, i, rule);
    ReachesAt(existing, rule, i);
  }

  /** Of the records, only the one for this rule may have changed, and it is the one asked for. */
  predicate OnlyRecord(was: seq<OwnedRule>, now: seq<OwnedRule>, record: OwnedRule, done: bool) {
    && (forall o :: o in was && o.rule != record.rule ==> o in now)
    && (forall o :: o in now && o.rule != record.rule ==> o in was)
    && (done ==> forall o :: o in now && o.rule == record.rule ==> o == record)
  }

  lemma {:induction false} FindsNothing(store: seq<Entry>, rule: Rule)
    requires forall e :: e in store ==> !Exact(e, rule)
    ensures Find(store, rule) == |store|
  {
    if store == [] {
    } else {
      FindsNothing(store[1..], rule);
    }
  }

  lemma NoEntryLeft(me: string, was: seq<Entry>, now: seq<Entry>, rule: Rule)
    requires OnlyTouches(me, was, now, rule) && !HasManual(me, was, rule) && !HasOwn(me, now, rule)
    ensures Find(now, rule) == |now|
  {
    forall e | e in now && !IsOwn(me, e) ensures e in was {
      assert e in Foreign(me, now) && e in Foreign(me, was);
    }
    FindsNothing(now, rule);
  }

  lemma UpdateReaches(store: seq<Entry>, rule: Rule, comment: Comment)
    requires Find(store, rule) < |store|
    ensures Reaches(AllowRule(store, rule, comment), rule) == Reaches(store, rule)
  {
    var i, now := Find(store, rule), AllowRule(store, rule, comment);
    ReachesAt(store, rule, i);
    ReachesAt(now, rule, i);
    assert forall j :: 0 <= j < i ==> now[j] == store[j];
    assert Unblocked(now, rule, i) == Unblocked(store, rule, i);
  }

  lemma AppendReaches(store: seq<Entry>, rule: Rule, comment: Comment)
    requires Find(store, rule) == |store| && Unblocked(store, rule, |store|)
    ensures Reaches(AllowRule(store, rule, comment), rule)
  {
    ReachesAt(AllowRule(store, rule, comment), rule, |store|);
  }

  lemma UnblockedSame(me: string, existing: seq<Entry>, store: seq<Entry>, rule: Rule)
    requires SameView(me, existing, store, rule) && Unblocked(existing, rule, |existing|)
    ensures Unblocked(store, rule, |store|)
  {
    SameViewFacts(me, existing, store, rule);
    forall j | 0 <= j < |store| ensures !Blocks(store[j], rule) {
      assert store[j] in store;
    }
  }

  method AnyBlocks(wanted: seq<Rule>, existing: seq<Entry>) returns (found: bool)
    ensures found <==> exists i :: 0 <= i < |wanted| && !Unblocked(existing, wanted[i], |existing|)
  {
    for i := 0 to |wanted|
      invariant forall k :: 0 <= k < i ==> Unblocked(existing, wanted[k], |existing|)
    {
      for j := 0 to |existing|
        invariant Unblocked(existing, wanted[i], j)
      {
        if existing[j].action != Allow && Overlaps(wanted[i], existing[j].rule) {
          assert Blocks(existing[j], wanted[i]);
          return true;
        }
      }
    }
    return false;
  }

  class Backend {
    const me: string
    /** The nodes whose plans use a rule. */
    const nodes: Rule -> seq<nat>
    var store: seq<Entry>
    /** How the writes of this process end, one after the other. */
    const fates: nat -> Fate
    var durable: seq<OwnedRule>
    var owned: seq<OwnedRule>
    var saves: nat
    ghost var lost: set<Rule>
    ghost var trace: seq<Point>

    ghost predicate Valid()
      reads this
    {
      && DistinctRecords(owned) && DistinctRecords(durable) && Distinct(store)
      && Covered(me, store, owned) && Mirrors(owned, durable, lost)
      && forall p :: p in trace ==> Safe(me, Foreign(me, store), p)
    }

    /** A process started on what a crash left behind: the rules as they stand and the record as last written. */
    constructor (me: string, nodes: Rule -> seq<nat>, fates: nat -> Fate, left: Point)
      requires Safe(me, Foreign(me, left.store), left) && Covered(me, left.store, left.durable)
      ensures Valid() && this.me == me && this.nodes == nodes && this.fates == fates && store == left.store
              && owned == durable == left.durable && lost == {} && saves == 0
    {
      this.me, this.nodes, this.fates := me, nodes, fates;
      store, durable, owned := left.store, left.durable, left.durable;
      saves, lost, trace := 0, {}, [left.(lost := {})];
    }

    function Desired(rule: Rule): (c: Comment)
      ensures OwnsComment(me, rule, c)
    {
      Marked(me, rule, nodes(rule))
    }

    /** One atomic write of the record. */
    method Save() returns (ok: bool)
      modifies `durable, `lost, `saves, `trace
      ensures saves == old(saves) + 1 && ok == fates(old(saves)).Written?
      ensures durable == (if fates(old(saves)).Unwritten? then old(durable) else owned)
      ensures lost == (if fates(old(saves)).Unwritten? then old(lost) else {})
      ensures trace == old(trace) + [Point(store, durable, lost)]
    {
      var fate := fates(saves);
      saves := saves + 1;
      if !fate.Unwritten? {
        durable, lost := owned, {};
      }
      trace := trace + [Point(store, durable, lost)];
      ok := fate.Written?;
    }

    /** Changes the record in memory and on disk; after a failure, memory is as before, whatever the file holds. */
    method Commit(next: seq<OwnedRule>) returns (ok: bool)
      requires Valid() && DistinctRecords(next) && Covered(me, store, next)
      modifies `owned, `durable, `lost, `saves, `trace
      ensures Valid() && old(trace) <= trace && saves == old(saves) + 1
      ensures ok == fates(old(saves)).Written? && owned == (if ok then next else old(owned))
      ensures durable == (if fates(old(saves)).Unwritten? then old(durable) else next)
      ensures lost == LostAfter(fates(old(saves)), old(lost), Dropped(old(owned), next))
    {
      var previous := owned;
      owned := next;
      ok := Save();
      if !ok {
        owned := previous;
        if fates(saves - 1).Misreported? {
          DroppedMirrors(previous, next);
          lost := Dropped(previous, next);
        }
      }
    }

    /** A record that memory already holds is not written again. */
    method Remember(record: OwnedRule) returns (ok: bool)
      requires Valid()
      modifies `owned, `durable, `lost, `saves, `trace
      ensures Valid() && old(trace) <= trace
      ensures owned == if ok then Remembered(old(owned), record) else old(owned)
      ensures if record in old(owned) then ok && saves == old(saves) && durable == old(durable) && lost == old(lost)
              else
                && saves == old(saves) + 1 && ok == fates(old(saves)).Written?
                && durable == (if fates(old(saves)).Unwritten? then old(durable) else Remembered(old(owned), record))
                && lost == LostAfter(fates(old(saves)), old(lost), {})
    {
      if record in owned {
        RememberedAlready(owned, record);
        return true;
      }
      RememberedRecords(owned, record);
      RememberedDropsNothing(owned, record);
      CoveredByMore(me, store, owned, Remembered(owned, record));
      var k := RecordIndex(owned, record.rule);
      if k < |owned| {
        ok := Commit(owned[k := record]);
      } else {
        ok := Commit(owned + [record]);
      }
    }

    method Forget(rule: Rule) returns (ok: bool)
      requires Valid() && !HasOwn(me, store, rule)
      modifies `owned, `durable, `lost, `saves, `trace
      ensures Valid() && old(trace) <= trace
      ensures owned == if ok then Forgotten(old(owned), rule) else old(owned)
      ensures if !HasRecord(old(owned), rule)
              then ok && saves == old(saves) && durable == old(durable) && lost == old(lost)
              else
                && saves == old(saves) + 1 && ok == fates(old(saves)).Written?
                && durable == (if fates(old(saves)).Unwritten? then old(durable) else Forgotten(old(owned), rule))
                && lost == LostAfter(fates(old(saves)), old(lost), {rule})
    {
      var i := RecordIndex(owned, rule);
      if i == |owned| {
        return true;
      }
      ForgottenRecords(owned, rule);
      ForgottenDrops(owned, rule);
      CoveredWithout(me, store, owned, rule);
      ok := Commit(owned[..i] + owned[i + 1..]);
    }

    /** Runs one UFW command; a command that reports failure may or may not have taken effect. */
    method Command(changed: seq<Entry>) returns (ok: bool)
      modifies `store, `trace
      ensures store == changed || (!ok && store == old(store))
      ensures trace == old(trace) + [Point(store, durable, lost)]
    {
      ok := *;
      var effective: bool := *;
      if ok || effective {
        store := changed;
      }
      trace := trace + [Point(store, durable, lost)];
    }

    /** `ufw allow` with the comment wanted now, once the rule is on record. */
    method RunAllow(rule: Rule) returns (ok: bool)
      requires Valid() && HasRecord(owned, rule) && MayAllow(me, store, rule)
      modifies `store, `trace
      ensures Valid() && old(trace) <= trace && OnlyTouches(me, old(store), store, rule)
      ensures ok ==> Entry(rule, Allow, Desired(rule), false) in store
                     && store == AllowRule(old(store), rule, Desired(rule))
    {
      AllowEffect(me, store, rule, Desired(rule));
      ok := Command(AllowRule(store, rule, Desired(rule)));
    }

    method RunPrepend(rule: Rule) returns (ok: bool)
      requires Valid() && HasRecord(owned, rule) && Find(store, rule) == |store|
      modifies `store, `trace
      ensures Valid() && old(trace) <= trace && OnlyTouches(me, old(store), store, rule)
      ensures ok ==> Entry(rule, Allow, Desired(rule), false) in store
    {
      PrependEffect(me, store, rule, Desired(rule));
      ok := Command(PrependRule(store, rule, Desired(rule)));
    }

    method RunDelete(rule: Rule, comment: Comment) returns (ok: bool)
      requires Valid() && OwnsComment(me, rule, comment)
      modifies `store, `trace
      ensures Valid() && old(trace) <= trace && OnlyTouches(me, old(store), store, rule)
      ensures ok ==> forall e :: e in store <==> e in old(store) && !(Exact(e, rule) && e.comment == comment)
    {
      DeleteEffect(me, store, rule, comment);
      ok := Command(DeleteRule(store, rule, comment));
    }

    /** Deletes the rule's entries under the comments listed. */
    method DeleteListed(rule: Rule, listed: set<Comment>) returns (ok: bool)
      requires Valid() && forall c :: c in listed ==> OwnsComment(me, rule, c)
      requires forall e :: e in store && Exact(e, rule) && OwnsComment(me, rule, e.comment) ==> e.comment in listed
      modifies `store, `trace
      ensures Valid() && old(trace) <= trace && OnlyTouches(me, old(store), store, rule)
      ensures ok ==> !HasOwn(me, store, rule)
    {
      var comments := listed;
      ghost var start := store;
      while comments != {}
        invariant Valid() && old(trace) <= trace && OnlyTouches(me, start, store, rule) && comments <= listed
        invariant forall e :: e in store && Exact(e, rule) && OwnsComment(me, rule, e.comment) ==> e.comment in comments
      {
        var comment :| comment in comments;
        ghost var before := store;
        ok := RunDelete(rule, comment);
        TouchesTransitive(me, start, before, store, rule);
        if !ok {
          return;
        }
        comments := comments - {comment};
      }
      ok := true;
    }

    /** Removes this instance's entry as listed, then its record. */
    method Remove(rule: Rule, listed: seq<Entry>) returns (ok: bool)
      requires Valid() && SameView(me, listed, store, rule)
      modifies `store, `owned, `durable, `lost, `saves, `trace
      ensures Valid() && old(trace) <= trace && OnlyTouches(me, old(store), store, rule)
      ensures ok ==> !HasOwn(me, store, rule) && owned == Forgotten(old(owned), rule)
      ensures !ok ==> owned == old(owned)
      ensures if saves == old(saves) then durable == old(durable) && lost == old(lost)
              else
                && !HasOwn(me, store, rule) && saves == old(saves) + 1 && ok == fates(old(saves)).Written?
                && lost == LostAfter(fates(old(saves)), old(lost), {rule})
      ensures ok && HasRecord(old(owned), rule) ==> saves == old(saves) + 1
    {
      SameViewFacts(me, listed, store, rule);
      var comments := set e | e in listed && Exact(e, rule) && OwnsComment(me, rule, e.comment) :: e.comment;
      ok := DeleteListed(rule, comments);
      if ok {
        ok := Forget(rule);
      }
    }

    /** Reads the rules back and accepts only an entry ahead of everything in its way. */
    method Verify(rule: Rule) returns (ok: bool)
      requires Distinct(store) && rule.ports.NonEmpty()
      ensures ok ==> Reaches(store, rule)
    {
      var readable: bool := *;
      if !readable {
        return false;
      }
      var position := FindPosition(me, rule, store);
      if position.None? || position.value.own < 0 || 0 <= position.value.blocker < position.value.own {
        return false;
      }
      AheadReaches(store, rule, position.value.own, position.value.blocker);
      return true;
    }

    /** Opens the rule ahead of the user's rules. */
    method EnsureManaged(record: OwnedRule, existing: seq<Entry>) returns (ok: bool)
      requires Valid() && record.managed && record.rule.ports.NonEmpty() && SameView(me, existing, store, record.rule)
      modifies `store, `owned, `durable, `lost, `saves, `trace
      ensures Valid() && old(trace) <= trace && OnlyTouches(me, old(store), store, record.rule)
      ensures ok ==> Settled(me, store, record.rule, Desired(record.rule))
      ensures OnlyRecord(old(owned), owned, record, ok)
      ensures record in old(owned) && !HasOwn(me, old(store), record.rule)
              && !HasManual(me, old(store), record.rule) ==>
                owned == old(owned) && durable == old(durable) && lost == old(lost)
    {
      var rule := record.rule;
      var position := FindPosition(me, rule, existing);
      if position.None? {
        return false;
      }
      var own, manual, blocker := position.value.own, position.value.manual, position.value.blocker;
      SameViewFacts(me, existing, store, rule);
      if manual >= 0 {
        if blocker >= 0 && manual > blocker {
          return false;
        }
        AheadReaches(existing, rule, manual, blocker);
        ok := LeaveToManual(record);
        return;
      }
      if own >= 0 && (blocker < 0 || own < blocker) {
        AheadReaches(existing, rule, own, blocker);
        ok := Refresh(record, existing[own]);
        if ok && existing[own].comment != Desired(rule) {
          ok := Verify(rule);
        }
      } else {
        ok := Reinstall(record, existing, own >= 0);
      }
    }

    /** A manual entry lets the rule through: it is used as it is, and nothing is claimed. */
    method LeaveToManual(record: OwnedRule) returns (ok: bool)
      requires Valid() && HasManual(me, store, record.rule) && Reaches(store, record.rule)
      modifies `owned, `durable, `lost, `saves, `trace
      ensures Valid() && old(trace) <= trace
      ensures Settled(me, store, record.rule, Desired(record.rule))
      ensures OnlyRecord(old(owned), owned, record, ok)
    {
      ManualExcludesOwn(me, store, record.rule);
      ForgottenRecords(owned, record.rule);
      ok := Forget(record.rule);
    }

    /** This instance's entry is in place; only its comment may be out of date. */
    method Refresh(record: OwnedRule, current: Entry) returns (ok: bool)
      requires Valid() && Reaches(store, record.rule)
      requires current in store && Exact(current, record.rule) && OwnsComment(me, record.rule, current.comment)
      modifies `store, `owned, `durable, `lost, `saves, `trace
      ensures Valid() && old(trace) <= trace && OnlyTouches(me, old(store), store, record.rule)
      ensures ok ==> Settled(me, store, record.rule, Desired(record.rule))
      ensures OnlyRecord(old(owned), owned, record, ok)
    {
      RememberedRecords(owned, record);
      ok := Remember(record);
      if !ok || current.comment == Desired(record.rule) {
        return;
      }
      var k :| 0 <= k < |store| && store[k] == current;
      FindExact(store, k, record.rule);
      UpdateReaches(store, record.rule, Desired(record.rule));
      ok := RunAllow(record.rule);
    }

    /** Puts the entry first, after taking out the one that stands too late. */
    method Reinstall(record: OwnedRule, existing: seq<Entry>, present: bool) returns (ok: bool)
      requires Valid() && record.rule.ports.NonEmpty() && SameView(me, existing, store, record.rule)
      requires !HasManual(me, store, record.rule) && (present <==> HasOwn(me, store, record.rule))
      modifies `store, `owned, `durable, `lost, `saves, `trace
      ensures Valid() && old(trace) <= trace && OnlyTouches(me, old(store), store, record.rule)
      ensures ok ==> Settled(me, store, record.rule, Desired(record.rule))
      ensures OnlyRecord(old(owned), owned, record, ok)
      ensures record in old(owned) && !present ==>
                owned == old(owned) && durable == old(durable) && lost == old(lost)
    {
      if present {
        ForgottenRecords(owned, record.rule);
        ok := Remove(record.rule, existing);
        if !ok {
          return;
        }
      }
      NoEntryLeft(me, old(store), store, record.rule);
      label before:
      ok := Install(record);
      TouchesTransitive(me, old(store), old@before(store), store, record.rule);
    }

    method Install(record: OwnedRule) returns (ok: bool)
      requires Valid() && record.rule.ports.NonEmpty() && Find(store, record.rule) == |store|
      modifies `store, `owned, `durable, `lost, `saves, `trace
      ensures Valid() && old(trace) <= trace && OnlyTouches(me, old(store), store, record.rule)
      ensures ok ==> Settled(me, store, record.rule, Desired(record.rule))
      ensures OnlyRecord(old(owned), owned, record, ok)
      ensures record in old(owned) ==>
                owned == old(owned) && durable == old(durable) && lost == old(lost)
    {
      RememberedRecords(owned, record);
      ok := Remember(record);
      if ok {
        ok := RunPrepend(record.rule);
      }
      if ok {
        ok := Verify(record.rule);
      }
    }

    /** Opens the rule behind the user's rules, which must not restrict it. */
    method EnsureAppended(record: OwnedRule, existing: seq<Entry>) returns (ok: bool)
      requires Valid() && !record.managed && record.rule.ports.NonEmpty() && SameView(me, existing, store, record.rule)
      modifies `store, `owned, `durable, `lost, `saves, `trace
      ensures Valid() && old(trace) <= trace && OnlyTouches(me, old(store), store, record.rule)
      ensures ok ==> Settled(me, store, record.rule, Desired(record.rule))
      ensures OnlyRecord(old(owned), owned, record, ok)
    {
      var rule := record.rule;
      var blocked := AnyBlocks([rule], existing);
      if blocked {
        return false;
      }
      assert [rule][0] == rule;
      SameViewFacts(me, existing, store, rule);
      UnblockedSame(me, existing, store, rule);
      for i := 0 to |existing|
        invariant Valid() && old(trace) <= trace && store == old(store) && owned == old(owned)
        invariant forall j :: 0 <= j < i ==> !Exact(existing[j], rule)
      {
        if existing[i].scoped || existing[i].rule != rule {
          continue;
        }
        assert !Blocks(existing[i], rule);
        AheadReaches(existing, rule, i, -1);
        if OwnsComment(me, rule, existing[i].comment) {
          ok := Refresh(record, existing[i]);
          return;
        }
        if existing[i].comment.Marked? {
          return false;
        }
        ok := LeaveToManual(record);
        return;
      }
      ok := Append(record, existing);
    }

    method Append(record: OwnedRule, existing: seq<Entry>) returns (ok: bool)
      requires Valid() && SameView(me, existing, store, record.rule) && Unblocked(store, record.rule, |store|)
      requires forall j :: 0 <= j < |existing| ==> !Exact(existing[j], record.rule)
      modifies `store, `owned, `durable, `lost, `saves, `trace
      ensures Valid() && old(trace) <= trace && OnlyTouches(me, old(store), store, record.rule)
      ensures ok ==> Settled(me, store, record.rule, Desired(record.rule))
      ensures OnlyRecord(old(owned), owned, record, ok)
    {
      SameViewFacts(me, existing, store, record.rule);
      assert forall e :: e in existing ==> !Exact(e, record.rule);
      FindsNothing(store, record.rule);
      AppendReaches(store, record.rule, Desired(record.rule));
      RememberedRecords(owned, record);
      ok := Remember(record);
      if ok {
        ok := RunAllow(record.rule);
      }
    }
  }

  lemma ManualIsForeign(me: string, a: seq<Entry>, b: seq<Entry>, rule: Rule)
    requires Foreign(me, a) == Foreign(me, b)
    ensures HasManual(me, a, rule) == HasManual(me, b, rule)
  {
    assert forall e :: e in Foreign(me, a) <==> e in Foreign(me, b);
    assert forall e :: Exact(e, rule) && !OwnsComment(me, rule, e.comment) ==>
              (e in a <==> e in Foreign(me, a)) && (e in b <==> e in Foreign(me, b));
  }

  /**
   A rule is withdrawn, the write that forgets it replaces the file but is reported as failed, and the rule is wanted
   again: memory still holds the record, so nothing is written, and the new entry is off the record in the file.
   */
  method RetryGoesUnrecorded(b: Backend, record: OwnedRule) returns (removed: bool, ok: bool)
    requires b.Valid() && record in b.owned && record.managed && record.rule.ports.NonEmpty()
    requires !HasManual(b.me, b.store, record.rule) && b.fates(b.saves).Misreported?
    modifies b
    ensures b.Valid() && !removed
    ensures ok ==> HasOwn(b.me, b.store, record.rule) && !HasRecord(b.durable, record.rule) && record in b.owned
  {
    var saves := b.saves;
    ghost var start := b.store;
    removed := b.Remove(record.rule, b.store);
    if b.saves == saves {
      return removed, false;
    }
    ManualIsForeign(b.me, start, b.store, record.rule);
    ghost var mid := b.store;
    ok := b.EnsureManaged(record, b.store);
    ManualIsForeign(b.me, mid, b.store, record.rule);
    if ok {
      var entry := Entry(record.rule, Allow, b.Desired(record.rule), false);
      assert entry in b.store && IsOwn(b.me, entry);
      assert HasRecord(b.owned, record.rule);
    }
  }
}
