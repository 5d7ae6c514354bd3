/** The record of the UFW entries this instance is responsible for, and what each command means for it. */
module UfwRecords {
  import opened Common
  import opened PortSet
  import opened FirewallPlan
  import opened UfwStore

  /** `managed` records are kept ahead of the user's rules (priority -1); the others are appended. */
  datatype OwnedRule = OwnedRule(rule: Rule, managed: bool)

  /** How a write of the record ends; one that is reported as failed may have replaced the file all the same. */
  datatype Fate = Written | Unwritten | Misreported

  /**
   What a crash at some moment would leave behind. `lost` are the rules whose record went with a write that replaced the
   file but was reported as failed, no write having reached the file since.
   */
  datatype Point = Point(store: seq<Entry>, durable: seq<OwnedRule>, lost: set<Rule>)

  predicate HasRecord(owned: seq<OwnedRule>, rule: Rule) {
    exists o :: o in owned && o.rule == rule
  }

  predicate DistinctRecords(owned: seq<OwnedRule>) {
    forall i, j :: 0 <= i < j < |owned| ==> owned[i].rule != owned[j].rule
  }

  /** Every entry of this instance can be found again from the record. */
  predicate Covered(me: string, store: seq<Entry>, durable: seq<OwnedRule>) {
    forall e :: e in store && IsOwn(me, e) ==> HasRecord(durable, e.rule)
  }

  /**
   The others' entries are as they were, and an entry of this instance is off the record in the file exactly when its
   rule is lost.
   */
  predicate Safe(me: string, foreign: seq<Entry>, p: Point) {
    && Distinct(p.store) && DistinctRecords(p.durable) && Foreign(me, p.store) == foreign
    && forall e :: e in p.store && IsOwn(me, e) ==> (HasRecord(p.durable, e.rule) <==> e.rule !in p.lost)
  }

  /** What is on record in memory is on record in the file, except for what is lost. */
  ghost predicate Mirrors(owned: seq<OwnedRule>, durable: seq<OwnedRule>, lost: set<Rule>) {
    forall rule :: HasRecord(owned, rule) ==> (HasRecord(durable, rule) <==> rule !in lost)
  }

  /** The rules that only the longer record names. */
  function Dropped(previous: seq<OwnedRule>, next: seq<OwnedRule>): set<Rule> {
    set o | o in previous && !HasRecord(next, o.rule) :: o.rule
  }

  /** What is lost after a write that would drop some rules from the record. */
  function LostAfter(fate: Fate, was: set<Rule>, dropped: set<Rule>): set<Rule> {
    match fate
    case Written => {}
    case Unwritten => was
    case Misreported => dropped
  }

  lemma DroppedMirrors(previous: seq<OwnedRule>, next: seq<OwnedRule>)
    ensures Mirrors(previous, next, Dropped(previous, next))
  {
  }

  /** The next process finds every entry of this instance on record exactly when no lost rule has come back. */
  lemma ResumesExactly(me: string, foreign: seq<Entry>, p: Point)
    requires Safe(me, foreign, p)
    ensures Covered(me, p.store, p.durable) <==> forall e :: e in p.store && IsOwn(me, e) ==> e.rule !in p.lost
  {
  }

  function RecordIndex(owned: seq<OwnedRule>, rule: Rule): (i: nat)
    ensures i <= |owned| && (i < |owned| ==> owned[i].rule == rule)
    ensures i == |owned| <==> !HasRecord(owned, rule)
    ensures forall j :: 0 <= j < i ==> owned[j].rule != rule
  {
    if owned == [] then 0
    else if owned[0].rule == rule then 0
    else
      assert forall o :: o in owned <==> o == owned[0] || o in owned[1..];
      1 + RecordIndex(owned[1..], rule)
  }

  function Remembered(owned: seq<OwnedRule>, record: OwnedRule): seq<OwnedRule> {
    var i := RecordIndex(owned, record.rule);
    if i < |owned| then owned[i := record] else owned + [record]
  }

  function Forgotten(owned: seq<OwnedRule>, rule: Rule): seq<OwnedRule> {
    var i := RecordIndex(owned, rule);
    if i < |owned| then owned[..i] + owned[i + 1..] else owned
  }

  lemma RememberedRecords(owned: seq<OwnedRule>, record: OwnedRule)
    requires DistinctRecords(owned)
    ensures var now := Remembered(owned, record);
            DistinctRecords(now) && forall o :: o in now <==> o == record || (o in owned && o.rule != record.rule)
  {
    var i, now := RecordIndex(owned, record.rule), Remembered(owned, record);
    assert now[i] == record;
    forall o | o in owned && o.rule != record.rule ensures o in now {
      var j :| 0 <= j < |owned| && owned[j] == o;
      assert now[j] == o;
    }
    forall o | o in now ensures o == record || (o in owned && o.rule != record.rule) {
      var j :| 0 <= j < |now| && now[j] == o;
      assert j != i ==> now[j] == owned[j];
    }
  }

  lemma RememberedAlready(owned: seq<OwnedRule>, record: OwnedRule)
    requires DistinctRecords(owned) && record in owned
    ensures Remembered(owned, record) == owned
  {
    var k :| 0 <= k < |owned| && owned[k] == record;
    assert k == RecordIndex(owned, record.rule);
  }

  lemma ForgottenRecords(owned: seq<OwnedRule>, rule: Rule)
    requires DistinctRecords(owned)
    ensures var now := Forgotten(owned, rule);
            DistinctRecords(now) && forall o :: o in now <==> o in owned && o.rule != rule
  {
    var i, now := RecordIndex(owned, rule), Forgotten(owned, rule);
    if i < |owned| {
      assert forall j :: 0 <= j < |now| ==> now[j] == owned[if j < i then j else j + 1];
      forall o | o in owned && o.rule != rule ensures o in now {
        var j :| 0 <= j < |owned| && owned[j] == o;
        assert now[if j < i then j else j - 1] == o;
      }
    }
  }

  lemma RememberedDropsNothing(owned: seq<OwnedRule>, record: OwnedRule)
    requires DistinctRecords(owned)
    ensures Dropped(owned, Remembered(owned, record)) == {}
  {
    RememberedRecords(owned, record);
    forall o | o in owned ensures HasRecord(Remembered(owned, record), o.rule) {
      assert o.rule != record.rule ==> o in Remembered(owned, record);
    }
  }

  lemma ForgottenDrops(owned: seq<OwnedRule>, rule: Rule)
    requires DistinctRecords(owned) && HasRecord(owned, rule)
    ensures Dropped(owned, Forgotten(owned, rule)) == {rule}
  {
    ForgottenRecords(owned, rule);
    forall o | o in owned ensures HasRecord(Forgotten(owned, rule), o.rule) <==> o.rule != rule {
      assert o.rule != rule ==> o in Forgotten(owned, rule);
    }
  }

  /** More records cover as much. */
  lemma CoveredByMore(me: string, store: seq<Entry>, owned: seq<OwnedRule>, more: seq<OwnedRule>)
    requires Covered(me, store, owned) && forall rule :: HasRecord(owned, rule) ==> HasRecord(more, rule)
    ensures Covered(me, store, more)
  {
  }

  lemma CoveredWithout(me: string, store: seq<Entry>, owned: seq<OwnedRule>, rule: Rule)
    requires Covered(me, store, owned) && !HasOwn(me, store, rule) && DistinctRecords(owned)
    ensures Covered(me, store, Forgotten(owned, rule))
  {
    ForgottenRecords(owned, rule);
    forall e | e in store && IsOwn(me, e) ensures HasRecord(Forgotten(owned, rule), e.rule) {
      var o :| o in owned && o.rule == e.rule;
      assert o in Forgotten(owned, rule);
    }
  }

  // ---------------------------------------------------------------- commands against the record

  /** The rule may be allowed by this instance: its entry is its own or is not there. */
  predicate MayAllow(me: string, store: seq<Entry>, rule: Rule) {
    Find(store, rule) < |store| ==> IsOwn(me, store[Find(store, rule)])
  }

  lemma FindNone(store: seq<Entry>, rule: Rule)
    requires Find(store, rule) == |store|
    ensures forall e :: e in store ==> !Exact(e, rule)
  {
    forall e | e in store ensures !Exact(e, rule) {
      var i :| 0 <= i < |store| && store[i] == e;
    }
  }

  lemma InsertMembers(front: seq<Entry>, e: Entry, back: seq<Entry>)
    ensures forall x :: x in front + [e] + back <==> x in front + back || x == e
  {
  }

  lemma InsertDistinct(front: seq<Entry>, e: Entry, back: seq<Entry>)
    requires Distinct(front + back) && forall x :: x in front + back ==> !Exact(x, e.rule)
    ensures Distinct(front + [e] + back)
  {
    var store, now := front + back, front + [e] + back;
    forall j, k | 0 <= j < k < |now| && Exact(now[j], now[j].rule) ensures !Exact(now[k], now[j].rule) {
      var jj, kk := if j < |front| then j else j - 1, if k <= |front| then k else k - 1;
      assert j != |front| ==> now[j] == store[jj] && store[jj] in store;
      assert k != |front| ==> now[k] == store[kk] && store[kk] in store;
    }
  }

  lemma InsertAtMembers(store: seq<Entry>, i: nat, e: Entry)
    requires i <= |store|
    ensures forall x :: x in InsertAt(store, i, e) <==> x in store || x == e
  {
    assert store[..i] + store[i..] == store;
    InsertMembers(store[..i], e, store[i..]);
  }

  lemma InsertAtDistinct(store: seq<Entry>, i: nat, e: Entry)
    requires i <= |store| && Distinct(store) && Find(store, e.rule) == |store|
    ensures Distinct(InsertAt(store, i, e))
  {
    FindNone(store, e.rule);
    assert store[..i] + store[i..] == store;
    InsertDistinct(store[..i], e, store[i..]);
  }

  /** An own entry of a rule that had none, put in anywhere. */
  lemma InsertEffect(me: string, store: seq<Entry>, i: nat, e: Entry)
    requires i <= |store| && Distinct(store) && Find(store, e.rule) == |store| && IsOwn(me, e)
    ensures var now := InsertAt(store, i, e);
            && Distinct(now) && OnlyTouches(me, store, now, e.rule) && e in now
            && forall x :: x in now <==> x in store || x == e
  {
    InsertTouches(me, store, i, e);
    InsertAtMembers(store, i, e);
    InsertAtDistinct(store, i, e);
  }

  lemma UpdateEffect(me: string, store: seq<Entry>, rule: Rule, comment: Comment)
    requires Distinct(store) && Find(store, rule) < |store| && IsOwn(me, store[Find(store, rule)])
             && OwnsComment(me, rule, comment)
    ensures var now := AllowRule(store, rule, comment);
            && Distinct(now) && OnlyTouches(me, store, now, rule) && Entry(rule, Allow, comment, false) in now
            && forall e :: e in now && e !in store ==> e.rule == rule
  {
    var i, now := Find(store, rule), AllowRule(store, rule, comment);
    UpdateTouches(me, store, i, comment);
    assert now[i] == Entry(rule, Allow, comment, false);
    forall j, k | 0 <= j < k < |now| && Exact(now[j], now[j].rule) ensures !Exact(now[k], now[j].rule) {
      assert Exact(store[j], store[j].rule);
    }
  }

  lemma AllowEffect(me: string, store: seq<Entry>, rule: Rule, comment: Comment)
    requires Distinct(store) && MayAllow(me, store, rule) && OwnsComment(me, rule, comment)
    ensures var now := AllowRule(store, rule, comment);
            && Distinct(now) && OnlyTouches(me, store, now, rule) && Entry(rule, Allow, comment, false) in now
            && forall e :: e in now && e !in store ==> e.rule == rule
  {
    if Find(store, rule) < |store| {
      UpdateEffect(me, store, rule, comment);
    } else {
      var e := Entry(rule, Allow, comment, false);
      InsertEffect(me, store, |store|, e);
      assert InsertAt(store, |store|, e) == AllowRule(store, rule, comment);
    }
  }

  lemma PrependEffect(me: string, store: seq<Entry>, rule: Rule, comment: Comment)
    requires Distinct(store) && Find(store, rule) == |store| && OwnsComment(me, rule, comment)
    ensures var now := PrependRule(store, rule, comment);
            && Distinct(now) && OnlyTouches(me, store, now, rule) && Entry(rule, Allow, comment, false) in now
            && forall e :: e in now && e !in store ==> e.rule == rule
  {
    InsertEffect(me, store, FamilyStart(store, rule.family), Entry(rule, Allow, comment, false));
  }

  /** All that a deletion takes out is the entry at `i`. */
  lemma RemovedMembers(store: seq<Entry>, i: nat, e: Entry)
    requires Distinct(store) && i < |store| && Exact(store[i], store[i].rule)
    ensures e in RemoveAt(store, i) <==> e in store && e != store[i]
    ensures Distinct(RemoveAt(store, i))
  {
    var now := RemoveAt(store, i);
    assert forall j :: 0 <= j < |now| ==> now[j] == store[if j < i then j else j + 1];
    if e in store && e != store[i] {
      var j :| 0 <= j < |store| && store[j] == e;
      assert now[if j < i then j else j - 1] == e;
    }
    if e in now {
      var j :| 0 <= j < |now| && now[j] == e;
      var k := if j < i then j else j + 1;
      assert k < i ==> !Exact(store[i], store[k].rule) || !Exact(store[k], store[k].rule);
      assert e == store[k];
    }
  }

  lemma OneExact(store: seq<Entry>, i: nat, rule: Rule, e: Entry)
    requires Distinct(store) && i == Find(store, rule) && e in store && Exact(e, rule)
    ensures i < |store| && store[i] == e
  {
    var j :| 0 <= j < |store| && store[j] == e;
    FindExact(store, j, rule);
  }

  lemma DeleteEffect(me: string, store: seq<Entry>, rule: Rule, comment: Comment)
    requires Distinct(store) && OwnsComment(me, rule, comment)
    ensures var now := DeleteRule(store, rule, comment);
            && Distinct(now) && OnlyTouches(me, store, now, rule)
            && forall e :: e in now <==> e in store && !(Exact(e, rule) && e.comment == comment)
  {
    var i, now := Find(store, rule), DeleteRule(store, rule, comment);
    if i < |store| && store[i].comment == comment {
      RemoveTouches(me, store, i);
      RemovedMembers(store, i, store[i]);
    }
    forall e ensures e in now <==> e in store && !(Exact(e, rule) && e.comment == comment) {
      if e in store && Exact(e, rule) {
        OneExact(store, i, rule, e);
      }
      if i < |store| && store[i].comment == comment {
        RemovedMembers(store, i, e);
      }
    }
  }
}
