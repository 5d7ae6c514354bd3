/**
 The rules UFW holds, and what its commands do to them.

 UFW keeps one ALLOW entry per rule: allowing a rule again only rewrites the comment of the entry that is there. Entries
 whose full text is not expressible as a `Rule` are `scoped`; they only ever block or occupy ports.
 */
module UfwStore {
  import opened Common
  import opened PortSet
  import opened FirewallPlan

  datatype Action = Allow | Deny | Reject | Limit

  /** A managed comment names the instance, the digest of the rule and the nodes using it. */
  datatype Comment = Plain(text: string) | Marked(owner: string, digest: Rule, nodes: seq<nat>)

  datatype Entry = Entry(rule: Rule, action: Action, comment: Comment, scoped: bool)

  predicate OwnsComment(me: string, rule: Rule, comment: Comment) {
    comment.Marked? && comment.owner == me && comment.digest == rule
  }

  predicate Exact(e: Entry, rule: Rule) {
    !e.scoped && e.action == Allow && e.rule == rule
  }

  /** The entries this instance may touch. */
  predicate IsOwn(me: string, e: Entry) {
    Exact(e, e.rule) && OwnsComment(me, e.rule, e.comment)
  }

  predicate Blocks(e: Entry, rule: Rule) {
    e.action != Allow && Overlaps(rule, e.rule)
  }

  /** At most one ALLOW entry per rule. */
  predicate Distinct(store: seq<Entry>) {
    forall i, j :: 0 <= i < j < |store| && Exact(store[i], store[i].rule) ==> !Exact(store[j], store[i].rule)
  }

  predicate HasOwn(me: string, store: seq<Entry>, rule: Rule) {
    exists e :: e in store && Exact(e, rule) && OwnsComment(me, rule, e.comment)
  }

  predicate HasManual(me: string, store: seq<Entry>, rule: Rule) {
    exists e :: e in store && Exact(e, rule) && !OwnsComment(me, rule, e.comment)
  }

  /** Packets for the rule are let through: its ALLOW entry comes before every entry that would stop them. */
  predicate Reaches(store: seq<Entry>, rule: Rule) {
    store != [] && (Exact(store[0], rule) || (!Blocks(store[0], rule) && Reaches(store[1..], rule)))
  }

  function Keep(store: seq<Entry>, keep: Entry -> bool): (kept: seq<Entry>)
    ensures forall e :: e in kept <==> e in store && keep(e)
  {
    if store == [] then [] else (if keep(store[0]) then [store[0]] else []) + Keep(store[1..], keep)
  }

  /** What this instance may not touch, in order. */
  function Foreign(me: string, store: seq<Entry>): seq<Entry> {
    Keep(store, e => !IsOwn(me, e))
  }

  /** The store without this instance's entries for other rules. */
  function Relevant(me: string, store: seq<Entry>, rule: Rule): seq<Entry> {
    Keep(store, e => !IsOwn(me, e) || e.rule == rule)
  }

  // ---------------------------------------------------------------- commands

  function Find(store: seq<Entry>, rule: Rule): (i: nat)
    ensures i <= |store| && (i < |store| ==> Exact(store[i], rule))
    ensures forall j :: 0 <= j < i ==> !Exact(store[j], rule)
  {
    if store == [] || Exact(store[0], rule) then 0 else 1 + Find(store[1..], rule)
  }

  function FamilyStart(store: seq<Entry>, family: int): (i: nat)
    ensures i <= |store|
  {
    if store == [] || store[0].rule.family == family then 0 else 1 + FamilyStart(store[1..], family)
  }

  function InsertAt(store: seq<Entry>, i: nat, e: Entry): seq<Entry>
    requires i <= |store|
  {
    store[..i] + [e] + store[i..]
  }

  function RemoveAt(store: seq<Entry>, i: nat): seq<Entry>
    requires i < |store|
  {
    store[..i] + store[i + 1..]
  }

  /** `ufw allow`: appended, or the comment of the entry that is there rewritten in place. */
  function AllowRule(store: seq<Entry>, rule: Rule, comment: Comment): seq<Entry> {
    var i := Find(store, rule);
    if i < |store| then store[i := store[i].(comment := comment)] else store + [Entry(rule, Allow, comment, false)]
  }

  /** `ufw prepend allow`: put first within its address family, or skipped when the entry is there. */
  function PrependRule(store: seq<Entry>, rule: Rule, comment: Comment): seq<Entry> {
    if Find(store, rule) < |store| then store
    else InsertAt(store, FamilyStart(store, rule.family), Entry(rule, Allow, comment, false))
  }

  /** `ufw delete allow`: the entry of this rule, if it carries the comment. */
  function DeleteRule(store: seq<Entry>, rule: Rule, comment: Comment): seq<Entry> {
    var i := Find(store, rule);
    if i < |store| && store[i].comment == comment then RemoveAt(store, i) else store
  }

  // ---------------------------------------------------------------- what the commands keep

  /** Between two stores only this instance's entries for one rule may differ. */
  ghost predicate OnlyTouches(me: string, was: seq<Entry>, now: seq<Entry>, rule: Rule) {
    && Foreign(me, now) == Foreign(me, was)
    && forall other :: other != rule ==> Relevant(me, now, other) == Relevant(me, was, other)
  }

  lemma {:induction false} KeepAround(front: seq<Entry>, e: Entry, back: seq<Entry>, keep: Entry -> bool)
    requires !keep(e)
    ensures Keep(front + [e] + back, keep) == Keep(front + back, keep)
  {
    var grown, whole := front + [e] + back, front + back;
    if front == [] {
      assert grown[1..] == whole;
    } else {
      assert grown[0] == whole[0] && grown[1..] == front[1..] + [e] + back && whole[1..] == front[1..] + back;
      KeepAround(front[1..], e, back, keep);
    }
  }

  lemma InsertKept(store: seq<Entry>, i: nat, e: Entry, keep: Entry -> bool)
    requires i <= |store| && !keep(e)
    ensures Keep(InsertAt(store, i, e), keep) == Keep(store, keep)
  {
    assert store == store[..i] + store[i..];
    KeepAround(store[..i], e, store[i..], keep);
  }

  /** An own entry of the rule put in anywhere. */
  lemma InsertTouches(me: string, store: seq<Entry>, i: nat, e: Entry)
    requires i <= |store| && IsOwn(me, e)
    ensures OnlyTouches(me, store, InsertAt(store, i, e), e.rule)
  {
    InsertKept(store, i, e, e => !IsOwn(me, e));
    forall other | other != e.rule ensures Relevant(me, InsertAt(store, i, e), other) == Relevant(me, store, other) {
      InsertKept(store, i, e, e => !IsOwn(me, e) || e.rule == other);
    }
  }

  lemma RemoveTouches(me: string, store: seq<Entry>, i: nat)
    requires i < |store| && IsOwn(me, store[i])
    ensures OnlyTouches(me, store, RemoveAt(store, i), store[i].rule)
  {
    var left := RemoveAt(store, i);
    assert InsertAt(left, i, store[i]) == store;
    InsertTouches(me, left, i, store[i]);
  }

  lemma UpdateTouches(me: string, store: seq<Entry>, i: nat, comment: Comment)
    requires i < |store| && IsOwn(me, store[i]) && OwnsComment(me, store[i].rule, comment)
    ensures OnlyTouches(me, store, store[i := store[i].(comment := comment)], store[i].rule)
  {
    var left, now := RemoveAt(store, i), store[i := store[i].(comment := comment)];
    assert InsertAt(left, i, store[i]) == store && InsertAt(left, i, now[i]) == now;
    InsertTouches(me, left, i, store[i]);
    InsertTouches(me, left, i, now[i]);
  }

  lemma TouchesTransitive(me: string, a: seq<Entry>, b: seq<Entry>, c: seq<Entry>, rule: Rule)
    requires OnlyTouches(me, a, b, rule) && OnlyTouches(me, b, c, rule)
    ensures OnlyTouches(me, a, c, rule)
  {
  }

  lemma FindExact(store: seq<Entry>, i: nat, rule: Rule)
    requires Distinct(store) && i < |store| && Exact(store[i], rule)
    ensures Find(store, rule) == i
  {
    var k := Find(store, rule);
    assert k <= i && Exact(store[k], store[k].rule);
  }

  lemma ReachesCons(head: Entry, tail: seq<Entry>, rule: Rule)
    ensures Reaches([head] + tail, rule) == (Exact(head, rule) || (!Blocks(head, rule) && Reaches(tail, rule)))
  {
    assert ([head] + tail)[1..] == tail;
  }

  /** Passing over entries that neither allow nor block the rule changes nothing. */
  lemma {:induction false} ReachesKept(store: seq<Entry>, keep: Entry -> bool, rule: Rule)
    requires forall e :: e in store && !keep(e) ==> !Exact(e, rule) && !Blocks(e, rule)
    ensures Reaches(Keep(store, keep), rule) == Reaches(store, rule)
  {
    if store == [] {
    } else {
      ReachesKept(store[1..], keep, rule);
      var rest := Keep(store[1..], keep);
      assert [] + rest == rest;
      ReachesCons(store[0], rest, rule);
    }
  }

  lemma ReachesRelevant(me: string, store: seq<Entry>, rule: Rule)
    ensures Reaches(Relevant(me, store, rule), rule) == Reaches(store, rule)
  {
    ReachesKept(store, e => !IsOwn(me, e) || e.rule == rule, rule);
  }

  predicate Unblocked(store: seq<Entry>, rule: Rule, i: nat)
    requires i <= |store|
  {
    forall j :: 0 <= j < i ==> !Blocks(store[j], rule)
  }

  lemma UnblockedCons(store: seq<Entry>, rule: Rule, i: nat)
    requires 0 < i <= |store|
    ensures Unblocked(store, rule, i) <==> !Blocks(store[0], rule) && Unblocked(store[1..], rule, i - 1)
  {
    var tail := store[1..];
    if !Blocks(store[0], rule) && Unblocked(tail, rule, i - 1) {
      forall j | 0 <= j < i ensures !Blocks(store[j], rule) {
        assert j > 0 ==> store[j] == tail[j - 1];
      }
    }
    if Unblocked(store, rule, i) {
      assert forall j :: 0 <= j < i - 1 ==> tail[j] == store[j + 1];
    }
  }

  /** Where the rule's ALLOW entry stands decides whether it is reached. */
  lemma {:induction false} ReachesAt(store: seq<Entry>, rule: Rule, i: nat)
    requires i < |store| && Exact(store[i], rule)
    requires forall j :: 0 <= j < i ==> !Exact(store[j], rule)
    ensures Reaches(store, rule) <==> Unblocked(store, rule, i)
  {
    if i == 0 {
    } else {
      UnblockedCons(store, rule, i);
      ReachesAt(store[1..], rule, i - 1);
    }
  }
}
