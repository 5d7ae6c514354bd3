/**
 Spreading connections over targets: round robin within the best priority that is available, and failover below it.
 */
module Balancer {
  import opened Common

  /** Cursors are 64-bit numbers. */
  const CURSORS: int := 0x1_0000_0000_0000_0000

  type Cursor = x: int | 0 <= x < CURSORS witness 0

  datatype Target = Target(id: int, address: string, priority: int, online: bool)

  predicate Before(a: Target, b: Target) {
    a.priority < b.priority || (a.priority == b.priority && a.id < b.id)
  }

  predicate Sorted(targets: seq<Target>) {
    forall i, j :: 0 <= i < j < |targets| ==> Before(targets[i], targets[j])
  }

  predicate Available(t: Target, excluded: set<int>) {
    t.online && t.id !in excluded
  }

  /** The scan of `Pick`: the first available targets, as long as their priority stays the same. */
  function Scan(targets: seq<Target>, excluded: set<int>, found: seq<Target>): seq<Target> {
    if targets == [] then found
    else if !Available(targets[0], excluded) then Scan(targets[1..], excluded, found)
    else if found != [] && found[0].priority != targets[0].priority then found
    else Scan(targets[1..], excluded, found + [targets[0]])
  }

  function Eligible(targets: seq<Target>, excluded: set<int>): seq<Target> {
    Scan(targets, excluded, [])
  }

  /** Available, and no available target has a better priority. */
  predicate Best(targets: seq<Target>, excluded: set<int>, t: Target) {
    && t in targets && Available(t, excluded)
    && forall u :: u in targets && Available(u, excluded) ==> t.priority <= u.priority
  }

  predicate OnePriority(found: seq<Target>) {
    forall i :: 0 <= i < |found| ==> found[i].priority == found[0].priority
  }

  lemma {:induction false} ScanFinds(targets: seq<Target>, excluded: set<int>, found: seq<Target>, t: Target)
    requires Sorted(targets) && OnePriority(found)
    requires found != [] ==> forall u :: u in targets ==> found[0].priority <= u.priority
    ensures OnePriority(Scan(targets, excluded, found))
    ensures found != [] ==>
              (t in Scan(targets, excluded, found) <==>
                 t in found || (t in targets && Available(t, excluded) && t.priority == found[0].priority))
    ensures found == [] ==> (t in Scan(targets, excluded, found) <==> Best(targets, excluded, t))
    decreases |targets|
  {
    if targets == [] {
    } else {
      var head, tail := targets[0], targets[1..];
      assert targets == [head] + tail;
      assert forall u :: u in tail ==> head.priority <= u.priority;
      if !Available(head, excluded) {
        ScanFinds(tail, excluded, found, t);
      } else if found != [] && found[0].priority != head.priority {
        assert forall u :: u in targets ==> found[0].priority < u.priority;
      } else {
        ScanFinds(tail, excluded, found + [head], t);
      }
    }
  }

  /** The targets to choose from are exactly the available ones of the best priority there is. */
  lemma EligibleAreBest(targets: seq<Target>, excluded: set<int>, t: Target)
    requires Sorted(targets)
    ensures t in Eligible(targets, excluded) <==> Best(targets, excluded, t)
  {
    ScanFinds(targets, excluded, [], t);
  }

  lemma {:induction false} ScanDistinct(targets: seq<Target>, excluded: set<int>, found: seq<Target>)
    requires Sorted(targets) && Sorted(found) && forall f, u :: f in found && u in targets ==> Before(f, u)
    ensures Sorted(Scan(targets, excluded, found))
    decreases |targets|
  {
    if targets == [] {
    } else {
      var head, tail := targets[0], targets[1..];
      assert targets == [head] + tail;
      if !Available(head, excluded) {
        ScanDistinct(tail, excluded, found);
      } else if !(found != [] && found[0].priority != head.priority) {
        SortedAppend(found, head);
        forall f, u | f in found + [head] && u in tail ensures Before(f, u) {
          if f == head {
            var k :| 0 <= k < |tail| && tail[k] == u;
            assert Before(targets[0], targets[k + 1]);
          }
        }
        ScanDistinct(tail, excluded, found + [head]);
      }
    }
  }

  lemma SortedAppend(found: seq<Target>, t: Target)
    requires Sorted(found) && forall f :: f in found ==> Before(f, t)
    ensures Sorted(found + [t])
  {
    assert forall i :: 0 <= i < |found| ==> found[i] in found;
  }

  // ---------------------------------------------------------------- round robin

  /** The index the `i`-th of several consecutive picks uses, from cursor `c`. */
  function Turn(c: Cursor, i: nat, n: nat): nat
    requires n > 0
  {
    ((c + i) % CURSORS) % n
  }

  /** The cursor after some picks, each of which moves it on by one. */
  function Moved(c: Cursor, picks: nat): Cursor {
    if picks == 0 then c else (Moved(c, picks - 1) + 1) % CURSORS
  }

  predicate AllDifferent(c: Cursor, n: nat)
    requires n > 0
  {
    forall i, j :: 0 <= i < j < n ==> Turn(c, i, n) != Turn(c, j, n)
  }

  lemma RemainderIs(a: int, n: nat, q: int, r: int)
    requires n > 0 && a == q * n + r && 0 <= r < n
    ensures a % n == r
  {
    var e := a / n;
    assert a == e * n + a % n;
    if e < q {
      ProductGrows(e + 1, q, n);
    } else if q < e {
      ProductGrows(q + 1, e, n);
    }
  }

  lemma CloseRemainders(a: int, b: int, n: nat)
    requires n > 0 && 0 < b - a < n
    ensures a % n != b % n
  {
    var q, r := a / n, a % n;
    assert a == q * n + r;
    if r + (b - a) < n {
      RemainderIs(b, n, q, r + (b - a));
    } else {
      assert b == (q + 1) * n + (r + (b - a) - n);
      RemainderIs(b, n, q + 1, r + (b - a) - n);
    }
  }

  lemma SmallRemainder(a: int, m: nat)
    requires 0 <= a < 2 * m
    ensures a % m == if a < m then a else a - m
  {
    RemainderIs(a, m, if a < m then 0 else 1, if a < m then a else a - m);
  }

  lemma RemainderNext(a: nat, m: nat)
    requires m > 1
    ensures (a % m + 1) % m == (a + 1) % m
  {
    var q, r := a / m, a % m;
    assert a == q * m + r;
    if r + 1 < m {
      RemainderIs(a + 1, m, q, r + 1);
      RemainderIs(r + 1, m, 0, r + 1);
    } else {
      assert a + 1 == (q + 1) * m;
      RemainderIs(a + 1, m, q + 1, 0);
      RemainderIs(m, m, 1, 0);
    }
  }

  lemma {:induction false} CursorMoved(c: Cursor, i: nat)
    ensures Moved(c, i) == (c + i) % CURSORS
  {
    if i > 0 {
      CursorMoved(c, i - 1);
      RemainderNext(c + i - 1, CURSORS);
    } else {
      RemainderIs(c, CURSORS, 0, c);
    }
  }

  /** So the `i`-th of consecutive picks takes the place `Turn` says. */
  lemma TurnsFollowCursor(c: Cursor, i: nat, n: nat)
    requires n > 0
    ensures Moved(c, i) % n == Turn(c, i, n)
  {
    CursorMoved(c, i);
  }

  /** Without the cursor starting over, n picks take n different places. */
  lemma StraightTurns(c: Cursor, n: nat)
    requires 0 < n < CURSORS && c + n <= CURSORS
    ensures AllDifferent(c, n)
  {
    forall i, j | 0 <= i < j < n ensures Turn(c, i, n) != Turn(c, j, n) {
      SmallRemainder(c + i, CURSORS);
      SmallRemainder(c + j, CURSORS);
      CloseRemainders(c + i, c + j, n);
    }
  }

  /** With n dividing 2^64, starting over does no harm. */
  lemma EvenTurns(c: Cursor, n: nat, q: nat)
    requires 0 < n < CURSORS && CURSORS == q * n
    ensures AllDifferent(c, n)
  {
    forall i, j | 0 <= i < j < n ensures Turn(c, i, n) != Turn(c, j, n) {
      WrappedTurn(c, i, n, q);
      WrappedTurn(c, j, n, q);
      CloseRemainders(c + i, c + j, n);
    }
  }

  lemma WrappedTurn(c: Cursor, i: nat, n: nat, q: nat)
    requires 0 < n < CURSORS && CURSORS == q * n && i < n
    ensures Turn(c, i, n) == (c + i) % n
  {
    SmallRemainder(c + i, CURSORS);
    if c + i >= CURSORS {
      var a := c + i;
      var e, r := (a - CURSORS) / n, (a - CURSORS) % n;
      assert a - CURSORS == e * n + r;
      assert a == (e + q) * n + r by {
        assert (e + q) * n == e * n + q * n;
      }
      RemainderIs(a, n, e + q, r);
    }
  }

  /** Otherwise two of the picks around the point where the cursor starts over take the same place. */
  lemma UnevenTurns(c: Cursor, n: nat, q: nat, r: nat) returns (i: nat, j: nat)
    requires 0 < n < CURSORS && c + n > CURSORS && CURSORS == q * n + r && 0 < r < n
    ensures i < j < n && Turn(c, i, n) == Turn(c, j, n)
  {
    var k := CURSORS - c;
    if k <= r {
      i, j := 0, r;
      SmallRemainder(c + j, CURSORS);
      RemainderIs(c, n, q, r - k);
      RemainderIs(r - k, n, 0, r - k);
    } else {
      i, j := k - r, k;
      SmallRemainder(c + i, CURSORS);
      SmallRemainder(c + j, CURSORS);
      RemainderIs(c + i, n, q, 0);
      RemainderIs(0, n, 0, 0);
    }
  }

  /**
   n picks over n targets take each of them once, except when the cursor starts over in between and n does not divide
   2^64.
   */
  lemma RoundRobin(c: Cursor, n: nat)
    requires 0 < n < CURSORS
    ensures AllDifferent(c, n) <==> (c + n <= CURSORS || CURSORS % n == 0)
  {
    var q, r := CURSORS / n, CURSORS % n;
    assert CURSORS == q * n + r;
    if c + n <= CURSORS {
      StraightTurns(c, n);
    } else if r == 0 {
      EvenTurns(c, n, q);
    } else {
      var i, j := UnevenTurns(c, n, q, r);
    }
  }

  function Taken(c: Cursor, n: nat, m: nat): set<nat>
    requires n > 0
  {
    if m == 0 then {} else Taken(c, n, m - 1) + {Turn(c, m - 1, n)}
  }

  function UpTo(n: nat): set<nat> {
    if n == 0 then {} else UpTo(n - 1) + {n - 1}
  }

  lemma {:induction false} TakenBy(c: Cursor, n: nat, m: nat, place: nat) returns (i: nat)
    requires 0 < n && place in Taken(c, n, m)
    ensures i < m && Turn(c, i, n) == place
  {
    if place == Turn(c, m - 1, n) {
      i := m - 1;
    } else {
      i := TakenBy(c, n, m - 1, place);
    }
  }

  lemma {:induction false} TakenCount(c: Cursor, n: nat, m: nat)
    requires 0 < n && m <= n && AllDifferent(c, n)
    ensures |Taken(c, n, m)| == m
  {
    if m == 0 {
    } else {
      TakenCount(c, n, m - 1);
      if Turn(c, m - 1, n) in Taken(c, n, m - 1) {
        var i := TakenBy(c, n, m - 1, Turn(c, m - 1, n));
        assert false;
      }
    }
  }

  lemma {:induction false} TakenBelow(c: Cursor, n: nat, m: nat)
    requires 0 < n
    ensures forall p :: p in Taken(c, n, m) ==> p < n
  {
    if m == 0 {
    } else {
      TakenBelow(c, n, m - 1);
    }
  }

  lemma {:induction false} UpToCount(n: nat)
    ensures |UpTo(n)| == n && forall p: nat :: p in UpTo(n) <==> p < n
  {
    if n == 0 {
    } else {
      UpToCount(n - 1);
    }
  }

  lemma {:induction false} Smaller<T>(a: set<T>, b: set<T>)
    requires a <= b
    ensures |a| <= |b|
  {
    if a == {} {
    } else {
      var x :| x in a;
      Smaller(a - {x}, b - {x});
    }
  }

  /** Different places are all places. */
  lemma EveryPlaceOnce(c: Cursor, n: nat, place: nat)
    requires 0 < n && AllDifferent(c, n) && place < n
    ensures exists i :: 0 <= i < n && Turn(c, i, n) == place
  {
    TakenCount(c, n, n);
    TakenBelow(c, n, n);
    UpToCount(n);
    if place !in Taken(c, n, n) {
      Smaller(Taken(c, n, n), UpTo(n) - {place});
      assert false;
    }
    var i := TakenBy(c, n, n, place);
  }

  /** What several consecutive picks hand out while the targets to choose from stay the same. */
  function Picks(eligible: seq<Target>, c: Cursor, k: nat): seq<Target>
    requires eligible != []
  {
    if k == 0 then [] else Picks(eligible, c, k - 1) + [eligible[Moved(c, k - 1) % |eligible|]]
  }

  lemma {:induction false} PicksLength(eligible: seq<Target>, c: Cursor, k: nat)
    requires eligible != []
    ensures |Picks(eligible, c, k)| == k
  {
    if k == 0 {
    } else {
      PicksLength(eligible, c, k - 1);
    }
  }

  lemma {:induction false} PickAt(eligible: seq<Target>, c: Cursor, k: nat, i: nat)
    requires eligible != [] && i < k
    ensures |Picks(eligible, c, k)| == k && Picks(eligible, c, k)[i] == eligible[Moved(c, i) % |eligible|]
  {
    PicksLength(eligible, c, k - 1);
    if i == k - 1 {
      PicksLength(eligible, c, k);
    } else {
      PickAt(eligible, c, k - 1, i);
    }
  }

  lemma PicksAre(eligible: seq<Target>, c: Cursor, k: nat)
    requires eligible != []
    ensures |Picks(eligible, c, k)| == k
    ensures forall i :: 0 <= i < k ==> Picks(eligible, c, k)[i] == eligible[Turn(c, i, |eligible|)]
  {
    PicksLength(eligible, c, k);
    forall i | 0 <= i < k ensures Picks(eligible, c, k)[i] == eligible[Turn(c, i, |eligible|)] {
      PickAt(eligible, c, k, i);
      TurnsFollowCursor(c, i, |eligible|);
    }
  }

  /** Every target of the best available priority once, and no other. */
  ghost predicate EachBestOnce(picks: seq<Target>, targets: seq<Target>, excluded: set<int>) {
    && (forall i, j :: 0 <= i < j < |picks| ==> picks[i] != picks[j])
    && (forall i :: 0 <= i < |picks| ==> Best(targets, excluded, picks[i]))
    && (forall t :: Best(targets, excluded, t) ==> t in picks)
  }

  lemma DifferentTurns(targets: seq<Target>, excluded: set<int>, c: Cursor)
    requires Sorted(targets) && Eligible(targets, excluded) != []
    ensures var eligible := Eligible(targets, excluded);
            AllDifferent(c, |eligible|) ==> EachBestOnce(Picks(eligible, c, |eligible|), targets, excluded)
  {
    var eligible := Eligible(targets, excluded);
    var n := |eligible|;
    var picks := Picks(eligible, c, n);
    PicksAre(eligible, c, n);
    ScanDistinct(targets, excluded, []);
    if AllDifferent(c, n) {
      forall i, j | 0 <= i < j < n ensures picks[i] != picks[j] {
        assert Turn(c, i, n) != Turn(c, j, n);
      }
      forall i | 0 <= i < n ensures Best(targets, excluded, picks[i]) {
        EligibleAreBest(targets, excluded, picks[i]);
      }
      forall t | Best(targets, excluded, t) ensures t in picks {
        EligibleAreBest(targets, excluded, t);
        var place :| 0 <= place < n && eligible[place] == t;
        EveryPlaceOnce(c, n, place);
        var i :| 0 <= i < n && Turn(c, i, n) == place;
        assert picks[i] == t;
      }
    }
  }

  /**
   As many picks in a row as there are targets to choose from hand out each of them exactly once, except when the 64-bit
   cursor starts over on the way and their number does not divide 2^64.
   */
  lemma EachTargetOnce(targets: seq<Target>, excluded: set<int>, c: Cursor)
    requires Sorted(targets) && 0 < |Eligible(targets, excluded)| < CURSORS
    ensures var eligible := Eligible(targets, excluded);
            EachBestOnce(Picks(eligible, c, |eligible|), targets, excluded) <==>
              (c + |eligible| <= CURSORS || CURSORS % |eligible| == 0)
  {
    var eligible := Eligible(targets, excluded);
    var n := |eligible|;
    RoundRobin(c, n);
    DifferentTurns(targets, excluded, c);
    PicksAre(eligible, c, n);
    if !AllDifferent(c, n) {
      var i, j :| 0 <= i < j < n && Turn(c, i, n) == Turn(c, j, n);
      assert Picks(eligible, c, n)[i] == Picks(eligible, c, n)[j];
    }
  }

  // ---------------------------------------------------------------- the selector

  predicate ValidTarget(t: Target, valid: string -> bool) {
    t.id > 0 && 1 <= t.priority <= 65535 && valid(t.address)
  }

  predicate ValidTargets(targets: seq<Target>, valid: string -> bool) {
    && (forall i :: 0 <= i < |targets| ==> ValidTarget(targets[i], valid))
    && (forall i, j :: 0 <= i < j < |targets| ==>
          targets[i].id != targets[j].id && targets[i].address != targets[j].address)
  }

  lemma InsertedSorted(front: seq<Target>, t: Target, back: seq<Target>)
    requires Sorted(front + back)
    requires forall i :: 0 <= i < |front| ==> Before(front[i], t)
    requires forall i :: 0 <= i < |back| ==> Before(t, back[i])
    ensures Sorted(front + [t] + back)
  {
    var whole, grown := front + back, front + [t] + back;
    forall i, j | 0 <= i < j < |grown| ensures Before(grown[i], grown[j]) {
      var before, after := if i < |front| then i else i - 1, if j <= |front| then j else j - 1;
      assert i != |front| ==> grown[i] == whole[before];
      assert j != |front| ==> grown[j] == whole[after];
    }
  }

  lemma InsertedMultiset(front: seq<Target>, t: Target, back: seq<Target>)
    ensures multiset(front + [t] + back) == multiset(front + back) + multiset{t}
  {
  }

  method Insert(ordered: seq<Target>, t: Target) returns (grown: seq<Target>)
    requires Sorted(ordered) && forall u :: u in ordered ==> u.id != t.id
    ensures Sorted(grown) && multiset(grown) == multiset(ordered) + multiset{t}
  {
    var k := |ordered|;
    while k > 0 && Before(t, ordered[k - 1])
      invariant 0 <= k <= |ordered|
      invariant forall j :: k <= j < |ordered| ==> Before(t, ordered[j])
    {
      k := k - 1;
    }
    assert ordered == ordered[..k] + ordered[k..];
    forall i | 0 <= i < k ensures Before(ordered[i], t) {
      assert ordered[k - 1] in ordered;
      assert i < k - 1 ==> Before(ordered[i], ordered[k - 1]);
    }
    InsertedSorted(ordered[..k], t, ordered[k..]);
    InsertedMultiset(ordered[..k], t, ordered[k..]);
    grown := ordered[..k] + [t] + ordered[k..];
  }

  method Sort(targets: seq<Target>) returns (ordered: seq<Target>)
    requires forall i, j :: 0 <= i < j < |targets| ==> targets[i].id != targets[j].id
    ensures Sorted(ordered) && multiset(ordered) == multiset(targets)
  {
    ordered := [];
    for i := 0 to |targets|
      invariant Sorted(ordered) && multiset(ordered) == multiset(targets[..i])
    {
      assert targets[..i + 1] == targets[..i] + [targets[i]];
      forall u | u in ordered ensures u.id != targets[i].id {
        assert u in multiset(targets[..i]);
        var k :| 0 <= k < i && targets[k] == u;
      }
      ordered := Insert(ordered, targets[i]);
    }
    assert targets[..|targets|] == targets;
  }

  /** No target so far has this number or this address. */
  predicate Unused(list: seq<Target>, i: nat, t: Target)
    requires i <= |list|
  {
    forall k :: 0 <= k < i ==> list[k].id != t.id && list[k].address != t.address
  }

  /** The numbers and the addresses of the first `i` targets. */
  predicate Noted(list: seq<Target>, i: nat, seen: set<int>, addresses: set<string>)
    requires i <= |list|
  {
    && seen == (set k | 0 <= k < i :: list[k].id)
    && addresses == (set k | 0 <= k < i :: list[k].address)
  }

  lemma NotedUnused(list: seq<Target>, i: nat, seen: set<int>, addresses: set<string>, t: Target)
    requires i <= |list| && Noted(list, i, seen, addresses)
    ensures t.id !in seen && t.address !in addresses <==> Unused(list, i, t)
  {
  }

  method CheckTargets(list: seq<Target>, valid: string -> bool) returns (ok: bool)
    ensures ok == ValidTargets(list, valid)
  {
    var seen: set<int>, addresses: set<string> := {}, {};
    for i := 0 to |list|
      invariant forall k :: 0 <= k < i ==> ValidTarget(list[k], valid) && Unused(list, k, list[k])
      invariant Noted(list, i, seen, addresses)
    {
      var t := list[i];
      NotedUnused(list, i, seen, addresses, t);
      if t.id <= 0 || t.id in seen || t.priority < 1 || t.priority > 65535 || !valid(t.address)
         || t.address in addresses {
        Refuses(list, valid, i);
        return false;
      }
      seen, addresses := seen + {t.id}, addresses + {t.address};
    }
    Accepts(list, valid);
    return true;
  }

  lemma Accepts(list: seq<Target>, valid: string -> bool)
    requires forall k :: 0 <= k < |list| ==> ValidTarget(list[k], valid) && Unused(list, k, list[k])
    ensures ValidTargets(list, valid)
  {
    forall j, k | 0 <= j < k < |list| ensures list[j].id != list[k].id && list[j].address != list[k].address {
      assert Unused(list, k, list[k]);
    }
  }

  lemma Refuses(list: seq<Target>, valid: string -> bool, i: nat)
    requires i < |list| && !(ValidTarget(list[i], valid) && Unused(list, i, list[i]))
    ensures !ValidTargets(list, valid)
  {
  }

  lemma SortedUnique(list: seq<Target>, ordered: seq<Target>)
    requires multiset(ordered) == multiset(list) && forall i, j :: 0 <= i < j < |list| ==> list[i].id != list[j].id
    ensures UniqueIds(ordered)
  {
    forall t, u | t in ordered && u in ordered && t.id == u.id ensures t == u {
      assert t in multiset(list) && u in multiset(list);
      var i :| 0 <= i < |list| && list[i] == t;
      var j :| 0 <= j < |list| && list[j] == u;
    }
  }

  class Selector {
    var targets: seq<Target>
    var cursors: map<int, Cursor>

    constructor ()
      ensures targets == [] && cursors == map[]
    {
      targets, cursors := [], map[];
    }

    function CursorOf(priority: int): Cursor
      reads this
    {
      if priority in cursors then cursors[priority] else 0
    }

    /** `valid` says whether an address names a host and a port. */
    method Update(list: seq<Target>, valid: string -> bool) returns (ok: bool)
      modifies `targets
      ensures ok == ValidTargets(list, valid)
      ensures if ok then Sorted(targets) && UniqueIds(targets) && multiset(targets) == multiset(list)
              else targets == old(targets)
    {
      ok := CheckTargets(list, valid);
      if !ok {
        return;
      }
      targets := Sort(list);
      SortedUnique(list, targets);
      return true;
    }

    /** The next target of the best priority that is available and not excluded. */
    method Pick(excluded: set<int>) returns (target: Option<Target>)
      modifies `cursors
      ensures target.None? <==> Eligible(targets, excluded) == []
      ensures target.None? ==> cursors == old(cursors)
      ensures target.Some? ==>
                var eligible, priority := Eligible(targets, excluded), Eligible(targets, excluded)[0].priority;
                && target.value == eligible[old(CursorOf(priority)) % |eligible|]
                && cursors == old(cursors)[priority := (old(CursorOf(priority)) + 1) % CURSORS]
    {
      var eligible: seq<Target> := [];
      var i := 0;
      while i < |targets|
        invariant 0 <= i <= |targets|
        invariant Scan(targets[i..], excluded, eligible) == Eligible(targets, excluded)
        invariant cursors == old(cursors)
      {
        var target := targets[i];
        assert targets[i..][1..] == targets[i + 1..];
        if !target.online || target.id in excluded {
          i := i + 1;
          continue;
        }
        if |eligible| > 0 && eligible[0].priority != target.priority {
          break;
        }
        eligible := eligible + [target];
        i := i + 1;
      }
      if |eligible| == 0 {
        return None;
      }
      var priority := eligible[0].priority;
      var cursor := CursorOf(priority);
      cursors := cursors[priority := (cursor + 1) % CURSORS];
      return Some(eligible[cursor % |eligible|]);
    }
  }

  // ---------------------------------------------------------------- failover

  /** Any other connections may pick in the meantime. */
  method OthersPick(s: Selector)
    modifies s`cursors
  {
    s.cursors := *;
  }

  predicate UniqueIds(targets: seq<Target>) {
    forall t, u :: t in targets && u in targets && t.id == u.id ==> t == u
  }

  function Ids(targets: seq<Target>): set<int> {
    set t | t in targets :: t.id
  }

  predicate Ascending(tried: seq<Target>) {
    forall i, j :: 0 <= i < j < |tried| ==> tried[i].id != tried[j].id && tried[i].priority <= tried[j].priority
  }

  lemma PickIsBest(targets: seq<Target>, excluded: set<int>, t: Target)
    requires Sorted(targets) && t in Eligible(targets, excluded)
    ensures Best(targets, excluded, t)
  {
    EligibleAreBest(targets, excluded, t);
  }

  lemma NothingLeft(targets: seq<Target>, excluded: set<int>)
    requires Sorted(targets) && Eligible(targets, excluded) == []
    ensures forall t :: t in targets ==> !Available(t, excluded)
  {
    forall t | t in targets ensures !Available(t, excluded) {
      if exists u :: u in targets && Available(u, excluded) {
        var best := BestExists(targets, excluded);
        EligibleAreBest(targets, excluded, best);
      }
    }
  }

  lemma {:induction false} BestExists(targets: seq<Target>, excluded: set<int>) returns (best: Target)
    requires Sorted(targets) && exists u :: u in targets && Available(u, excluded)
    ensures Best(targets, excluded, best)
  {
    var head, tail := targets[0], targets[1..];
    assert targets == [head] + tail;
    if Available(head, excluded) {
      best := head;
    } else {
      best := BestExists(tail, excluded);
    }
  }

  /** The search so far: what was tried is excluded, best priorities first, and nothing better is left. */
  ghost predicate Searched(targets: seq<Target>, excluded: set<int>, tried: seq<Target>) {
    && Ascending(tried) && (forall t :: t in tried ==> t in targets && t.online)
    && excluded == Ids(tried)
    && (forall t, u :: t in tried && u in targets && Available(u, excluded) ==> t.priority <= u.priority)
  }

  lemma SearchNext(targets: seq<Target>, excluded: set<int>, tried: seq<Target>, t: Target)
    requires Searched(targets, excluded, tried) && Best(targets, excluded, t)
    ensures Searched(targets, excluded + {t.id}, tried + [t])
    ensures Ids(targets) - (excluded + {t.id}) < Ids(targets) - excluded
  {
    var grown := tried + [t];
    assert t.id in Ids(targets) && t.id !in excluded;
    forall u | u in tried ensures u.id != t.id {
      assert u.id in Ids(tried);
    }
    forall i, j | 0 <= i < j < |grown| ensures grown[i].id != grown[j].id && grown[i].priority <= grown[j].priority {
      assert grown[i] == tried[i] && tried[i] in tried;
    }
    assert Ids(grown) == Ids(tried) + {t.id} by {
      assert forall u :: u in grown <==> u in tried || u == t;
    }
  }

  lemma SearchedAll(targets: seq<Target>, excluded: set<int>, tried: seq<Target>)
    requires Searched(targets, excluded, tried) && UniqueIds(targets) && forall t :: t in targets ==>
              !Available(t, excluded)
    ensures forall t :: t in targets && t.online ==> t in tried
  {
    forall t | t in targets && t.online ensures t in tried {
      assert t.id in Ids(tried);
      var u :| u in tried && u.id == t.id;
    }
  }

  /**
   One connection's search for a target that answers, over a fixed list. Every online target is tried at most once, best
   priorities first; without a time-out the search gives up only after all of them have failed.
   */
  method Connect(s: Selector) returns (answered: Option<Target>, timedOut: bool, ghost tried: seq<Target>)
    requires Sorted(s.targets) && UniqueIds(s.targets)
    modifies s`cursors
    ensures Ascending(tried) && forall t :: t in tried ==> t in s.targets && t.online
    ensures answered.Some? ==> tried != [] && answered.value == tried[|tried| - 1]
    ensures answered.None? && !timedOut ==> forall t :: t in s.targets && t.online ==> t in tried
  {
    var excluded: set<int> := {};
    tried := [];
    while true
      invariant Searched(s.targets, excluded, tried)
      decreases Ids(s.targets) - excluded
    {
      OthersPick(s);
      var target := s.Pick(excluded);
      if target.None? {
        NothingLeft(s.targets, excluded);
        SearchedAll(s.targets, excluded, tried);
        return None, false, tried;
      }
      timedOut := *;
      if timedOut {
        return None, true, tried;
      }
      PickIsBest(s.targets, excluded, target.value);
      SearchNext(s.targets, excluded, tried, target.value);
      excluded := excluded + {target.value.id};
      tried := tried + [target.value];
      var connected: bool := *;
      if connected {
        return target, false, tried;
      }
    }
  }
}
