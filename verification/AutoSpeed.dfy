/**
 Temporary speed limits: each sample updates a small state per user, and the lemmas say what that state means in terms
 of the samples themselves.
 */
module AutoSpeed {
  import opened Common

  /** A moment: whole seconds, and the fraction of the second. */
  datatype Time = Time(second: int, fraction: int) {
    predicate Before(other: Time) { second < other.second || (second == other.second && fraction < other.fraction) }

    predicate UpTo(other: Time) { !other.Before(this) }

    function Plus(seconds: int): Time { this.(second := second + seconds) }

    function Minus(seconds: int): Time { this.(second := second - seconds) }
  }

  datatype Mode = Continuous | Window | OtherMode

  datatype Direction = Upload | Download | Larger | OtherDirection

  datatype Rule = Rule(enabled: bool, mode: Mode, direction: Direction, threshold: int, target: int, duration: int,
                       window: int, hits: int, hold: int) {
    predicate Valid() {
      && enabled && 1 <= threshold <= 100000 && 1 <= target < threshold && 1 <= hold <= 86400
      && direction != OtherDirection
      && ((mode == Continuous && 3 <= duration <= 3600)
          || (mode == Window && 3 <= window <= 3600 && 1 <= hits <= window))
    }
  }

  /** `until` is in seconds, 0 for none.  The digest of the rule is the rule itself here. */
  datatype Penalty = Penalty(limit: int, until: int, rule: Option<Rule>)

  const NoPenalty: Penalty := Penalty(0, 0, None)

  datatype User = User(config: Rule, since: Option<Time>, hits: seq<Time>, penalty: Penalty)

  datatype Rate = Rate(upload: int, download: int)

  const NoRate: Rate := Rate(0, 0)

  /** Bytes per second against a threshold in megabits per second. */
  predicate Above(rule: Rule, rate: Rate) {
    var speed := if rule.direction == Upload then rate.upload
                 else if rule.direction == Larger then Max(rate.upload, rate.download) else rate.download;
    speed * 8 > rule.threshold * 1_000_000
  }

  // ---------------------------------------------------------------- rules

  function FreshUser(rule: Rule): User {
    User(rule, None, [], NoPenalty)
  }

  predicate KeepsState(users: map<int, User>, id: int, rule: Rule) {
    id in users && users[id].config == rule
  }

  /** Users keep their state exactly as long as their rule stays the same; an invalid or missing rule drops them. */
  function SyncOf(users: map<int, User>, rules: map<int, Option<Rule>>): map<int, User> {
    map id | id in rules && rules[id].Some? && (KeepsState(users, id, rules[id].value) || rules[id].value.Valid()) ::
      if KeepsState(users, id, rules[id].value) then users[id] else FreshUser(rules[id].value)
  }

  // ---------------------------------------------------------------- one sample of one user

  /** The hits later than a moment, given that they ascend. */
  function Recent(hits: seq<Time>, after: Time): seq<Time> {
    if hits != [] && !after.Before(hits[0]) then Recent(hits[1..], after) else hits
  }

  predicate EndsIn(hits: seq<Time>, at: Time) {
    hits != [] && hits[|hits| - 1].second == at.second
  }

  /** One hit per second at most. */
  function WithHit(hits: seq<Time>, at: Time, above: bool): seq<Time> {
    if above && !EndsIn(hits, at) then hits + [at] else hits
  }

  function Counted(user: User, at: Time, above: bool): User {
    if user.config.mode == Continuous then
      user.(since := if !above then None else if user.since.None? then Some(at) else user.since)
    else
      user.(hits := WithHit(Recent(user.hits, at.Minus(user.config.window)), at, above))
  }

  /** `later` is at least so many seconds after `at`. */
  predicate Elapsed(at: Time, later: Time, seconds: int) {
    !later.Before(at.Plus(seconds))
  }

  /** Whether the rule is met; `was` is the state before the sample. */
  predicate Triggers(was: User, user: User, at: Time, above: bool) {
    if user.config.mode == Continuous
    then above && was.since.Some? && Elapsed(was.since.value, at, user.config.duration)
    else |user.hits| >= user.config.hits
  }

  function Punished(user: User, now: Time): User {
    user.(penalty := Penalty(user.config.target, now.second + user.config.hold, Some(user.config)), since := None,
          hits := [])
  }

  function Sampled(user: User, at: Time, above: bool, now: Time): User {
    var counted := Counted(user, at, above);
    if Triggers(user, counted, at, above) then Punished(counted, now) else counted
  }

  function Forgiven(user: User): User {
    user.(penalty := NoPenalty, since := None, hits := [])
  }

  function Cleared(user: User): User {
    user.(since := None, hits := [])
  }

  /**
   `sample` is the time of a new sample, `None` if this sample was seen before; `rate` is `None` when there are no
   rates.
   */
  function StepUser(user: User, sample: Option<Time>, gap: bool, rate: Option<Rate>, now: Time): User {
    if user.penalty.until > now.second then user
    else if user.penalty.until != 0 then Forgiven(user)
    else if sample.None? then user
    else
      var start := if gap || rate.None? then Cleared(user) else user;
      if rate.None? then start else Sampled(start, sample.value, Above(user.config, rate.value), now)
  }

  predicate IsGap(last: Option<Time>, at: Time) {
    last.None? || last.value.Plus(5).Before(at) || at.Before(last.value)
  }

  function RateOf(rates: Option<map<int, Rate>>, id: int): Option<Rate> {
    if rates.None? then None else Some(if id in rates.value then rates.value[id] else NoRate)
  }

  function NewSample(last: Option<Time>, sampledAt: Option<Time>): Option<Time> {
    if sampledAt == last then None else sampledAt
  }

  function UpdateOf(users: map<int, User>, last: Option<Time>, rates: Option<map<int, Rate>>, sampledAt: Option<Time>,
                    now: Time): map<int, User> {
    var sample := NewSample(last, sampledAt);
    map id | id in users :: StepUser(users[id], sample, sample.Some? && IsGap(last, sample.value), RateOf(rates, id),
                                     now)
  }

  function SnapshotOf(users: map<int, User>, now: Time): map<int, Penalty> {
    map id | id in users && users[id].penalty.until > now.second :: users[id].penalty
  }

  predicate Restorable(user: User, p: Penalty, now: Time) {
    && p.rule == Some(user.config) && p.limit == user.config.target
    && now.second < p.until <= now.second + user.config.hold
  }

  function RestoreOf(users: map<int, User>, saved: map<int, Penalty>, now: Time): map<int, User> {
    map id | id in users :: if id in saved && Restorable(users[id], saved[id], now)
                            then users[id].(penalty := saved[id]) else users[id]
  }

  // ---------------------------------------------------------------- what the state means

  /** One sample that counted: when, and whether it was above the threshold. */
  datatype Point = Point(at: Time, above: bool)

  /** Times strictly ascend. */
  predicate Ordered(history: seq<Point>) {
    forall i, j :: 0 <= i < j < |history| ==> history[i].at.Before(history[j].at)
  }

  /** Everything from position `i` on is above, and what stands before is not. */
  predicate RunFrom(history: seq<Point>, i: int) {
    && 0 <= i < |history| && (forall k :: i <= k < |history| ==> history[k].above)
    && (i > 0 ==> !history[i - 1].above)
  }

  /** `since` is the start of the unbroken run of samples above the threshold, if the last sample is. */
  ghost predicate MeansSince(history: seq<Point>, since: Option<Time>) {
    if history == [] || !history[|history| - 1].above then since.None?
    else since.Some? && exists i :: RunFrom(history, i) && history[i].at == since.value
  }

  /** No earlier sample of the same second was above the threshold. */
  predicate OpensSecond(history: seq<Point>, i: nat)
    requires i < |history|
  {
    history[i].above && forall j :: 0 <= j < i && history[j].above ==> history[j].at.second != history[i].at.second
  }

  /** What sample `i` adds to the hits later than `after`. */
  function Opener(history: seq<Point>, i: nat, after: Time): seq<Time>
    requires i < |history|
  {
    if OpensSecond(history, i) && after.Before(history[i].at) then [history[i].at] else []
  }

  /**
   The times of the first sample above the threshold in each second, later than `after`, among the first `n` samples.
   */
  function Openers(history: seq<Point>, n: nat, after: Time): seq<Time>
    requires n <= |history|
  {
    if n == 0 then [] else Openers(history, n - 1, after) + Opener(history, n - 1, after)
  }

  /** The first hits of each second within the window that ends with the last sample. */
  function WindowHits(history: seq<Point>, window: int): seq<Time> {
    if history == [] then [] else Openers(history, |history|, history[|history| - 1].at.Minus(window))
  }

  /** The state is what the samples since the last reset say it is. */
  ghost predicate Means(user: User, history: seq<Point>) {
    && Ordered(history) && user.config.Valid()
    && (user.config.mode == Continuous ==> user.hits == [] && MeansSince(history, user.since))
    && (user.config.mode == Window ==> user.since == None && user.hits == WindowHits(history, user.config.window))
  }

  /** The samples meet the rule: an unbroken run long enough, or enough seconds with a sample above the threshold. */
  ghost predicate Meets(rule: Rule, history: seq<Point>) {
    && history != []
    && if rule.mode == Continuous then
         exists i :: RunFrom(history, i) && Elapsed(history[i].at, history[|history| - 1].at, rule.duration)
       else
         |WindowHits(history, rule.window)| >= rule.hits
  }

  // ---------------------------------------------------------------- the step keeps the meaning

  lemma RunExtends(history: seq<Point>, at: Time, since: Option<Time>)
    requires MeansSince(history, since)
    ensures var grown := history + [Point(at, true)];
            MeansSince(grown, if since.None? then Some(at) else since)
  {
    var n, grown := |history|, history + [Point(at, true)];
    if since.None? {
      assert RunFrom(grown, n) && grown[n].at == at;
    } else {
      var i :| RunFrom(history, i) && history[i].at == since.value;
      assert RunFrom(grown, i) && grown[i].at == since.value;
    }
  }

  /** There is only one place where the unbroken run can start. */
  lemma RunIsOne(history: seq<Point>, i: int, j: int)
    requires RunFrom(history, i) && RunFrom(history, j)
    ensures i == j
  {
    assert (i > 0 ==> !history[i - 1].above) && (j > 0 ==> !history[j - 1].above);
  }

  predicate Between(after: Time, t: Time, until: Time) {
    after.Before(t) && t.UpTo(until)
  }

  /** The `k`-th opener lies between the start of the window and the last sample looked at. */
  lemma {:induction false} OpenerWithin(history: seq<Point>, n: nat, after: Time, k: nat)
    requires Ordered(history) && n <= |history| && k < |Openers(history, n, after)|
    ensures n > 0 && Between(after, Openers(history, n, after)[k], history[n - 1].at)
  {
    var found := Openers(history, n - 1, after);
    if k < |found| {
      OpenerWithin(history, n - 1, after, k);
      assert Openers(history, n, after)[k] == found[k];
    }
  }

  lemma {:induction false} OpenersWithin(history: seq<Point>, n: nat, after: Time)
    requires Ordered(history) && n <= |history|
    ensures forall k :: 0 <= k < |Openers(history, n, after)| ==>
              n > 0 && Between(after, Openers(history, n, after)[k], history[n - 1].at)
    ensures forall k, l :: 0 <= k < l < |Openers(history, n, after)| ==>
              Openers(history, n, after)[k].Before(Openers(history, n, after)[l])
  {
    forall k | 0 <= k < |Openers(history, n, after)|
      ensures n > 0 && Between(after, Openers(history, n, after)[k], history[n - 1].at)
    {
      OpenerWithin(history, n, after, k);
    }
    if n == 0 {
    } else {
      OpenersWithin(history, n - 1, after);
      AppendAscends(Openers(history, n - 1, after), Opener(history, n - 1, after));
    }
  }

  lemma AppendAscends(found: seq<Time>, last: seq<Time>)
    requires |last| <= 1 && forall k, l :: 0 <= k < l < |found| ==> found[k].Before(found[l])
    requires |last| == 1 ==> forall k :: 0 <= k < |found| ==> found[k].Before(last[0])
    ensures forall k, l :: 0 <= k < l < |found + last| ==> (found + last)[k].Before((found + last)[l])
    ensures forall k :: 0 <= k < |found + last| ==> (found + last)[k] == if k < |found| then found[k] else last[0]
  {
  }

  lemma {:induction false} RecentConcat(a: seq<Time>, b: Time, after: Time)
    requires forall k, l :: 0 <= k < l < |a| ==> a[k].Before(a[l])
    requires forall k :: 0 <= k < |a| ==> a[k].Before(b)
    ensures Recent(a + [b], after) == if after.Before(b) then Recent(a, after) + [b] else []
  {
    if a == [] {
      assert [] + [b] == [b] && [b][1..] == [];
    } else {
      assert (a + [b])[1..] == a[1..] + [b];
      RecentConcat(a[1..], b, after);
    }
  }

  /** One more opener behind those there are; `later` is what of it the later window shows. */
  lemma RecentOneMore(found: seq<Time>, left: seq<Time>, last: seq<Time>, later: seq<Time>, after: Time)
    requires |last| <= 1 && Recent(found, after) == left
    requires forall k, l :: 0 <= k < l < |found| ==> found[k].Before(found[l])
    requires forall k :: 0 <= k < |found| ==> |last| == 1 ==> found[k].Before(last[0])
    requires later == if last != [] && after.Before(last[0]) then last else []
    requires last != [] && !after.Before(last[0]) ==> left == []
    ensures Recent(found + last, after) == left + later
  {
    if last == [] {
      assert found + last == found && left + later == left;
    } else {
      assert last == [last[0]];
      RecentConcat(found, last[0], after);
      if !after.Before(last[0]) {
        assert left + later == [];
      }
    }
  }

  /** Moving the window on is the same as looking through the later window from the start. */
  lemma {:induction false} OpenersMoved(history: seq<Point>, n: nat, before: Time, after: Time)
    requires Ordered(history) && n <= |history| && before.UpTo(after)
    ensures Recent(Openers(history, n, before), after) == Openers(history, n, after)
  {
    if n == 0 {
    } else {
      OpenersMoved(history, n - 1, before, after);
      OpenersWithin(history, n - 1, before);
      if history[n - 1].at.UpTo(after) {
        NothingAfter(history, n - 1, after);
      }
      RecentOneMore(Openers(history, n - 1, before), Openers(history, n - 1, after), Opener(history, n - 1, before),
                    Opener(history, n - 1, after), after);
    }
  }

  lemma {:induction false} NothingAfter(history: seq<Point>, n: nat, after: Time)
    requires Ordered(history) && n <= |history| && (n < |history| ==> history[n].at.UpTo(after))
    requires n == |history| > 0 ==> history[n - 1].at.UpTo(after)
    ensures Openers(history, n, after) == []
  {
    if n == 0 {
    } else {
      NothingAfter(history, n - 1, after);
    }
  }

  /** Among the first `n` samples, one of this second is above the threshold. */
  predicate HasAbove(history: seq<Point>, n: nat, at: Time)
    requires n <= |history|
  {
    exists j :: 0 <= j < n && history[j].above && history[j].at.second == at.second
  }

  lemma OpensWhenFirst(history: seq<Point>, i: nat)
    requires i < |history|
    ensures OpensSecond(history, i) <==> history[i].above && !HasAbove(history, i, history[i].at)
  {
  }

  /** A sample of an earlier second leaves nothing of this one behind. */
  lemma EarlierSecond(history: seq<Point>, n: nat, at: Time)
    requires Ordered(history) && 0 < n <= |history| && history[n - 1].at.Before(at)
             && history[n - 1].at.second != at.second
    ensures !HasAbove(history, n, at)
  {
    forall j | 0 <= j < n ensures history[j].at.second != at.second {
      SecondsBetween(history[j].at, history[n - 1].at, at);
    }
  }

  /** The last opener tells whether this second already has one. */
  lemma {:induction false} LastOpener(history: seq<Point>, n: nat, after: Time, at: Time)
    requires Ordered(history) && n <= |history| && (n > 0 ==> history[n - 1].at.Before(at)) && after.Plus(3).UpTo(at)
    ensures HasAbove(history, n, at) <==> EndsIn(Openers(history, n, after), at)
  {
    if n == 0 {
    } else {
      if history[n - 1].at.second == at.second {
        LastOpener(history, n - 1, after, at);
        OpensWhenFirst(history, n - 1);
        assert HasAbove(history, n - 1, history[n - 1].at) == HasAbove(history, n - 1, at);
        assert after.Before(history[n - 1].at);
        assert Openers(history, n - 1, after) + [] == Openers(history, n - 1, after);
      } else {
        EarlierSecond(history, n, at);
        OpenersEarlier(history, n, after, at);
      }
    }
  }

  lemma OpenersEarlier(history: seq<Point>, n: nat, after: Time, at: Time)
    requires Ordered(history) && 0 < n <= |history| && history[n - 1].at.Before(at)
             && history[n - 1].at.second != at.second
    ensures !EndsIn(Openers(history, n, after), at)
  {
    OpenersWithin(history, n, after);
    var found := Openers(history, n, after);
    if found != [] {
      SecondsBetween(found[|found| - 1], history[n - 1].at, at);
    }
  }

  lemma SecondsBetween(a: Time, b: Time, c: Time)
    requires a.UpTo(b) && b.Before(c) && b.second != c.second
    ensures a.second != c.second
  {
  }

  lemma OrderedGrows(history: seq<Point>, p: Point)
    requires Ordered(history) && (history != [] ==> history[|history| - 1].at.Before(p.at))
    ensures Ordered(history + [p])
  {
    var grown := history + [p];
    forall i, j | 0 <= i < j < |grown| ensures grown[i].at.Before(grown[j].at) {
      assert history[i].at.UpTo(history[|history| - 1].at);
    }
  }

  /** Looking at the first samples only, later ones make no difference. */
  lemma {:induction false} OpenersOfPrefix(history: seq<Point>, p: Point, n: nat, after: Time)
    requires n <= |history|
    ensures Openers(history + [p], n, after) == Openers(history, n, after)
  {
    if n == 0 {
    } else {
      var grown := history + [p];
      OpenersOfPrefix(history, p, n - 1, after);
      assert forall j :: 0 <= j < n ==> grown[j] == history[j];
      assert OpensSecond(grown, n - 1) == OpensSecond(history, n - 1);
    }
  }

  lemma NewOpener(history: seq<Point>, after: Time, at: Time, above: bool)
    requires Ordered(history) && (history != [] ==> history[|history| - 1].at.Before(at)) && after.Plus(3).UpTo(at)
    ensures Opener(history + [Point(at, above)], |history|, after)
         == if above && !EndsIn(Openers(history, |history|, after), at) then [at] else []
  {
    var n, grown := |history|, history + [Point(at, above)];
    OpensWhenFirst(grown, n);
    LastOpener(history, n, after, at);
    assert forall j :: 0 <= j < n ==> grown[j] == history[j];
    assert HasAbove(grown, n, at) == HasAbove(history, n, at);
  }

  lemma WindowMoves(history: seq<Point>, window: int, at: Time)
    requires Ordered(history) && (history != [] ==> history[|history| - 1].at.Before(at))
    ensures Recent(WindowHits(history, window), at.Minus(window)) == Openers(history, |history|, at.Minus(window))
  {
    if history != [] {
      OpenersMoved(history, |history|, history[|history| - 1].at.Minus(window), at.Minus(window));
    }
  }

  lemma WindowGrows(history: seq<Point>, window: int, at: Time, above: bool)
    ensures var after, p := at.Minus(window), Point(at, above);
            WindowHits(history + [p], window)
            == Openers(history, |history|, after) + Opener(history + [p], |history|, after)
  {
    OpenersOfPrefix(history, Point(at, above), |history|, at.Minus(window));
  }

  /** In the window mode, counting a sample gives what the longer history says. */
  lemma HitsStep(history: seq<Point>, window: int, at: Time, above: bool)
    requires Ordered(history) && 3 <= window && (history != [] ==> history[|history| - 1].at.Before(at))
    ensures WithHit(Recent(WindowHits(history, window), at.Minus(window)), at, above)
            == WindowHits(history + [Point(at, above)], window)
  {
    WindowMoves(history, window, at);
    WindowGrows(history, window, at, above);
    NewOpener(history, at.Minus(window), at, above);
    WithHitAppends(Openers(history, |history|, at.Minus(window)), at, above);
  }

  lemma WithHitAppends(hits: seq<Time>, at: Time, above: bool)
    ensures WithHit(hits, at, above) == hits + (if above && !EndsIn(hits, at) then [at] else [])
  {
  }

  lemma CountedMeans(user: User, history: seq<Point>, at: Time, above: bool)
    requires Means(user, history) && (history != [] ==> history[|history| - 1].at.Before(at))
    ensures Means(Counted(user, at, above), history + [Point(at, above)])
  {
    OrderedGrows(history, Point(at, above));
    if user.config.mode == Continuous {
      CountedRun(history, user.since, at, above);
    } else {
      HitsStep(history, user.config.window, at, above);
    }
  }

  lemma CountedRun(history: seq<Point>, since: Option<Time>, at: Time, above: bool)
    requires MeansSince(history, since)
    ensures MeansSince(history + [Point(at, above)], if !above then None else if since.None? then Some(at) else since)
  {
    if above {
      RunExtends(history, at, since);
    }
  }

  /** A penalty is issued exactly when the samples meet the rule. */
  lemma TriggersWhenMet(user: User, history: seq<Point>, at: Time, above: bool)
    requires Means(user, history) && (history != [] ==> history[|history| - 1].at.Before(at))
    ensures Triggers(user, Counted(user, at, above), at, above) <==> Meets(user.config, history + [Point(at, above)])
  {
    if user.config.mode == Continuous {
      TriggersOnRun(user, history, at, above);
    } else {
      TriggersOnHits(user, history, at, above);
    }
  }

  lemma TriggersOnHits(user: User, history: seq<Point>, at: Time, above: bool)
    requires Means(user, history) && user.config.mode == Window
             && (history != [] ==> history[|history| - 1].at.Before(at))
    ensures Triggers(user, Counted(user, at, above), at, above) <==> Meets(user.config, history + [Point(at, above)])
  {
    HitsStep(history, user.config.window, at, above);
  }

  lemma TriggersOnRun(user: User, history: seq<Point>, at: Time, above: bool)
    requires Means(user, history) && user.config.mode == Continuous
             && (history != [] ==> history[|history| - 1].at.Before(at))
    ensures Triggers(user, Counted(user, at, above), at, above) <==> Meets(user.config, history + [Point(at, above)])
  {
    var grown, n := history + [Point(at, above)], |history|;
    assert grown[n] == Point(at, above);
    if above && user.since.Some? {
      var i :| RunFrom(history, i) && history[i].at == user.since.value;
      assert RunFrom(grown, i) && grown[i].at == history[i].at;
      forall j | RunFrom(grown, j) ensures j == i {
        RunIsOne(grown, i, j);
      }
    } else if above {
      assert RunFrom(grown, n);
      forall j | RunFrom(grown, j) ensures j == n {
        RunIsOne(grown, n, j);
      }
    } else {
      forall j ensures !RunFrom(grown, j) {
        assert 0 <= j <= n ==> !grown[n].above;
      }
    }
  }

  // ---------------------------------------------------------------- over whole runs

  /** The samples that count for a user after one more: a gap, missing rates, a penalty and its end all start over. */
  ghost function HistoryAfter(user: User, history: seq<Point>, sample: Option<Time>, gap: bool, rate: Option<Rate>,
                              now: Time): seq<Point> {
    if user.penalty.until > now.second then history
    else if user.penalty.until != 0 then []
    else if sample.None? then history
    else if rate.None? then []
    else
      var grown := Grown(history, gap, sample.value, Above(user.config, rate.value));
      if Meets(user.config, grown) then [] else grown
  }

  function Grown(history: seq<Point>, gap: bool, at: Time, above: bool): seq<Point> {
    (if gap then [] else history) + [Point(at, above)]
  }

  /** No evidence is carried through a penalty; without one, the state is what the history says. */
  ghost predicate Tracks(user: User, history: seq<Point>, last: Option<Time>) {
    && user.config.Valid()
    && (if user.penalty.until == 0 then Means(user, history) else history == [])
    && (history != [] ==> last.Some? && history[|history| - 1].at.UpTo(last.value))
  }

  /** A sample with rates, for a user without a penalty. */
  lemma SampleTracks(user: User, history: seq<Point>, at: Time, above: bool, now: Time)
    requires Means(user, history) && user.penalty.until == 0 && now.second >= 0
             && (history != [] ==> history[|history| - 1].at.Before(at))
    ensures var grown := history + [Point(at, above)];
            Tracks(Sampled(user, at, above, now), if Meets(user.config, grown) then [] else grown, Some(at))
  {
    CountedMeans(user, history, at, above);
    TriggersWhenMet(user, history, at, above);
    PunishedLater(user.config.hold, now);
  }

  lemma ClearedMeans(user: User)
    requires user.config.Valid()
    ensures Means(Cleared(user), [])
  {
  }

  lemma StepTracks(user: User, history: seq<Point>, last: Option<Time>, sampledAt: Option<Time>, rate: Option<Rate>,
                   now: Time)
    requires Tracks(user, history, last) && now.second >= 0
    ensures var sample := NewSample(last, sampledAt);
            var gap := sample.Some? && IsGap(last, sample.value);
            Tracks(StepUser(user, sample, gap, rate, now), HistoryAfter(user, history, sample, gap, rate, now),
                   if sample.Some? then sample else last)
  {
    var sample := NewSample(last, sampledAt);
    if sample.Some? && user.penalty.until == 0 && rate.Some? {
      RatedStepTracks(user, history, last, sample.value, rate.value, now);
    } else {
      ClearedMeans(user);
      if sample.Some? {
        LaterTracks(history, last, sample.value);
      }
    }
  }

  /** Without a gap, time has moved on. */
  lemma LaterTracks(history: seq<Point>, last: Option<Time>, at: Time)
    requires history != [] ==> last.Some? && history[|history| - 1].at.UpTo(last.value)
    ensures history != [] && !IsGap(last, at) ==> history[|history| - 1].at.UpTo(at)
  {
  }

  lemma RatedStepTracks(user: User, history: seq<Point>, last: Option<Time>, at: Time, rate: Rate, now: Time)
    requires Tracks(user, history, last) && now.second >= 0 && Some(at) != last && user.penalty.until == 0
    ensures Tracks(StepUser(user, Some(at), IsGap(last, at), Some(rate), now),
                   HistoryAfter(user, history, Some(at), IsGap(last, at), Some(rate), now), Some(at))
  {
    StepIsSample(user, at, IsGap(last, at), rate, now);
    HistoryIsSample(user, history, at, IsGap(last, at), rate, now);
    GappedTracks(user, history, last, at, Above(user.config, rate), now);
  }

  lemma GappedTracks(user: User, history: seq<Point>, last: Option<Time>, at: Time, above: bool, now: Time)
    requires Tracks(user, history, last) && now.second >= 0 && Some(at) != last && user.penalty.until == 0
    ensures var grown := (if IsGap(last, at) then [] else history) + [Point(at, above)];
            Tracks(Sampled(if IsGap(last, at) then Cleared(user) else user, at, above, now),
                   if Meets(user.config, grown) then [] else grown, Some(at))
  {
    if IsGap(last, at) {
      ClearedMeans(user);
      SampleTracks(Cleared(user), [], at, above, now);
    } else {
      SampleTracks(user, history, at, above, now);
    }
  }

  lemma HistoryIsSample(user: User, history: seq<Point>, at: Time, gap: bool, rate: Rate, now: Time)
    requires user.penalty.until == 0 && now.second >= 0
    ensures var grown := (if gap then [] else history) + [Point(at, Above(user.config, rate))];
            HistoryAfter(user, history, Some(at), gap, Some(rate), now) == if Meets(user.config, grown) then []
                                                                           else grown
  {
  }

  lemma PunishedLater(hold: int, now: Time)
    requires hold >= 1 && now.second >= 0
    ensures now.second + hold > 0
  {
  }

  /**
   The evidence rule in full: at a new sample with rates, a user without a penalty gets one exactly when the samples
   since the last gap, penalty or change of rule meet the rule.
   */
  lemma PenaltyExactlyWhenMet(user: User, history: seq<Point>, last: Option<Time>, at: Time, rate: Rate, now: Time)
    requires Tracks(user, history, last) && now.second >= 0 && Some(at) != last && user.penalty.until == 0
    ensures var t := StepUser(user, Some(at), IsGap(last, at), Some(rate), now);
            var grown := Grown(history, IsGap(last, at), at, Above(user.config, rate));
            && (t.penalty.until != 0 <==> Meets(user.config, grown))
            && (Meets(user.config, grown) ==>
                  t.penalty == Penalty(user.config.target, now.second + user.config.hold, Some(user.config)))
  {
    var gap := IsGap(last, at);
    ClearedMeans(user);
    StepIsSample(user, at, gap, rate, now);
    PenaltyWhenMet(if gap then Cleared(user) else user, if gap then [] else history, at, Above(user.config, rate), now);
  }

  lemma StepIsSample(user: User, at: Time, gap: bool, rate: Rate, now: Time)
    requires user.penalty.until == 0 && now.second >= 0
    ensures StepUser(user, Some(at), gap, Some(rate), now)
         == Sampled(if gap then Cleared(user) else user, at, Above(user.config, rate), now)
  {
  }

  lemma PenaltyWhenMet(user: User, history: seq<Point>, at: Time, above: bool, now: Time)
    requires Means(user, history) && now.second >= 0 && user.penalty.until == 0
             && (history != [] ==> history[|history| - 1].at.Before(at))
    ensures var t, grown := Sampled(user, at, above, now), history + [Point(at, above)];
            && (t.penalty.until != 0 <==> Meets(user.config, grown))
            && (Meets(user.config, grown) ==>
                  t.penalty == Penalty(user.config.target, now.second + user.config.hold, Some(user.config)))
  {
    TriggersWhenMet(user, history, at, above);
    PunishedLater(user.config.hold, now);
  }

  ghost predicate AllTrack(users: map<int, User>, histories: map<int, seq<Point>>, last: Option<Time>) {
    users.Keys == histories.Keys && forall id :: id in users ==> Tracks(users[id], histories[id], last)
  }

  ghost function SyncHistories(users: map<int, User>, histories: map<int, seq<Point>>,
                               rules: map<int, Option<Rule>>): map<int, seq<Point>> {
    map id | id in SyncOf(users, rules) ::
      if KeepsState(users, id, rules[id].value) && id in histories then histories[id] else []
  }

  lemma SyncTracks(users: map<int, User>, histories: map<int, seq<Point>>, last: Option<Time>,
                   rules: map<int, Option<Rule>>)
    requires AllTrack(users, histories, last)
    ensures AllTrack(SyncOf(users, rules), SyncHistories(users, histories, rules), last)
  {
  }

  ghost function UpdateHistories(users: map<int, User>, histories: map<int, seq<Point>>, last: Option<Time>,
                                 rates: Option<map<int, Rate>>,
                                 sampledAt: Option<Time>, now: Time): map<int, seq<Point>>
    requires users.Keys == histories.Keys
  {
    var sample := NewSample(last, sampledAt);
    map id | id in users ::
      HistoryAfter(users[id], histories[id], sample, sample.Some? && IsGap(last, sample.value), RateOf(rates, id), now)
  }

  lemma UpdateTracks(users: map<int, User>, histories: map<int, seq<Point>>, last: Option<Time>,
                     rates: Option<map<int, Rate>>,
                     sampledAt: Option<Time>, now: Time)
    requires AllTrack(users, histories, last) && now.second >= 0
    ensures AllTrack(UpdateOf(users, last, rates, sampledAt, now),
                     UpdateHistories(users, histories, last, rates, sampledAt, now),
                     if NewSample(last, sampledAt).Some? then sampledAt else last)
  {
    var sample := NewSample(last, sampledAt);
    var updated, seen := UpdateOf(users, last, rates, sampledAt, now),
      UpdateHistories(users, histories, last, rates, sampledAt, now);
    forall id | id in updated ensures Tracks(updated[id], seen[id], if sample.Some? then sampledAt else last) {
      StepTracks(users[id], histories[id], last, sampledAt, RateOf(rates, id), now);
    }
  }

  ghost function RestoreHistories(users: map<int, User>, histories: map<int, seq<Point>>, saved: map<int, Penalty>,
                                  now: Time): map<int, seq<Point>>
    requires users.Keys == histories.Keys
  {
    map id | id in users :: if id in saved && Restorable(users[id], saved[id], now) then [] else histories[id]
  }

  /** A restored penalty brings no evidence with it. */
  lemma RestoreTracks(users: map<int, User>, histories: map<int, seq<Point>>, last: Option<Time>,
                      saved: map<int, Penalty>, now: Time)
    requires AllTrack(users, histories, last) && now.second >= 0
    ensures AllTrack(RestoreOf(users, saved, now), RestoreHistories(users, histories, saved, now), last)
  {
    forall id | id in saved && id in users && Restorable(users[id], saved[id], now) ensures saved[id].until > 0 {
      assert now.second >= 0;
    }
  }

  datatype Event = Updated(rules: map<int, Option<Rule>>, rates: Option<map<int, Rate>>, sampledAt: Option<Time>,
                           now: Time)
                 | Restored(saved: map<int, Penalty>, rules: map<int, Option<Rule>>, now: Time)

  /** The limiter's state, and beside it the samples that count for each user. */
  datatype World = World(users: map<int, User>, last: Option<Time>, histories: map<int, seq<Point>>)

  ghost function Next(w: World, e: Event): World {
    var users, histories := SyncOf(w.users, e.rules), SyncHistories(w.users, w.histories, e.rules);
    match e
    case Updated(_, rates, sampledAt, now) =>
      World(UpdateOf(users, w.last, rates, sampledAt, now), if NewSample(w.last, sampledAt).Some? then sampledAt
                                                            else w.last,
            UpdateHistories(users, histories, w.last, rates, sampledAt, now))
    case Restored(saved, _, now) => World(RestoreOf(users, saved, now), w.last,
                                          RestoreHistories(users, histories, saved, now))
  }

  ghost function After(trace: seq<Event>): World {
    if trace == [] then World(map[], None, map[]) else Next(After(trace[..|trace| - 1]), trace[|trace| - 1])
  }

  /**
   In every run, each user's state is what the samples that count for it say, and a penalty leaves no evidence behind.
   */
  lemma {:induction false} EveryRunTracks(trace: seq<Event>)
    requires forall i :: 0 <= i < |trace| ==> trace[i].now.second >= 0
    ensures AllTrack(After(trace).users, After(trace).histories, After(trace).last)
  {
    if trace == [] {
    } else {
      var w, e := After(trace[..|trace| - 1]), trace[|trace| - 1];
      EveryRunTracks(trace[..|trace| - 1]);
      SyncTracks(w.users, w.histories, w.last, e.rules);
      var users, histories := SyncOf(w.users, e.rules), SyncHistories(w.users, w.histories, e.rules);
      match e
      case Updated(_, rates, sampledAt, now) => UpdateTracks(users, histories, w.last, rates, sampledAt, now);
      case Restored(saved, _, now) => RestoreTracks(users, histories, w.last, saved, now);
    }
  }

  /** A penalty issued by a rule comes back for the same rule, as long as it runs and the clock has not gone back. */
  lemma RestoredWhileRunning(user: User, issued: Time, now: Time)
    requires user.config.Valid() && issued.UpTo(now) && issued.second >= 0
    ensures Restorable(FreshUser(user.config), Punished(user, issued).penalty, now) <==>
              now.second < issued.second + user.config.hold
  {
    PunishedLater(user.config.hold, issued);
  }

  // ---------------------------------------------------------------- the manager

  class Manager {
    var users: map<int, User>
    var last: Option<Time>

    constructor ()
      ensures users == map[] && last == None
    {
      users, last := map[], None;
    }

    method DropMissing(rules: map<int, Option<Rule>>)
      modifies `users
      ensures forall id :: id in users <==> id in old(users) && id in rules && rules[id].Some?
      ensures forall id :: id in users ==> users[id] == old(users)[id]
    {
      ghost var was := users;
      var todo := users.Keys;
      while todo != {}
        invariant todo <= was.Keys
        invariant forall id :: id in users <==> id in was && (id in todo || (id in rules && rules[id].Some?))
        invariant forall id :: id in users ==> users[id] == was[id]
      {
        var id := Pick(todo);
        todo := todo - {id};
        if id !in rules || rules[id].None? {
          users := users - {id};
        }
      }
    }

    method SyncRules(rules: map<int, Option<Rule>>)
      modifies `users
      ensures users == SyncOf(old(users), rules)
    {
      DropMissing(rules);
      ghost var known := users;
      var left := rules.Keys;
      while left != {}
        invariant left <= rules.Keys
        invariant forall id :: id in users <==> if id in left then id in known else id in SyncOf(known, rules)
        invariant forall id :: id in users ==> users[id] == if id in left then known[id] else SyncOf(known, rules)[id]
      {
        var id := Pick(left);
        left := left - {id};
        if rules[id].None? {
          users := users - {id};
        } else if !(id in users && users[id].config == rules[id].value) {
          if !rules[id].value.Valid() {
            users := users - {id};
          } else {
            users := users[id := FreshUser(rules[id].value)];
          }
        }
      }
      DropsMissing(old(users), known, rules);
    }

    /** The part of a sample that concerns one user. */
    method Consider(user: User, id: int, sample: Option<Time>, gap: bool, rates: Option<map<int, Rate>>, now: Time)
      returns (t: User)
      ensures t == StepUser(user, sample, gap, RateOf(rates, id), now)
    {
      if user.penalty.until > now.second {
        return user;
      }
      if user.penalty.until != 0 {
        return user.(penalty := NoPenalty, since := None, hits := []);
      }
      if sample.None? {
        return user;
      }
      t := user;
      if gap || rates.None? {
        t := t.(since := None, hits := []);
      }
      if rates.Some? {
        t := Count(t, sample.value, Above(user.config, if id in rates.value then rates.value[id] else NoRate), now);
      }
    }

    method Count(user: User, at: Time, above: bool, now: Time) returns (t: User)
      ensures t == Sampled(user, at, above, now)
    {
      t := user;
      var trigger := false;
      if user.config.mode == Continuous {
        if !above {
          t := t.(since := None);
        } else if t.since.None? {
          t := t.(since := Some(at));
        } else {
          trigger := Elapsed(t.since.value, at, user.config.duration);
        }
      } else {
        var hits, after := user.hits, at.Minus(user.config.window);
        while hits != [] && !after.Before(hits[0])
          invariant Recent(hits, after) == Recent(user.hits, after)
        {
          hits := hits[1..];
        }
        if above && (hits == [] || hits[|hits| - 1].second != at.second) {
          hits := hits + [at];
        }
        t := t.(hits := hits);
        trigger := |hits| >= user.config.hits;
      }
      if trigger {
        t := t.(penalty := Penalty(user.config.target, now.second + user.config.hold, Some(user.config)), since := None,
                hits := []);
      }
    }

    method ConsiderAll(sample: Option<Time>, gap: bool, rates: Option<map<int, Rate>>, now: Time)
      modifies `users
      ensures users == map id | id in old(users) :: StepUser(old(users)[id], sample, gap, RateOf(rates, id), now)
    {
      ghost var was := users;
      var todo := users.Keys;
      while todo != {}
        invariant todo <= was.Keys && users.Keys == was.Keys
        invariant forall id :: id in was ==>
                    users[id] == if id in todo then was[id] else StepUser(was[id], sample, gap, RateOf(rates, id), now)
      {
        var id := Pick(todo);
        todo := todo - {id};
        var user := Consider(users[id], id, sample, gap, rates, now);
        users := users[id := user];
      }
    }

    method UpdateSample(rules: map<int, Option<Rule>>, rates: Option<map<int, Rate>>, sampledAt: Option<Time>,
                        now: Time)
      returns (penalties: map<int, Penalty>)
      modifies this
      ensures users == UpdateOf(SyncOf(old(users), rules), old(last), rates, sampledAt, now)
      ensures last == if NewSample(old(last), sampledAt).Some? then sampledAt else old(last)
      ensures penalties == SnapshotOf(users, now)
    {
      SyncRules(rules);
      var sample := NewSample(last, sampledAt);
      var gap := sample.Some? && IsGap(last, sample.value);
      if sample.Some? {
        last := sample;
      }
      ConsiderAll(sample, gap, rates, now);
      penalties := SnapshotOf(users, now);
    }

    method Restore(saved: map<int, Penalty>, rules: map<int, Option<Rule>>, now: Time)
      modifies `users
      ensures users == RestoreOf(SyncOf(old(users), rules), saved, now)
    {
      SyncRules(rules);
      ghost var was := users;
      var todo := saved.Keys;
      while todo != {}
        invariant todo <= saved.Keys
        invariant users.Keys == was.Keys
        invariant forall id :: id in was ==>
                    users[id] == if id in saved && id !in todo && Restorable(was[id], saved[id], now)
                                 then was[id].(penalty := saved[id]) else was[id]
      {
        var id := Pick(todo);
        todo := todo - {id};
        if id in users && Restorable(users[id], saved[id], now) {
          users := users[id := users[id].(penalty := saved[id])];
        }
      }
    }
  }

  lemma DropsMissing(users: map<int, User>, known: map<int, User>, rules: map<int, Option<Rule>>)
    requires forall id :: id in known <==> id in users && id in rules && rules[id].Some?
    requires forall id :: id in known ==> known[id] == users[id]
    ensures SyncOf(known, rules) == SyncOf(users, rules)
  {
  }
}
