/** The mailbox that folds panel events into one state while a node is not ready for them. */
module Mailbox {
  import opened Common

  datatype User = User(id: int, data: string)

  datatype Action = Add | Remove | OtherAction

  datatype Version = Version(epoch: string, sequence: nat)

  const NoVersion: Version := Version("", 0)

  /** What counts as the same kind of state: `None` is the absence of an update. */
  datatype Event =
    | SyncSnapshot(version: Version, config: Option<string>, users: Option<seq<User>>)
    | SyncConfig(version: Version, config: Option<string>)
    | SyncUsers(version: Version, users: Option<seq<User>>)
    | SyncDevices(version: Version, devices: Option<map<int, seq<string>>>)
    | SyncUserDelta(version: Version, action: Action, delta: seq<User>)

  // ---------------------------------------------------------------- versions

  datatype Gate = Gate(current: Version, retired: set<string>)

  const OpenGate: Gate := Gate(NoVersion, {})

  predicate Admits(g: Gate, v: Version) {
    if v.epoch == "" then g.current.epoch == ""
    else v.sequence != 0 && v.epoch !in g.retired && (v.epoch == g.current.epoch ==> g.current.sequence <= v.sequence)
  }

  function Through(g: Gate, v: Version): Gate {
    if !Admits(g, v) || v.epoch == "" then g
    else Gate(v, if v.epoch != g.current.epoch && g.current.epoch != "" then g.retired + {g.current.epoch}
                 else g.retired)
  }

  /** The gate after a list of versions, and which of them it let through. */
  function Passed(versions: seq<Version>): (r: (Gate, seq<Version>))
  {
    if versions == [] then (OpenGate, [])
    else
      var last, before := versions[|versions| - 1], Passed(versions[..|versions| - 1]);
      (Through(before.0, last), if Admits(before.0, last) then before.1 + [last] else before.1)
  }

  /**
   Versions let through never go back: within an epoch numbers do not fall, and an epoch left is never entered again.
   */
  predicate NeverGoesBack(passed: seq<Version>) {
    forall i, j :: 0 <= i < j < |passed| && passed[i].epoch != "" ==>
      && passed[j].epoch != ""
      && (passed[i].epoch == passed[j].epoch ==>
            passed[i].sequence <= passed[j].sequence && forall k :: i <= k <= j ==> passed[k].epoch == passed[i].epoch)
  }

  ghost predicate GateKnows(g: Gate, passed: seq<Version>) {
    && NeverGoesBack(passed)
    && (passed == [] || passed[|passed| - 1].epoch == "" ==> g.current == NoVersion && g.retired == {})
    && (passed != [] && passed[|passed| - 1].epoch != "" ==> g.current == passed[|passed| - 1])
    && (forall i :: 0 <= i < |passed| && passed[i].epoch != "" ==>
          passed[i].epoch == g.current.epoch || passed[i].epoch in g.retired)
    && g.current.epoch !in g.retired
    && (forall i :: 0 <= i < |passed| && passed[i].epoch == g.current.epoch != "" ==>
          forall k :: i <= k < |passed| ==>
                    passed[k].epoch == g.current.epoch && passed[k].sequence <= g.current.sequence)
  }

  lemma GateStep(g: Gate, passed: seq<Version>, v: Version)
    requires GateKnows(g, passed) && Admits(g, v)
    ensures GateKnows(Through(g, v), passed + [v])
  {
  }

  lemma {:induction false} GateNeverGoesBack(versions: seq<Version>)
    ensures NeverGoesBack(Passed(versions).1) && GateKnows(Passed(versions).0, Passed(versions).1)
  {
    if versions == [] {
    } else {
      GateNeverGoesBack(versions[..|versions| - 1]);
      var before, v := Passed(versions[..|versions| - 1]), versions[|versions| - 1];
      if Admits(before.0, v) {
        GateStep(before.0, before.1, v);
      }
    }
  }

  // ---------------------------------------------------------------- user deltas

  /** The position of the last user with this number, the length if there is none. */
  function LastIndex(users: seq<User>, id: int): (i: nat)
    ensures i <= |users|
    ensures i < |users| ==> users[i].id == id && forall j :: i < j < |users| ==> users[j].id != id
    ensures i == |users| <==> forall j :: 0 <= j < |users| ==> users[j].id != id
  {
    if users == [] then 0
    else
      var n := |users| - 1;
      if users[n].id == id then n
      else
        var i := LastIndex(users[..n], id);
        if i == n then n + 1 else i
  }

  /** What the list says about a number. */
  function Latest(users: seq<User>, id: int): Option<User> {
    var i := LastIndex(users, id);
    if i < |users| then Some(users[i]) else None
  }

  predicate UniqueIds(users: seq<User>) {
    forall i, j :: 0 <= i < j < |users| ==> users[i].id != users[j].id
  }

  function AddOne(users: seq<User>, user: User): seq<User> {
    var i := LastIndex(users, user.id);
    if i < |users| then users[i := user] else users + [user]
  }

  function AddAll(users: seq<User>, delta: seq<User>): seq<User> {
    if delta == [] then users else AddOne(AddAll(users, delta[..|delta| - 1]), delta[|delta| - 1])
  }

  predicate Listed(users: seq<User>, id: int) {
    exists i :: 0 <= i < |users| && users[i].id == id
  }

  function RemoveAll(users: seq<User>, delta: seq<User>): seq<User> {
    Filter(users, (user: User) => !Listed(delta, user.id))
  }

  function DeltaOf(users: seq<User>, action: Action, delta: seq<User>): Option<seq<User>> {
    match action
    case Add => Some(AddAll(users, delta))
    case Remove => Some(RemoveAll(users, delta))
    case OtherAction => None
  }

  lemma LatestIs(users: seq<User>, id: int, i: nat)
    requires i < |users| && users[i].id == id && forall j :: i < j < |users| ==> users[j].id != id
    ensures Latest(users, id) == Some(users[i])
  {
  }

  lemma AddOneLatest(users: seq<User>, user: User, id: int)
    ensures Latest(AddOne(users, user), id) == if id == user.id then Some(user) else Latest(users, id)
    ensures UniqueIds(users) ==> UniqueIds(AddOne(users, user))
  {
    var i, now := LastIndex(users, user.id), AddOne(users, user);
    if id == user.id {
      LatestIs(now, id, if i < |users| then i else |users|);
    } else {
      var k := LastIndex(users, id);
      if k < |users| {
        LatestIs(now, id, k);
      }
    }
  }

  /** Adding is a map update: each number means what the delta last says about it, or what it meant before. */
  lemma {:induction false} AddAllLatest(users: seq<User>, delta: seq<User>, id: int)
    ensures Latest(AddAll(users, delta), id) == if Latest(delta, id).Some? then Latest(delta, id) else Latest(users, id)
    ensures UniqueIds(users) ==> UniqueIds(AddAll(users, delta))
  {
    if delta == [] {
    } else {
      var n := |delta| - 1;
      AddAllLatest(users, delta[..n], id);
      AddOneLatest(AddAll(users, delta[..n]), delta[n], id);
    }
  }

  /** Removing takes out every number of the delta and leaves the others alone. */
  lemma {:induction false} RemoveAllLatest(users: seq<User>, delta: seq<User>, id: int)
    ensures Latest(RemoveAll(users, delta), id) == if Listed(delta, id) then None else Latest(users, id)
    ensures UniqueIds(users) ==> UniqueIds(RemoveAll(users, delta))
  {
    if users == [] {
    } else {
      var n := |users| - 1;
      RemoveAllLatest(users[..n], delta, id);
      RemoveAllMore(users[..n], delta, users[n]);
      LastOf(RemoveAll(users[..n], delta), users[n], id);
      assert users == users[..n] + [users[n]];
      LastOf(users[..n], users[n], id);
    }
  }

  lemma RemoveAllMore(users: seq<User>, delta: seq<User>, user: User)
    ensures RemoveAll(users + [user], delta)
            == RemoveAll(users, delta) + (if Listed(delta, user.id) then [] else [user])
    ensures UniqueIds(RemoveAll(users, delta)) && UniqueIds(users + [user]) ==>
              UniqueIds(RemoveAll(users, delta) + [user])
  {
    assert (users + [user])[..|users|] == users;
    var kept := RemoveAll(users, delta);
    forall i | 0 <= i < |kept| ensures kept[i] in users {
      FilterMember(users, (user: User) => !Listed(delta, user.id), kept[i]);
    }
  }

  lemma LastOf(users: seq<User>, user: User, id: int)
    ensures Latest(users + [user], id) == if user.id == id then Some(user) else Latest(users, id)
  {
    assert (users + [user])[..|users|] == users;
  }

  // ---------------------------------------------------------------- the mailbox's state

  /** `users` counts once a full list has arrived. */
  datatype Content = Content(config: Option<string>, users: seq<User>, full: bool,
                             devices: Option<map<int, seq<string>>>)

  datatype Dirty = Dirty(config: bool, users: bool, devices: bool, snapshot: bool)

  datatype State = State(ready: bool, content: Content, dirty: Dirty, needsReconcile: bool, control: Gate, device: Gate)

  const Initial: State := State(false, Content(None, [], false, None), Dirty(false, false, false, false), false,
                                OpenGate, OpenGate)

  datatype Drained = Drained(config: Option<string>, users: Option<seq<User>>, devices: Option<map<int, seq<string>>>,
                             needsReconcile: bool, fullSnapshot: bool, control: Version, device: Version)

  const NothingDrained: Drained := Drained(None, None, None, false, false, NoVersion, NoVersion)

  function GateOf(s: State, e: Event): Gate {
    if e.SyncDevices? then s.device else s.control
  }

  function WithGate(s: State, e: Event): State {
    if e.SyncDevices? then s.(device := Through(s.device, e.version)) else s.(control := Through(s.control, e.version))
  }

  function DeltaInto(s: State, action: Action, delta: seq<User>): State {
    if delta == [] then s
    else if !s.content.full || DeltaOf(s.content.users, action, delta).None? then s.(needsReconcile := true)
    else s.(content := s.content.(users := DeltaOf(s.content.users, action, delta).value),
            dirty := s.dirty.(users := true))
  }

  function EventInto(s: State, e: Event): State {
    if e.SyncSnapshot? then
      (if e.config.None? || e.users.None? then s
       else s.(content := s.content.(config := e.config, users := e.users.value, full := true),
               dirty := s.dirty.(config := true, users := true, snapshot := true)))
    else if e.SyncConfig? then
      (if e.config.None? then s else s.(content := s.content.(config := e.config), dirty := s.dirty.(config := true)))
    else if e.SyncUsers? then
      (if e.users.None? then s
       else s.(content := s.content.(users := e.users.value, full := true), dirty := s.dirty.(users := true)))
    else if e.SyncDevices? then
      (if e.devices.None? then s
       else s.(content := s.content.(devices := e.devices), dirty := s.dirty.(devices := true)))
    else DeltaInto(s, e.action, e.delta)
  }

  function ApplyOf(s: State, e: Event): State {
    if Admits(GateOf(s, e), e.version) then EventInto(WithGate(s, e), e) else s
  }

  function SeedOf(s: State, users: Option<seq<User>>, config: Option<string>): State {
    s.(content := s.content.(users := if users.Some? && !s.content.full then users.value else s.content.users,
                             full := s.content.full || users.Some?,
                             config := if s.content.config.None? then config else s.content.config))
  }

  function DrainedOf(s: State): Drained {
    if !s.ready then NothingDrained
    else
      Drained(if s.dirty.config then s.content.config else None, if s.dirty.users then Some(s.content.users) else None,
              if s.dirty.devices then s.content.devices
              else None, s.needsReconcile, s.dirty.snapshot, s.control.current,
              s.device.current)
  }

  function AfterDrain(s: State): State {
    if !s.ready then s
    else
      s.(dirty := Dirty(s.dirty.config && s.content.config.None?, false, s.dirty.devices && s.content.devices.None?,
                        false),
         needsReconcile := false)
  }

  // ---------------------------------------------------------------- coalescing preserves meaning

  /** What somebody holds: `None` for what was never received. */
  datatype View = View(users: Option<seq<User>>, config: Option<string>, devices: Option<map<int, seq<string>>>)

  /** Applying one event on its own. */
  function Ideal(v: View, e: Event): View {
    if e.SyncSnapshot? then (if e.config.None? || e.users.None? then v else v.(users := e.users, config := e.config))
    else if e.SyncConfig? then (if e.config.None? then v else v.(config := e.config))
    else if e.SyncUsers? then (if e.users.None? then v else v.(users := e.users))
    else if e.SyncDevices? then (if e.devices.None? then v else v.(devices := e.devices))
    else if v.users.Some? && DeltaOf(v.users.value, e.action, e.delta).Some?
         then v.(users := DeltaOf(v.users.value, e.action, e.delta))
    else v
  }

  /** Applying what a drain hands out. */
  function Receive(v: View, d: Drained): View {
    View(if d.users.Some? then d.users else v.users, if d.config.Some? then d.config else v.config,
         if d.devices.Some? then d.devices else v.devices)
  }

  /**
   `consumer` applies drained states only, `ideal` every accepted event in order, both from `base`. `missed` says that a
   delta could not be applied since the last full list, `told` that a drain since then has asked for reconciliation.
   */
  datatype World = World(s: State, base: View, consumer: View, ideal: View, missed: bool, told: bool)

  datatype Step = Arrived(event: Event) | Seeded | MadeReady | Emptied

  predicate ReplacesUsers(e: Event) {
    (e.SyncUsers? && e.users.Some?) || (e.SyncSnapshot? && e.users.Some? && e.config.Some?)
  }

  predicate Misses(s: State, e: Event) {
    e.SyncUserDelta? && e.delta != [] && (!s.content.full || DeltaOf(s.content.users, e.action, e.delta).None?)
  }

  function Next(w: World, step: Step): World {
    match step
    case Arrived(e) =>
      if !Admits(GateOf(w.s, e), e.version) then w
      else
        w.(s := ApplyOf(w.s, e), ideal := Ideal(w.ideal, e),
           missed := (w.missed && !ReplacesUsers(e)) || Misses(w.s, e), told := w.told && !ReplacesUsers(e)
           && !Misses(w.s, e))
    case Seeded => w.(s := SeedOf(w.s, w.base.users, w.base.config))
    case MadeReady => w.(s := w.s.(ready := true))
    case Emptied =>
      w.(s := AfterDrain(w.s), consumer := Receive(w.consumer, DrainedOf(w.s)),
         told := w.told || DrainedOf(w.s).needsReconcile)
  }

  predicate UsersAgree(content: Content, dirty: bool, base: View, consumer: View, ideal: View) {
    && (content.full ==> ideal.users == Some(content.users))
    && (!content.full ==> ideal.users == base.users)
    && (!dirty ==> consumer.users == ideal.users)
  }

  predicate RestAgrees(content: Content, dirty: Dirty, base: View, consumer: View, ideal: View) {
    && (ideal.config == if content.config.Some? then content.config else base.config)
    && (dirty.config ==> content.config.Some?) && (!dirty.config ==> consumer.config == ideal.config)
    && (dirty.devices ==> content.devices.Some? && ideal.devices == content.devices)
    && (!dirty.devices ==> consumer.devices == ideal.devices)
  }

  predicate Good(w: World) {
    && (w.s.dirty.users ==> w.s.content.full)
    && (!w.missed ==> UsersAgree(w.s.content, w.s.dirty.users, w.base, w.consumer, w.ideal))
    && RestAgrees(w.s.content, w.s.dirty, w.base, w.consumer, w.ideal)
    && (w.missed ==> w.told || w.s.needsReconcile)
    && (w.s.dirty.snapshot ==> w.s.dirty.config && w.s.dirty.users)
  }

  lemma EmptyDeltaIsNothing(users: seq<User>, action: Action)
    ensures DeltaOf(users, action, []).Some? ==> DeltaOf(users, action, []).value == users
  {
    NothingRemoved(users);
  }

  lemma {:induction false} NothingRemoved(users: seq<User>)
    ensures RemoveAll(users, []) == users
  {
    if users == [] {
    } else {
      NothingRemoved(users[..|users| - 1]);
      assert users == users[..|users| - 1] + [users[|users| - 1]];
    }
  }

  lemma ArrivedGood(w: World, e: Event)
    requires Good(w) && Admits(GateOf(w.s, e), e.version)
    ensures Good(Next(w, Arrived(e)))
  {
    var s := WithGate(w.s, e);
    assert s.content == w.s.content && s.dirty == w.s.dirty && s.needsReconcile == w.s.needsReconcile;
    if e.SyncUserDelta? {
      DeltaGood(w, s, e);
    } else if e.SyncSnapshot? || e.SyncUsers? {
      ListGood(w, s, e);
    } else {
      OtherGood(w, s, e);
    }
  }

  lemma ListGood(w: World, s: State, e: Event)
    requires Good(w) && s.content == w.s.content && s.dirty == w.s.dirty && s.needsReconcile == w.s.needsReconcile
    requires e.SyncSnapshot? || e.SyncUsers?
    ensures Good(w.(s := EventInto(s, e), ideal := Ideal(w.ideal, e), missed := w.missed && !ReplacesUsers(e),
                    told := w.told && !ReplacesUsers(e)))
  {
  }

  lemma OtherGood(w: World, s: State, e: Event)
    requires Good(w) && s.content == w.s.content && s.dirty == w.s.dirty && s.needsReconcile == w.s.needsReconcile
    requires e.SyncConfig? || e.SyncDevices?
    ensures Good(w.(s := EventInto(s, e), ideal := Ideal(w.ideal, e)))
  {
  }

  lemma DeltaGood(w: World, s: State, e: Event)
    requires Good(w) && e.SyncUserDelta? && s.content == w.s.content && s.dirty == w.s.dirty
             && s.needsReconcile == w.s.needsReconcile
    ensures Good(w.(s := DeltaInto(s, e.action, e.delta), ideal := Ideal(w.ideal, e),
                    missed := w.missed || Misses(w.s, e),
                    told := w.told && !Misses(w.s, e)))
  {
    if w.ideal.users.Some? {
      EmptyDeltaIsNothing(w.ideal.users.value, e.action);
    }
  }

  lemma StepKeepsGood(w: World, step: Step)
    requires Good(w)
    ensures Good(Next(w, step))
  {
    match step
    case Arrived(e) =>
      if Admits(GateOf(w.s, e), e.version) {
        ArrivedGood(w, e);
      }
    case Seeded =>
    case MadeReady =>
    case Emptied =>
  }

  function After(steps: seq<Step>, base: View): World {
    if steps == [] then World(Initial, base, base, base, false, false)
    else Next(After(steps[..|steps| - 1], base), steps[|steps| - 1])
  }

  lemma {:induction false} EveryRunIsGood(steps: seq<Step>, base: View)
    ensures Good(After(steps, base))
  {
    if steps == [] {
    } else {
      EveryRunIsGood(steps[..|steps| - 1], base);
      StepKeepsGood(After(steps[..|steps| - 1], base), steps[|steps| - 1]);
    }
  }

  /**
   In every run, a consumer that applies drained states only holds after a drain just what applying every accepted event
   in order would have given, unless a delta could not be applied since the last full user list; and then it has been
   told.
   */
  lemma CoalescingPreservesMeaning(steps: seq<Step>, base: View)
    requires After(steps, base).s.ready
    ensures var w := Next(After(steps, base), Emptied);
            && w.consumer.config == w.ideal.config && w.consumer.devices == w.ideal.devices
            && (w.consumer.users == w.ideal.users || (w.missed && w.told))
  {
    EveryRunIsGood(steps, base);
    StepKeepsGood(After(steps, base), Emptied);
  }

  /** A drain marked as a full snapshot carries both the configuration and the users. */
  lemma FullSnapshotIsComplete(steps: seq<Step>, base: View)
    requires DrainedOf(After(steps, base).s).fullSnapshot
    ensures DrainedOf(After(steps, base).s).config.Some? && DrainedOf(After(steps, base).s).users.Some?
  {
    EveryRunIsGood(steps, base);
  }

  // ---------------------------------------------------------------- the mailbox

  /** The edit of the user list with an index of positions, as one list update or removal. */
  method ApplyUserDelta(users: seq<User>, action: Action, delta: seq<User>) returns (result: Option<seq<User>>)
    ensures result == DeltaOf(users, action, delta)
  {
    if action == Add {
      var added := AddUsers(users, delta);
      return Some(added);
    }
    if action == Remove {
      var removed := RemoveUsers(users, delta);
      return Some(removed);
    }
    return None;
  }

  /** Each number's last position. */
  ghost predicate Indexes(users: seq<User>, index: map<int, int>) {
    && (forall id :: id in index <==> LastIndex(users, id) < |users|)
    && (forall id :: id in index ==> index[id] == LastIndex(users, id))
  }

  lemma IndexGrows(users: seq<User>, index: map<int, int>, user: User)
    requires Indexes(users, index)
    ensures Indexes(users + [user], index[user.id := |users|])
  {
    assert (users + [user])[..|users|] == users;
  }

  lemma IndexStays(users: seq<User>, index: map<int, int>, user: User)
    requires Indexes(users, index) && user.id in index
    ensures Indexes(users[index[user.id] := user], index)
  {
    var i, now := index[user.id], users[index[user.id] := user];
    forall id ensures LastIndex(now, id) == LastIndex(users, id) {
      SameIdsSameIndex(users, now, id);
    }
  }

  lemma {:induction false} SameIdsSameIndex(a: seq<User>, b: seq<User>, id: int)
    requires |a| == |b| && forall i :: 0 <= i < |a| ==> a[i].id == b[i].id
    ensures LastIndex(a, id) == LastIndex(b, id)
  {
    if a == [] {
    } else {
      SameIdsSameIndex(a[..|a| - 1], b[..|b| - 1], id);
    }
  }

  lemma AddAllMore(users: seq<User>, delta: seq<User>, i: nat)
    requires i < |delta|
    ensures AddAll(users, delta[..i + 1]) == AddOne(AddAll(users, delta[..i]), delta[i])
  {
    assert delta[..i + 1][..i] == delta[..i];
  }

  /** What adding one user comes to, given the positions. */
  lemma AddIndexed(users: seq<User>, index: map<int, int>, user: User)
    requires Indexes(users, index)
    ensures user.id in index ==> index[user.id] < |users| && AddOne(users, user) == users[index[user.id] := user]
    ensures user.id !in index ==> AddOne(users, user) == users + [user]
  {
  }

  lemma IndexNext(users: seq<User>, index: map<int, int>, i: nat)
    requires i < |users| && Indexes(users[..i], index)
    ensures Indexes(users[..i + 1], index[users[i].id := i])
  {
    IndexGrows(users[..i], index, users[i]);
    assert users[..i + 1] == users[..i] + [users[i]];
  }

  method IndexUsers(users: seq<User>) returns (index: map<int, int>)
    ensures Indexes(users, index)
  {
    index := map[];
    for i := 0 to |users|
      invariant Indexes(users[..i], index)
    {
      IndexNext(users, index, i);
      index := index[users[i].id := i];
    }
    assert users[..|users|] == users;
  }

  method AddUsers(users: seq<User>, delta: seq<User>) returns (current: seq<User>)
    ensures current == AddAll(users, delta)
  {
    var index := IndexUsers(users);
    current := users;
    for i := 0 to |delta|
      invariant current == AddAll(users, delta[..i]) && Indexes(current, index)
    {
      AddAllMore(users, delta, i);
      var user := delta[i];
      AddIndexed(current, index, user);
      if user.id in index {
        IndexStays(current, index, user);
        current := current[index[user.id] := user];
      } else {
        IndexGrows(current, index, user);
        index := index[user.id := |current|];
        current := current + [user];
      }
    }
    assert delta[..|delta|] == delta;
  }

  method RemoveUsers(users: seq<User>, delta: seq<User>) returns (current: seq<User>)
    ensures current == RemoveAll(users, delta)
  {
    var removed: set<int> := {};
    for i := 0 to |delta|
      invariant forall id :: id in removed <==> Listed(delta[..i], id)
    {
      assert delta[..i + 1] == delta[..i] + [delta[i]];
      ListedAppended(delta[..i], delta[i]);
      removed := removed + {delta[i].id};
    }
    assert delta[..|delta|] == delta;
    current := [];
    for i := 0 to |users|
      invariant current == RemoveAll(users[..i], delta)
    {
      assert users[..i + 1][..i] == users[..i];
      if users[i].id !in removed {
        current := current + [users[i]];
      }
    }
    assert users[..|users|] == users;
  }

  lemma ListedAppended(front: seq<User>, last: User)
    ensures forall id :: Listed(front + [last], id) <==> Listed(front, id) || id == last.id
  {
    var whole := front + [last];
    assert whole[|front|] == last;
    forall id | Listed(front, id) ensures Listed(whole, id) {
      var i :| 0 <= i < |front| && front[i].id == id;
      assert whole[i].id == id;
    }
  }

  class NodeMailbox {
    var state: State

    constructor ()
      ensures state == Initial
    {
      state := Initial;
    }

    method MarkReady()
      modifies this
      ensures state == old(state).(ready := true)
    {
      state := state.(ready := true);
    }

    method SeedBaseline(users: Option<seq<User>>, config: Option<string>)
      modifies this
      ensures state == SeedOf(old(state), users, config)
    {
      if users.Some? && !state.content.full {
        state := state.(content := state.content.(users := users.value, full := true));
      }
      if config.Some? && state.content.config.None? {
        state := state.(content := state.content.(config := config));
      }
    }

    method Accept(event: Event) returns (ok: bool)
      modifies this
      ensures ok == Admits(GateOf(old(state), event), event.version)
      ensures state == if ok then WithGate(old(state), event) else old(state)
    {
      var gate, v := GateOf(state, event), event.version;
      if v.epoch == "" {
        return gate.current.epoch == "";
      }
      if v.sequence == 0 || v.epoch in gate.retired {
        return false;
      }
      if v.epoch == gate.current.epoch {
        if v.sequence < gate.current.sequence {
          return false;
        }
      } else if gate.current.epoch != "" {
        gate := gate.(retired := gate.retired + {gate.current.epoch});
      }
      gate := gate.(current := v);
      state := if event.SyncDevices? then state.(device := gate) else state.(control := gate);
      return true;
    }

    method Apply(event: Event)
      modifies this
      ensures state == ApplyOf(old(state), event)
    {
      var ok := Accept(event);
      if !ok {
        return;
      }
      var content, dirty := state.content, state.dirty;
      if event.SyncSnapshot? {
        if event.config.Some? && event.users.Some? {
          state := state.(content := content.(config := event.config, users := event.users.value, full := true),
                          dirty := dirty.(config := true, users := true, snapshot := true));
        }
      } else if event.SyncConfig? {
        if event.config.Some? {
          state := state.(content := content.(config := event.config), dirty := dirty.(config := true));
        }
      } else if event.SyncUsers? {
        if event.users.Some? {
          state := state.(content := content.(users := event.users.value, full := true),
                          dirty := dirty.(users := true));
        }
      } else if event.SyncDevices? {
        if event.devices.Some? {
          state := state.(content := content.(devices := event.devices), dirty := dirty.(devices := true));
        }
      } else {
        ApplyDelta(event.action, event.delta);
      }
    }

    method ApplyDelta(action: Action, delta: seq<User>)
      modifies this
      ensures state == DeltaInto(old(state), action, delta)
    {
      if |delta| > 0 {
        if !state.content.full {
          state := state.(needsReconcile := true);
          return;
        }
        var users := ApplyUserDelta(state.content.users, action, delta);
        if users.None? {
          state := state.(needsReconcile := true);
        } else {
          state := state.(content := state.content.(users := users.value), dirty := state.dirty.(users := true));
        }
      }
    }

    method DrainIfReady() returns (drained: Drained)
      modifies this
      ensures drained == DrainedOf(old(state)) && state == AfterDrain(old(state))
    {
      if !state.ready {
        return NothingDrained;
      }
      drained := NothingDrained.(needsReconcile := state.needsReconcile, fullSnapshot := state.dirty.snapshot,
                                 control := state.control.current, device := state.device.current);
      var dirty := state.dirty.(snapshot := false);
      if dirty.config && state.content.config.Some? {
        drained, dirty := drained.(config := state.content.config), dirty.(config := false);
      }
      if dirty.users {
        drained, dirty := drained.(users := Some(state.content.users)), dirty.(users := false);
      }
      if dirty.devices && state.content.devices.Some? {
        drained, dirty := drained.(devices := state.content.devices), dirty.(devices := false);
      }
      state := state.(dirty := dirty, needsReconcile := false);
    }
  }
}
