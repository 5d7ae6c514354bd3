/**
 Whole runs of the device-lease coordinator: any interleaving of its critical sections, with replies that come late, out
 of order, twice or never, and a clock that only moves forward.
 */
module DeviceGateWorld {
  import opened Common
  import opened DeviceGateState
  import opened DeviceGateInvariant
  import opened DeviceGateHistory

  /** Where the one caller that holds the synchronisation lock has got to. */
  datatype Phase = Idle | Beginning(run: string) | Sent(snapshot: Snapshot, short: bool)
                 | Accepted(snapshot: Snapshot, short: bool)

  /**
   A user list as it was set: the users on it, those the coordinator knew that are not, and the last number drawn by
   then.
   */
  datatype UserList = UserList(ids: set<int>, removed: set<int>, counter: nat)

  /**
   `acked` keeps every full snapshot the panel acknowledged; `runs` every session name drawn; `lists` every user list.
   */
  datatype World = World(s: State, h: History, clock: int, runs: set<string>, phase: Phase,
                         confirmed: Option<Snapshot>, base: nat, acked: map<nat, Snapshot>, lists: seq<UserList>)

  const Start: World :=
    World(Initial, History({}, {}, map[], 0), 0, {}, Idle, None, 0, map[], [])

  datatype Event =
    | BeginStart(drawn: string)
    | BeginFailed
    | BeginFinished
    | Acquired(key: Key, waiter: nat, stopped: bool)
    | LeftFlight(key: Key, flight: nat, waiter: nat)
    | Sampled
    | RevocationsApplied(items: seq<Revocation>, sequence: nat, run: string)
    | AdmissionConfirmed(sequence: nat, user: int)
    | Granted(item: Lease, serverTime: int, started: int, checked: int, sequence: nat, run: string)
    | AdmissionFinished(key: Key, lease: Option<string>, live: seq<nat>, stopped: bool)
    | SyncStarted(renewable: bool)
    | SyncNeedsFull
    | SyncFailed
    | SyncLost
    | SyncAccepted(reply: SyncReply, deadlines: seq<int>, order: seq<Key>, started: int, checked: int)
    | SyncCommitted
    | SessionLost(run: string)
    | AllClosed(order: seq<Key>)
    | Expired(key: Key, id: nat, deadline: int)
    | UsersSet(ids: set<int>, order: seq<Key>)
    | Released(permit: nat)
    | Connected(permit: nat, closing: bool)
    | Stopped

  function StripAges(sources: set<Listed>): set<Listed> {
    set x | x in sources :: x.(ageMs := 0)
  }

  /** The same content, however old the connections have grown. */
  predicate SameSnapshot(a: Snapshot, b: Snapshot) {
    a.run == b.run && a.pending == b.pending && a.retired == b.retired && StripAges(a.sources) == StripAges(b.sources)
  }

  // ---------------------------------------------------------------- what the environment may do

  ghost predicate OwnDeadline(owner: string -> Key, item: Lease, serverTime: int, started: int, checked: int,
                              deadline: int) {
    owner(item.lease) == item.At() && LeaseDeadline(item, serverTime, started, checked) == Ok(deadline)
  }

  /**
   The extra minute a revocation record is kept covers the time between drawing a snapshot and starting its request.
   */
  ghost predicate StartedInTime(h: History, sequence: nat, started: int) {
    sequence in h.sampled && started <= h.sampled[sequence].at + MINUTE
  }

  ghost predicate Enabled(owner: string -> Key, w: World, e: Event, now: int) {
    w.clock <= now &&
    match e
    case BeginStart(drawn) => w.phase.Idle? && !w.s.session.ready && drawn != "" && drawn !in w.runs
    case BeginFailed => w.phase.Beginning?
    case BeginFinished => w.phase.Beginning?
    case Acquired(key, _, _) => key.user > 0
    case RevocationsApplied(items, sequence, run) =>
      && OwnItems(owner, items)
      && ((sequence == 0 && run == "") || (sequence in w.h.sampled && run == w.h.sampled[sequence].snapshot.run))
    case AdmissionConfirmed(sequence, user) => sequence in w.h.sampled && user > 0
    case Granted(item, serverTime, started, checked, sequence, run) =>
      && item.At() in w.s.flights && w.s.flights[item.At()].run == run && w.s.flights[item.At()].sequence < sequence
      && StartedInTime(w.h, sequence, started)
      && LeaseDeadline(item, serverTime, started, checked).Ok? && owner(item.lease) == item.At()
    case AdmissionFinished(key, _, live, _) =>
      key in w.s.flights && Different(live) && Elements(live) <= w.s.flights[key].waiters
    case SyncStarted(_) => w.phase.Idle?
    case SyncNeedsFull => w.phase.Sent? && w.phase.short
    case SyncFailed => w.phase.Sent?
    case SyncLost => w.phase.Sent?
    case SyncAccepted(reply, deadlines, order, started, checked) =>
      && w.phase.Sent? && reply.run == w.phase.snapshot.run && reply.sequence == w.phase.snapshot.sequence
      && StartedInTime(w.h, reply.sequence, started)
      && |deadlines| == |reply.leases|
      && (forall i :: 0 <= i < |deadlines| ==>
            OwnDeadline(owner, reply.leases[i], reply.serverTime, started, checked, deadlines[i]))
      && OwnItems(owner, reply.idle) && Enumerates(order, w.s.sources.Keys)
    case SyncCommitted => w.phase.Accepted?
    case SessionLost(run) => exists key :: key in w.s.flights && w.s.flights[key].run == run
    case AllClosed(order) => Enumerates(order, w.s.sources.Keys)
    case UsersSet(_, order) => Enumerates(order, w.s.sources.Keys)
    case _ => true
  }

  // ---------------------------------------------------------------- what happens

  ghost function Quiet(w: World, t: State, now: int): World {
    w.(s := t, h := Extend(w.h, w.s, t, now), clock := now)
  }

  ghost function Listing(w: World, t: State, ids: set<int>, now: int): World {
    Quiet(w, t, now).(lists := w.lists + [UserList(ids, RemovedUsers(w.s, ids), w.s.counter)])
  }

  ghost function DrawnWith(w: World, snapshot: Snapshot, now: int): World {
    w.(s := AfterSnapshot(w.s), h := w.h.(sampled := w.h.sampled[w.s.counter + 1 := Sample(snapshot, now)]),
       clock := now)
  }

  ghost function Drawing(w: World, now: int): World {
    DrawnWith(w, TakeSnapshot(w.s, now), now)
  }

  ghost function Starting(w: World, drawn: string, now: int): World {
    if !CanBegin(w.s) then w.(clock := now)
    else
      var t := Begin(w.s, drawn);
      w.(s := t, h := if w.s.session.run == "" then w.h.(runStart := w.s.counter) else w.h, clock := now,
         runs := w.runs + {t.session.run}, phase := Beginning(t.session.run), confirmed := None, base := 0)
  }

  ghost function Sending(w: World, renewable: bool, now: int): World {
    var snapshot := TakeSnapshot(w.s, now);
    var short := renewable && w.base > 0 && w.confirmed.Some? && SameSnapshot(w.confirmed.value, snapshot);
    Drawing(w, now).(phase := Sent(snapshot, short))
  }

  ghost function Accepting(w: World, reply: SyncReply, deadlines: seq<int>, order: seq<Key>, now: int): World
    requires w.phase.Sent? && |deadlines| == |reply.leases| && forall key :: key in order ==> key in w.s.sources
  {
    if w.s.session.run != reply.run then w.(phase := Idle, clock := now)
    else
      Quiet(w, Accept(w.s, reply, deadlines, reply.sequence, order, now),
            now).(phase := Accepted(w.phase.snapshot, w.phase.short))
  }

  ghost function Committing(w: World, now: int): World
    requires w.phase.Accepted?
  {
    var snapshot := w.phase.snapshot;
    var done := Quiet(w, ConfirmSnapshot(w.s, snapshot, 0), now).(phase := Idle, confirmed := Some(snapshot));
    if w.phase.short then done
    else done.(base := snapshot.sequence, acked := w.acked[snapshot.sequence := snapshot])
  }

  lemma EnumeratedPresent(order: seq<Key>, keys: set<Key>)
    requires Enumerates(order, keys)
    ensures forall key :: key in order ==> key in keys
  {
    forall key | key in order ensures key in keys {
      assert key in Elements(order);
    }
  }

  /** The steps of the one caller that holds the synchronisation lock. */
  predicate IsSynchronisation(e: Event) {
    e.BeginStart? || e.BeginFailed? || e.BeginFinished? || e.SyncStarted? || e.SyncNeedsFull? || e.SyncFailed?
    || e.SyncLost? ||
    e.SyncAccepted? || e.SyncCommitted?
  }

  ghost function NextSynchronisation(owner: string -> Key, w: World, e: Event, now: int): World
    requires Enabled(owner, w, e, now) && IsSynchronisation(e)
  {
    if e.BeginStart? then Starting(w, e.drawn, now)
    else if e.BeginFinished? then Quiet(w, BeginDone(w.s), now).(phase := Idle)
    else if e.SyncStarted? then Sending(w, e.renewable, now)
    else if e.SyncNeedsFull? then w.(phase := Sent(w.phase.snapshot, false), clock := now)
    else if e.SyncLost? then Quiet(w, LoseSession(w.s, w.phase.snapshot.run), now).(phase := Idle, confirmed := None,
        base := 0)
    else if e.SyncAccepted? then
      EnumeratedPresent(e.order, w.s.sources.Keys);
      Accepting(w, e.reply, e.deadlines, e.order, now)
    else if e.SyncCommitted? then Committing(w, now)
    else w.(phase := Idle, clock := now)
  }

  ghost function NextLocal(owner: string -> Key, w: World, e: Event, now: int): World
    requires Enabled(owner, w, e, now) && !IsSynchronisation(e)
  {
    if e.Acquired? then Quiet(w, Acquire(w.s, e.key, e.waiter, e.stopped, now), now)
    else if e.LeftFlight? then Quiet(w, LeaveFlight(w.s, e.key, e.flight, e.waiter), now)
    else if e.Sampled? then Drawing(w, now)
    else if e.RevocationsApplied? then Quiet(w, ApplyRevocations(w.s, e.items, e.sequence, e.run, now), now)
    else if e.AdmissionConfirmed? then Quiet(w, ConfirmSnapshot(w.s, w.h.sampled[e.sequence].snapshot, e.user), now)
    else if e.Granted? then
      Quiet(w, Grant(w.s, e.item, LeaseDeadline(e.item, e.serverTime, e.started, e.checked).value, e.sequence, e.run,
                     now), now)
    else if e.AdmissionFinished? then Quiet(w, FinishAdmission(w.s, e.key, e.lease, e.live, e.stopped, now), now)
    else if e.SessionLost? then Quiet(w, LoseSession(w.s, e.run), now)
    else if e.AllClosed? then EnumeratedPresent(e.order, w.s.sources.Keys); Quiet(w, CloseAll(w.s, e.order), now)
    else if e.Expired? then Quiet(w, Expire(w.s, e.key, e.id, e.deadline, now), now)
    else if e.UsersSet? then
      EnumeratedPresent(e.order, w.s.sources.Keys);
      Listing(w, SetUsers(w.s, e.ids, e.order, now), e.ids, now)
    else if e.Released? then Quiet(w, Release(w.s, e.permit, now), now)
    else if e.Connected? then Quiet(w, NewConnection(w.s, e.permit, e.closing, now), now)
    else Quiet(w, Stop(w.s), now)
  }

  ghost function Next(owner: string -> Key, w: World, e: Event, now: int): World
    requires Enabled(owner, w, e, now)
  {
    if IsSynchronisation(e) then NextSynchronisation(owner, w, e, now) else NextLocal(owner, w, e, now)
  }

  // ---------------------------------------------------------------- the invariant of all runs

  ghost predicate Sessions(session: Session, flights: map<Key, Flight>, h: History, runs: set<string>, phase: Phase) {
    && (session.run != "" ==> session.run in runs)
    && (session.ready ==> session.run != "")
    && (forall q :: q in h.sampled && h.sampled[q].snapshot.run != "" ==> h.sampled[q].snapshot.run in runs)
    && (forall key :: key in flights ==> flights[key].run != "" && h.runStart < flights[key].sequence)
    && (forall q :: q in h.sampled && h.sampled[q].snapshot.run == session.run != "" ==> h.runStart < q)
    && (phase.Beginning? ==> session.run == phase.run != "" && flights == map[] && !session.ready)
    && (phase.Sent? || phase.Accepted? ==>
          phase.snapshot.sequence in h.sampled && h.sampled[phase.snapshot.sequence].snapshot == phase.snapshot)
  }

  /** The base a shortened message names is a snapshot the panel acknowledged in full, with the same content. */
  ghost predicate Renewable(phase: Phase, confirmed: Option<Snapshot>, base: nat, acked: map<nat, Snapshot>) {
    && (base > 0 && confirmed.Some? ==> base in acked && SameSnapshot(acked[base], confirmed.value))
    && ((phase.Sent? || phase.Accepted?) && phase.short ==>
          base > 0 && base in acked && SameSnapshot(acked[base], phase.snapshot))
  }

  ghost predicate Good(owner: string -> Key, w: World) {
    && Inv(owner, w.s)
    && Recorded(w.s, w.h, w.clock)
    && Sessions(w.s.session, w.s.flights, w.h, w.runs, w.phase)
    && Renewable(w.phase, w.confirmed, w.base, w.acked)
  }

  lemma QuietGood(owner: string -> Key, w: World, t: State, now: int)
    requires Good(owner, w) && Inv(owner, t) && Recorded(t, Extend(w.h, w.s, t, now), now)
    requires t.session.run == w.s.session.run && (t.session.ready ==> w.s.session.ready)
             && t.flights.Keys <= w.s.flights.Keys
    requires forall key :: key in t.flights ==>
                             t.flights[key].run == w.s.flights[key].run
                             && t.flights[key].sequence == w.s.flights[key].sequence
    ensures Good(owner, Quiet(w, t, now))
  {
  }

  /** With flights and session names as they were. */
  lemma SameFlightsGood(owner: string -> Key, w: World, t: State, now: int)
    requires Good(owner, w) && Inv(owner, t) && Recorded(t, Extend(w.h, w.s, t, now), now)
    requires t.session.run == w.s.session.run && t.session.ready == w.s.session.ready && t.flights == w.s.flights
    ensures Good(owner, Quiet(w, t, now))
  {
    QuietGood(owner, w, t, now);
  }

  lemma FollowsGood(owner: string -> Key, w: World, t: State, now: int)
    requires Good(owner, w) && w.clock <= now && Inv(owner, t) && Follows(w.s, t, now)
    ensures Good(owner, Quiet(w, t, now))
  {
    FollowsRecorded(owner, w.s, t, w.h, w.clock, now);
    QuietGood(owner, w, t, now);
  }

  lemma BeginStartGood(owner: string -> Key, w: World, drawn: string, now: int)
    requires Good(owner, w) && Enabled(owner, w, BeginStart(drawn), now)
    ensures Good(owner, Starting(w, drawn, now))
  {
    BeginKeeps(owner, w.s, drawn);
    SameRecorded(w.s, w.h, w.clock, now);
    if CanBegin(w.s) && w.s.session.run == "" {
      BeginRecorded(w.s, drawn, w.h, w.clock, now);
      var g := w.h.(runStart := w.s.counter);
      forall q | q in g.sampled ensures g.sampled[q].snapshot.run != drawn {
        assert g.sampled[q].snapshot.run == "" || g.sampled[q].snapshot.run in w.runs;
      }
    }
  }

  lemma BeginFinishedGood(owner: string -> Key, w: World, now: int)
    requires Good(owner, w) && Enabled(owner, w, BeginFinished, now)
    ensures Good(owner, Quiet(w, BeginDone(w.s), now).(phase := Idle))
  {
    SessionRecorded(w.s, BeginDone(w.s), w.h, w.clock, now);
  }

  lemma JoinedGood(owner: string -> Key, w: World, key: Key, waiter: nat, now: int)
    requires Good(owner, w) && w.clock <= now && key in w.s.flights
    ensures var joined := w.s.flights[key].(waiters := w.s.flights[key].waiters + {waiter});
            Good(owner, Quiet(w, w.s.(flights := w.s.flights[key := joined]), now))
  {
    JoinFlightKeeps(owner, w.s, key, waiter);
    var t := w.s.(flights := w.s.flights[key := w.s.flights[key].(waiters := w.s.flights[key].waiters + {waiter})]);
    SessionRecorded(w.s, t, w.h, w.clock, now);
  }

  lemma NewFlightGood(owner: string -> Key, w: World, key: Key, flight: Flight, now: int)
    requires Good(owner, w) && w.clock <= now && w.s.session.ready
    requires flight.sequence == w.s.counter + 1 && flight.run == w.s.session.run
    ensures Good(owner, Quiet(w, w.s.(counter := w.s.counter + 1, flights := w.s.flights[key := flight]), now))
  {
    NewFlightKeeps(owner, w.s, key, flight);
    SessionRecorded(w.s, w.s.(counter := w.s.counter + 1, flights := w.s.flights[key := flight]), w.h, w.clock, now);
  }

  lemma ReusedGood(owner: string -> Key, w: World, key: Key, now: int)
    requires Good(owner, w) && w.clock <= now && key in w.s.sources
    ensures Good(owner, Quiet(w, IssuePermit(w.s, key, now), now))
  {
    IssuePermitKeeps(owner, w.s, key, now);
    IssuePermitFollows(w.s, key, now);
    FollowsGood(owner, w, IssuePermit(w.s, key, now), now);
  }

  lemma AcquireCases(s: State, key: Key, waiter: nat, stopped: bool, now: int)
    ensures var outcome := AcquireOutcome(s, key, stopped, now); var t := Acquire(s, key, waiter, stopped, now);
            && (outcome == NotReady || outcome == NotPermitted ==> t == s)
            && (outcome == Reuse ==> key in s.sources && t == IssuePermit(s, key, now))
            && (outcome == Wait && key in s.flights ==>
                  t == s.(flights := s.flights[key := s.flights[key].(waiters := s.flights[key].waiters + {waiter})]))
            && (outcome == Wait && key !in s.flights ==>
                  && s.session.ready
                  && t == s.(counter := s.counter + 1,
                             flights := s.flights[key := Flight(s.counter + 1, s.session.run, {waiter}, false)]))
  {
  }

  lemma AcquiredGood(owner: string -> Key, w: World, key: Key, waiter: nat, stopped: bool, now: int)
    requires Good(owner, w) && w.clock <= now
    ensures Good(owner, Quiet(w, Acquire(w.s, key, waiter, stopped, now), now))
  {
    AcquireCases(w.s, key, waiter, stopped, now);
    match AcquireOutcome(w.s, key, stopped, now)
    case NotReady => SameGood(owner, w, now);
    case NotPermitted => SameGood(owner, w, now);
    case Reuse => ReusedGood(owner, w, key, now);
    case Wait =>
      if key in w.s.flights {
        JoinedGood(owner, w, key, waiter, now);
      } else {
        NewFlightGood(owner, w, key, Flight(w.s.counter + 1, w.s.session.run, {waiter}, false), now);
      }
  }

  lemma SameGood(owner: string -> Key, w: World, now: int)
    requires Good(owner, w) && w.clock <= now
    ensures Good(owner, Quiet(w, w.s, now)) && Quiet(w, w.s, now) == w.(clock := now)
  {
    SameRecorded(w.s, w.h, w.clock, now);
  }

  lemma LeftFlightGood(owner: string -> Key, w: World, key: Key, flight: nat, waiter: nat, now: int)
    requires Good(owner, w) && w.clock <= now
    ensures Good(owner, Quiet(w, LeaveFlight(w.s, key, flight, waiter), now))
  {
    LeaveFlightKeeps(owner, w.s, key, flight, waiter);
    SessionRecorded(w.s, LeaveFlight(w.s, key, flight, waiter), w.h, w.clock, now);
  }

  lemma DrawnSessions(session: Session, flights: map<Key, Flight>, h: History, runs: set<string>, phase: Phase, q: nat,
                      sample: Sample)
    requires Sessions(session, flights, h, runs, phase) && q !in h.sampled
    requires h.runStart < q && sample.snapshot.run == session.run
    ensures Sessions(session, flights, h.(sampled := h.sampled[q := sample]), runs, phase)
  {
  }

  lemma DrawnRecorded(owner: string -> Key, s: State, h: History, clock: int, snapshot: Snapshot, now: int)
    requires Inv(owner, s) && Recorded(s, h, clock) && clock <= now && snapshot.sequence == s.counter + 1
    requires forall lease :: lease in s.retired ==> s.retired[lease].item in snapshot.retired
    ensures Inv(owner, AfterSnapshot(s)) && s.counter + 1 !in h.sampled && h.runStart <= s.counter
    ensures Recorded(AfterSnapshot(s), h.(sampled := h.sampled[s.counter + 1 := Sample(snapshot, now)]), now)
  {
    CounterKeeps(owner, s, s.counter + 1, s.nextId);
    SnapshotRecorded(s, snapshot, h, clock, now);
  }

  lemma DrawnPieces(owner: string -> Key, w: World, t: State, g: History, snapshot: Snapshot, now: int)
    requires Good(owner, w) && w.clock <= now
    requires snapshot.sequence == w.s.counter + 1 && snapshot.run == w.s.session.run
    requires forall lease :: lease in w.s.retired ==> w.s.retired[lease].item in snapshot.retired
    requires t == AfterSnapshot(w.s) && g == w.h.(sampled := w.h.sampled[w.s.counter + 1 := Sample(snapshot, now)])
    ensures Inv(owner, t) && Recorded(t, g, now) && Sessions(t.session, t.flights, g, w.runs, w.phase)
    ensures Renewable(w.phase, w.confirmed, w.base, w.acked)
  {
    DrawnRecorded(owner, w.s, w.h, w.clock, snapshot, now);
    DrawnSessions(w.s.session, w.s.flights, w.h, w.runs, w.phase, w.s.counter + 1, Sample(snapshot, now));
  }

  lemma SnapshotShape(s: State, now: int)
    ensures TakeSnapshot(s, now).sequence == s.counter + 1 && TakeSnapshot(s, now).run == s.session.run
    ensures forall lease :: lease in s.retired ==> s.retired[lease].item in TakeSnapshot(s, now).retired
  {
  }

  lemma DrawnWithGood(owner: string -> Key, w: World, snapshot: Snapshot, now: int)
    requires Good(owner, w) && w.clock <= now && snapshot.sequence == w.s.counter + 1 && snapshot.run == w.s.session.run
    requires forall lease :: lease in w.s.retired ==> w.s.retired[lease].item in snapshot.retired
    ensures Good(owner, DrawnWith(w, snapshot, now))
  {
    var t, g := AfterSnapshot(w.s), w.h.(sampled := w.h.sampled[w.s.counter + 1 := Sample(snapshot, now)]);
    DrawnPieces(owner, w, t, g, snapshot, now);
    Assembled(owner, w, t, g, now);
    assert DrawnWith(w, snapshot, now) == w.(s := t, h := g, clock := now);
  }

  lemma Assembled(owner: string -> Key, w: World, t: State, g: History, now: int)
    requires Inv(owner, t) && Recorded(t, g, now) && Sessions(t.session, t.flights, g, w.runs, w.phase)
    requires Renewable(w.phase, w.confirmed, w.base, w.acked)
    ensures Good(owner, w.(s := t, h := g, clock := now))
  {
  }

  lemma DrawingGood(owner: string -> Key, w: World, now: int)
    requires Good(owner, w) && w.clock <= now
    ensures Good(owner, Drawing(w, now))
  {
    SnapshotShape(w.s, now);
    DrawnWithGood(owner, w, TakeSnapshot(w.s, now), now);
  }

  lemma RevocationsGood(owner: string -> Key, w: World, items: seq<Revocation>, sequence: nat, run: string, now: int)
    requires Good(owner, w) && Enabled(owner, w, RevocationsApplied(items, sequence, run), now)
    ensures Good(owner, Quiet(w, ApplyRevocations(w.s, items, sequence, run, now), now))
  {
    if run != "" && w.s.session.run != run {
      SameGood(owner, w, now);
    } else {
      RevokeKeeps(owner, w.s, items, sequence, now);
      RevokeRecorded(owner, w.s, items, sequence, w.h, w.clock, now);
      QuietGood(owner, w, Revoke(w.s, items, sequence, now), now);
    }
  }

  lemma ConfirmedGood(owner: string -> Key, w: World, snapshot: Snapshot, user: int, now: int)
    requires Good(owner, w) && w.clock <= now
    ensures Good(owner, Quiet(w, ConfirmSnapshot(w.s, snapshot, user), now))
  {
    ConfirmSnapshotKeeps(owner, w.s, snapshot, user);
    SessionRecorded(w.s, ConfirmSnapshot(w.s, snapshot, user), w.h, w.clock, now);
  }

  lemma GrantInputs(owner: string -> Key, w: World, e: Event, now: int)
    requires Good(owner, w) && e.Granted? && Enabled(owner, w, e, now)
    ensures OwnLease(owner, e.item) && e.sequence <= w.s.counter
    ensures Timely(w.h, e.sequence, LeaseDeadline(e.item, e.serverTime, e.started, e.checked).value)
  {
    var deadline := LeaseDeadline(e.item, e.serverTime, e.started, e.checked).value;
    SampledTimely(w.h, w.clock, w.s.counter, e.sequence, deadline);
  }

  lemma GrantedGood(owner: string -> Key, w: World, item: Lease, deadline: int, sequence: nat, run: string, now: int)
    requires Good(owner, w) && w.clock <= now && OwnLease(owner, item) && sequence <= w.s.counter
             && Timely(w.h, sequence, deadline)
    ensures Good(owner, Quiet(w, Grant(w.s, item, deadline, sequence, run, now), now))
  {
    GrantKeeps(owner, w.s, item, deadline, sequence, run, now);
    GrantRecorded(owner, w.s, item, deadline, sequence, run, w.h, w.clock, now);
    QuietGood(owner, w, Grant(w.s, item, deadline, sequence, run, now), now);
  }

  lemma FlightGone(owner: string -> Key, w: World, t: State, key: Key, now: int)
    requires Good(owner, w) && w.clock <= now && Inv(owner, t) && Follows(w.s, t, now)
    ensures Good(owner, Quiet(w, t.(flights := t.flights - {key}), now))
  {
    FollowsRecorded(owner, w.s, t, w.h, w.clock, now);
    FlightsKeep(owner, t, t.flights - {key});
    var u := t.(flights := t.flights - {key});
    SessionRecorded(t, u, Extend(w.h, w.s, t, now), now, now);
    ExtendTwice(w.s, t, u, w.h, now);
    QuietGood(owner, w, u, now);
  }

  lemma FinishedGood(owner: string -> Key, w: World, key: Key, lease: Option<string>, live: seq<nat>, stopped: bool,
                     now: int)
    requires Good(owner, w) && w.clock <= now
    ensures Good(owner, Quiet(w, FinishAdmission(w.s, key, lease, live, stopped, now), now))
  {
    if lease.Some? && AdmissionStands(w.s, key, lease.value, stopped, now) {
      IssueEachKeeps(owner, w.s, key, live, now);
      IssueEachFollows(w.s, key, live, now);
      FlightGone(owner, w, IssueEach(w.s, key, live, now), key, now);
    } else {
      PruneNothing(w.s, now);
      FlightGone(owner, w, w.s, key, now);
    }
  }

  lemma PruneNothing(s: State, now: int)
    ensures Follows(s, s, now)
  {
  }

  lemma SendingGood(owner: string -> Key, w: World, renewable: bool, now: int)
    requires Good(owner, w) && w.clock <= now
    ensures Good(owner, Sending(w, renewable, now))
  {
    DrawingGood(owner, w, now);
  }

  lemma LostGood(owner: string -> Key, w: World, run: string, now: int)
    requires Good(owner, w) && w.clock <= now && !w.phase.Beginning?
    ensures Good(owner, Quiet(w, LoseSession(w.s, run), now))
  {
    SessionRecorded(w.s, LoseSession(w.s, run), w.h, w.clock, now);
  }

  lemma AcceptInputs(owner: string -> Key, w: World, e: Event, now: int)
    requires Good(owner, w) && e.SyncAccepted? && Enabled(owner, w, e, now) && w.s.session.run == e.reply.run
    ensures OwnLeases(owner, e.reply.leases) && e.reply.sequence <= w.s.counter
    ensures w.s.session.ready ==> forall i :: 0 <= i < |e.deadlines| ==> Timely(w.h, e.reply.sequence, e.deadlines[i])
  {
    forall i | 0 <= i < |e.reply.leases| ensures OwnLease(owner, e.reply.leases[i]) {
      assert OwnDeadline(owner, e.reply.leases[i], e.reply.serverTime, e.started, e.checked, e.deadlines[i]);
    }
    if w.s.session.ready {
      forall i | 0 <= i < |e.deadlines| ensures Timely(w.h, e.reply.sequence, e.deadlines[i]) {
        assert OwnDeadline(owner, e.reply.leases[i], e.reply.serverTime, e.started, e.checked, e.deadlines[i]);
        SampledTimely(w.h, w.clock, w.s.counter, e.reply.sequence, e.deadlines[i]);
      }
    }
  }

  lemma AcceptedGood(owner: string -> Key, w: World, e: Event, now: int)
    requires Good(owner, w) && e.SyncAccepted? && Enabled(owner, w, e, now) && forall key :: key in e.order ==>
              key in w.s.sources
    ensures Good(owner, Accepting(w, e.reply, e.deadlines, e.order, now))
  {
    if w.s.session.run != e.reply.run {
      SameGood(owner, w, now);
    } else {
      AcceptInputs(owner, w, e, now);
      AcceptKeeps(owner, w.s, e.reply, e.deadlines, e.reply.sequence, e.order, now);
      AcceptRecorded(owner, w.s, e.reply, e.deadlines, e.reply.sequence, e.order, w.h, w.clock, now);
      var t := Accept(w.s, e.reply, e.deadlines, e.reply.sequence, e.order, now);
      SameFlightsGood(owner, w, t, now);
      AcceptedPhaseGood(owner, w, t, now);
    }
  }

  /** A reply processed takes the synchronisation one step on. */
  lemma AcceptedPhaseGood(owner: string -> Key, w: World, t: State, now: int)
    requires Good(owner, w) && w.phase.Sent? && Good(owner, Quiet(w, t, now))
    ensures Good(owner, Quiet(w, t, now).(phase := Accepted(w.phase.snapshot, w.phase.short)))
  {
  }

  lemma CommittedGood(owner: string -> Key, w: World, now: int)
    requires Good(owner, w) && Enabled(owner, w, SyncCommitted, now)
    ensures Good(owner, Committing(w, now))
  {
    ConfirmedGood(owner, w, w.phase.snapshot, 0, now);
  }

  lemma AllClosedGood(owner: string -> Key, w: World, order: seq<Key>, now: int)
    requires Good(owner, w) && w.clock <= now && Enumerates(order, w.s.sources.Keys)
    requires forall key :: key in order ==> key in w.s.sources
    ensures Good(owner, Quiet(w, CloseAll(w.s, order), now))
  {
    CloseAllKeeps(owner, w.s, order);
    CloseAllFollows(w.s, order, now);
    FollowsGood(owner, w, CloseAll(w.s, order), now);
  }

  lemma UsersSetGood(owner: string -> Key, w: World, ids: set<int>, order: seq<Key>, now: int)
    requires Good(owner, w) && w.clock <= now && Enumerates(order, w.s.sources.Keys)
    requires forall key :: key in order ==> key in w.s.sources
    ensures Good(owner, Quiet(w, SetUsers(w.s, ids, order, now), now))
  {
    SetUsersKeeps(owner, w.s, ids, order, now);
    SetUsersRecorded(owner, w.s, ids, order, w.h, w.clock, now);
    RaisedSession(w.s, ids, RemovedUsers(w.s, ids));
    SameFlightsGood(owner, w, SetUsers(w.s, ids, order, now), now);
  }

  lemma RaisedSession(s: State, ids: set<int>, removed: set<int>)
    ensures Raised(s, ids, removed).session.run == s.session.run
            && Raised(s, ids, removed).session.ready == s.session.ready
  {
    if removed != {} {
      assert Raised(s, ids, removed).session
             == s.session.(users := Some(ids), barriers := Raised(s, ids, removed).session.barriers);
    }
  }

  lemma ReleasedGood(owner: string -> Key, w: World, permit: nat, now: int)
    requires Good(owner, w) && w.clock <= now
    ensures Good(owner, Quiet(w, Release(w.s, permit, now), now))
  {
    ReleaseKeeps(owner, w.s, permit, now);
    ReleaseFollows(w.s, permit, now);
    FollowsGood(owner, w, Release(w.s, permit, now), now);
  }

  lemma ConnectedGood(owner: string -> Key, w: World, permit: nat, closing: bool, now: int)
    requires Good(owner, w) && w.clock <= now
    ensures Good(owner, Quiet(w, NewConnection(w.s, permit, closing, now), now))
  {
    NewConnectionKeeps(owner, w.s, permit, closing, now);
    NewConnectionFollows(w.s, permit, closing, now);
    FollowsGood(owner, w, NewConnection(w.s, permit, closing, now), now);
  }

  lemma ExpiredGood(owner: string -> Key, w: World, key: Key, id: nat, deadline: int, now: int)
    requires Good(owner, w) && w.clock <= now
    ensures Good(owner, Quiet(w, Expire(w.s, key, id, deadline, now), now))
  {
    ExpireKeeps(owner, w.s, key, id, deadline, now);
    ExpireFollows(w.s, key, id, deadline, now);
    FollowsGood(owner, w, Expire(w.s, key, id, deadline, now), now);
  }

  lemma StoppedGood(owner: string -> Key, w: World, now: int)
    requires Good(owner, w) && w.clock <= now
    ensures Good(owner, Quiet(w, Stop(w.s), now))
  {
    SessionRecorded(w.s, Stop(w.s), w.h, w.clock, now);
    QuietGood(owner, w, Stop(w.s), now);
  }

  lemma SynchronisationGood(owner: string -> Key, w: World, e: Event, now: int)
    requires Good(owner, w) && Enabled(owner, w, e, now) && IsSynchronisation(e)
    ensures Good(owner, NextSynchronisation(owner, w, e, now))
  {
    if e.BeginStart? {
      BeginStartGood(owner, w, e.drawn, now);
    } else if e.BeginFinished? {
      BeginFinishedGood(owner, w, now);
    } else if e.SyncStarted? {
      SendingGood(owner, w, e.renewable, now);
    } else if e.SyncLost? {
      LostGood(owner, w, w.phase.snapshot.run, now);
    } else if e.SyncAccepted? {
      EnumeratedPresent(e.order, w.s.sources.Keys);
      AcceptedGood(owner, w, e, now);
    } else if e.SyncCommitted? {
      CommittedGood(owner, w, now);
    } else {
      SameGood(owner, w, now);
    }
  }

  lemma PanelStepGood(owner: string -> Key, w: World, e: Event, now: int)
    requires Good(owner, w) && Enabled(owner, w, e, now)
    requires e.RevocationsApplied? || e.AdmissionConfirmed? || e.Granted? || e.AdmissionFinished? || e.SessionLost?
             || e.UsersSet?
    ensures Good(owner, NextLocal(owner, w, e, now))
  {
    if e.RevocationsApplied? {
      RevocationsGood(owner, w, e.items, e.sequence, e.run, now);
    } else if e.AdmissionConfirmed? {
      ConfirmedGood(owner, w, w.h.sampled[e.sequence].snapshot, e.user, now);
    } else if e.Granted? {
      GrantInputs(owner, w, e, now);
      GrantedGood(owner, w, e.item, LeaseDeadline(e.item, e.serverTime, e.started, e.checked).value, e.sequence, e.run,
                  now);
    } else if e.AdmissionFinished? {
      FinishedGood(owner, w, e.key, e.lease, e.live, e.stopped, now);
    } else if e.SessionLost? {
      LostGood(owner, w, e.run, now);
    } else {
      EnumeratedPresent(e.order, w.s.sources.Keys);
      UsersSetGood(owner, w, e.ids, e.order, now);
    }
  }

  lemma LocalStepGood(owner: string -> Key, w: World, e: Event, now: int)
    requires Good(owner, w) && Enabled(owner, w, e, now) && !IsSynchronisation(e)
    ensures Good(owner, NextLocal(owner, w, e, now))
  {
    if e.Acquired? {
      AcquiredGood(owner, w, e.key, e.waiter, e.stopped, now);
    } else if e.LeftFlight? {
      LeftFlightGood(owner, w, e.key, e.flight, e.waiter, now);
    } else if e.Sampled? {
      DrawingGood(owner, w, now);
    } else if e.AllClosed? {
      EnumeratedPresent(e.order, w.s.sources.Keys);
      AllClosedGood(owner, w, e.order, now);
    } else if e.Expired? {
      ExpiredGood(owner, w, e.key, e.id, e.deadline, now);
    } else if e.Released? {
      ReleasedGood(owner, w, e.permit, now);
    } else if e.Connected? {
      ConnectedGood(owner, w, e.permit, e.closing, now);
    } else if e.Stopped? {
      StoppedGood(owner, w, now);
    } else {
      PanelStepGood(owner, w, e, now);
    }
  }

  /** Every step of every run keeps the invariant. */
  lemma StepKeepsGood(owner: string -> Key, w: World, e: Event, now: int)
    requires Good(owner, w) && Enabled(owner, w, e, now)
    ensures Good(owner, Next(owner, w, e, now))
  {
    if IsSynchronisation(e) {
      SynchronisationGood(owner, w, e, now);
    } else {
      LocalStepGood(owner, w, e, now);
    }
  }
}
