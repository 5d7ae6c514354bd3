/** What the device-lease coordinator promises, over every run and for every reply. */
module DeviceGateTheorems {
  import opened Common
  import opened DeviceGateState
  import opened DeviceGateInvariant
  import opened DeviceGateHistory
  import opened DeviceGateWorld
  import opened DeviceGateNotices

  datatype Timed = Timed(event: Event, now: int)

  /** The world after a run, if the environment could have produced the run. */
  ghost function After(owner: string -> Key, trace: seq<Timed>): Option<World> {
    if trace == [] then Some(Start)
    else
      var last := trace[|trace| - 1];
      match After(owner, trace[..|trace| - 1])
      case None => None
      case Some(w) => if Enabled(owner, w, last.event, last.now) then Some(Next(owner, w, last.event, last.now))
                      else None
  }

  lemma {:induction false} EveryRunIsGood(owner: string -> Key, trace: seq<Timed>)
    requires After(owner, trace).Some?
    ensures Good(owner, After(owner, trace).value)
  {
    if trace == [] {
    } else {
      EveryRunIsGood(owner, trace[..|trace| - 1]);
      var last := trace[|trace| - 1];
      StepKeepsGood(owner, After(owner, trace[..|trace| - 1]).value, last.event, last.now);
    }
  }

  // ---------------------------------------------------------------- permits rest on current confirmations

  /** Every list that took a user away left a barrier behind at the next number. */
  ghost predicate ListsFenced(w: World) {
    forall i, user :: 0 <= i < |w.lists| && user in w.lists[i].removed ==>
              RemovalEvent(user, w.lists[i].counter + 1) in w.h.removals
  }

  lemma RemovalRaises(owner: string -> Key, s: State, ids: set<int>, order: seq<Key>, now: int, user: int)
    requires Inv(owner, s) && Enumerates(order, s.sources.Keys) && user in RemovedUsers(s, ids)
    requires forall key :: key in order ==> key in s.sources
    ensures RemovalEvent(user, s.counter + 1) in NewRemovals(s.session.barriers,
                                                             SetUsers(s, ids, order, now).session.barriers)
  {
    var removed := RemovedUsers(s, ids);
    RaisedFrame(s, ids, removed, Unlisted(s, ids, order), now);
    RaisedCase(s, ids, removed);
    RaisedMapAt(s.session.barriers, removed, s.counter + 1, user);
    assert SetUsers(s, ids, order, now).session == Raised(s, ids, removed).session;
  }

  /** Nothing that happened is forgotten, and only a new list adds a list. */
  lemma HistoryGrows(owner: string -> Key, w: World, e: Event, now: int)
    requires Enabled(owner, w, e, now)
    ensures w.h.removals <= Next(owner, w, e, now).h.removals
    ensures !e.UsersSet? ==> Next(owner, w, e, now).lists == w.lists
  {
  }

  lemma ListKeepsFences(owner: string -> Key, w: World, ids: set<int>, order: seq<Key>, now: int)
    requires Good(owner, w) && ListsFenced(w) && Enumerates(order, w.s.sources.Keys)
    requires forall key :: key in order ==> key in w.s.sources
    ensures ListsFenced(Listing(w, SetUsers(w.s, ids, order, now), ids, now))
  {
    var v := Listing(w, SetUsers(w.s, ids, order, now), ids, now);
    forall i, user | 0 <= i < |v.lists| && user in v.lists[i].removed
      ensures RemovalEvent(user, v.lists[i].counter + 1) in v.h.removals
    {
      if i == |w.lists| {
        RemovalRaises(owner, w.s, ids, order, now, user);
      } else {
        assert v.lists[i] == w.lists[i];
      }
    }
  }

  lemma StepKeepsFences(owner: string -> Key, w: World, e: Event, now: int)
    requires Good(owner, w) && ListsFenced(w) && Enabled(owner, w, e, now)
    ensures ListsFenced(Next(owner, w, e, now))
  {
    if e.UsersSet? {
      EnumeratedPresent(e.order, w.s.sources.Keys);
      ListKeepsFences(owner, w, e.ids, e.order, now);
    } else {
      HistoryGrows(owner, w, e, now);
    }
  }

  lemma {:induction false} EveryRunIsFenced(owner: string -> Key, trace: seq<Timed>)
    requires After(owner, trace).Some?
    ensures ListsFenced(After(owner, trace).value)
  {
    if trace == [] {
    } else {
      var front, last := trace[..|trace| - 1], trace[|trace| - 1];
      EveryRunIsFenced(owner, front);
      EveryRunIsGood(owner, front);
      StepKeepsFences(owner, After(owner, front).value, last.event, last.now);
    }
  }

  /**
   The lease has not run out, and was confirmed after every revocation of it and after every user list that left out its
   user while the coordinator knew the user: by the list before, an admission under way or a source it held.
   */
  ghost predicate Current(w: World, key: Key, source: Source, now: int) {
    && !source.revoked && now < source.deadline && Permitted(w.s, key.user)
    && (forall e :: e in w.h.revocations && e.lease == source.lease ==> e.barrier < source.confirmedSequence)
    && (forall i :: 0 <= i < |w.lists| && key.user in w.lists[i].removed ==>
          w.lists[i].counter < source.confirmedSequence)
  }

  /**
   A usable source owes nothing to the past.  This covers records the coordinator has dropped: a revocation whose record
   was pruned is older than the grace time, and a lease confirmed before it has run out by then.
   */
  lemma UsableIsCurrent(owner: string -> Key, w: World, key: Key, now: int)
    requires Good(owner, w) && ListsFenced(w) && w.clock <= now && Usable(w.s, key, now) && Permitted(w.s, key.user)
    ensures Current(w, key, w.s.sources[key], now)
  {
    var source := w.s.sources[key];
    forall e | e in w.h.revocations && e.lease == source.lease ensures e.barrier < source.confirmedSequence {
      assert Outlived(source, e);
      assert Clear(key, source, w.s.revoked, w.s.session.barriers);
    }
    forall i | 0 <= i < |w.lists|
           && key.user in w.lists[i].removed ensures w.lists[i].counter < source.confirmedSequence {
      assert RemovalEvent(key.user, w.lists[i].counter + 1) in w.h.removals;
    }
  }

  lemma {:induction false} IssuedForKey(s: State, key: Key, waiters: seq<nat>, now: int, p: nat)
    requires key in s.sources && p in IssueEach(s, key, waiters, now).permits && p !in s.permits
    ensures IssueEach(s, key, waiters, now).permits[p] == Permit(key, s.sources[key].id)
    ensures IssueEach(s, key, waiters, now).sources[key].id == s.sources[key].id
  {
    if waiters == [] {
    } else {
      var mid := IssueEach(s, key, waiters[..|waiters| - 1], now);
      IssueEachSameId(s, key, waiters[..|waiters| - 1], now);
      if p in mid.permits {
        IssuedForKey(s, key, waiters[..|waiters| - 1], now, p);
      }
    }
  }

  lemma {:induction false} IssueEachSameId(s: State, key: Key, waiters: seq<nat>, now: int)
    requires key in s.sources
    ensures IssueEach(s, key, waiters, now).sources[key].id == s.sources[key].id
  {
    if waiters == [] {
    } else {
      IssueEachSameId(s, key, waiters[..|waiters| - 1], now);
    }
  }

  lemma SynchronisationIssuesNothing(owner: string -> Key, w: World, e: Event, now: int)
    requires Good(owner, w) && Enabled(owner, w, e, now) && IsSynchronisation(e)
    ensures Next(owner, w, e, now).s.permits == w.s.permits
    ensures Continues(w.s, Next(owner, w, e, now).s)
  {
    if e.SyncAccepted? {
      AcceptIssuesNothing(owner, w, e, now);
    } else {
      SameTables(owner, w, e, now);
      SameTablesContinue(w.s, Next(owner, w, e, now).s);
    }
  }

  lemma SameTables(owner: string -> Key, w: World, e: Event, now: int)
    requires Enabled(owner, w, e, now) && IsSynchronisation(e) && !e.SyncAccepted?
    ensures var t := NextSynchronisation(owner, w, e, now).s;
            t.permits == w.s.permits && t.sources == w.s.sources && t.nextId == w.s.nextId
  {
    if e.SyncCommitted? {
      assert Committing(w, now).s == ConfirmSnapshot(w.s, w.phase.snapshot, 0);
    }
  }

  lemma SameTablesContinue(s: State, t: State)
    requires t.permits == s.permits && t.sources == s.sources && t.nextId == s.nextId
    ensures Continues(s, t)
  {
  }

  /** A step that neither asks for a connection, ends an admission nor lets a permit go. */
  predicate KeepsPermits(e: Event) {
    !e.Acquired? && !e.AdmissionFinished? && !e.Released?
  }

  /** A step that touches neither a lease nor a session's list of users, nor the synchronisation. */
  predicate IsPlain(e: Event) {
    !IsSynchronisation(e) && !e.RevocationsApplied? && !e.Granted? && !e.AllClosed? && !e.UsersSet?
  }

  lemma PlainStepsKeepPermits(owner: string -> Key, w: World, e: Event, now: int)
    requires Enabled(owner, w, e, now) && KeepsPermits(e) && IsPlain(e)
    ensures Next(owner, w, e, now).s.permits == w.s.permits
  {
  }

  /** Only a connection request and a finished admission hand out permits, and only a release takes one back. */
  lemma OtherStepsKeepPermits(owner: string -> Key, w: World, e: Event, now: int)
    requires Good(owner, w) && Enabled(owner, w, e, now) && KeepsPermits(e)
    ensures Next(owner, w, e, now).s.permits == w.s.permits
  {
    if IsSynchronisation(e) {
      SynchronisationIssuesNothing(owner, w, e, now);
    } else if e.Granted? {
      GrantIssuesNothing(owner, w, e, now);
    } else if IsPlain(e) {
      PlainStepsKeepPermits(owner, w, e, now);
    } else {
      RevokingKeepsPermits(owner, w, e, now);
    }
  }

  lemma RevokingKeepsPermits(owner: string -> Key, w: World, e: Event, now: int)
    requires Good(owner, w) && Enabled(owner, w, e, now) && (e.RevocationsApplied? || e.AllClosed? || e.UsersSet?)
    ensures Next(owner, w, e, now).s.permits == w.s.permits
  {
    if e.RevocationsApplied? {
      RevokeFollows(w.s, e.items, e.sequence, now);
    } else if e.AllClosed? {
      EnumeratedPresent(e.order, w.s.sources.Keys);
      CloseAllFollows(w.s, e.order, now);
    } else {
      EnumeratedPresent(e.order, w.s.sources.Keys);
      SetUsersRecorded(owner, w.s, e.ids, e.order, w.h, w.clock, now);
    }
  }

  lemma ReleaseIssuesNothing(s: State, permit: nat, now: int)
    ensures Release(s, permit, now).permits == s.permits - {permit}
  {
    if permit in s.permits {
      var key := s.permits[permit].key;
      if key in s.sources && s.sources[key].id == s.permits[permit].source {
        ReleaseCases(s, permit, now);
      }
    }
  }

  lemma GrantIssuesNothing(owner: string -> Key, w: World, e: Event, now: int)
    requires Good(owner, w) && e.Granted? && Enabled(owner, w, e, now)
    ensures Next(owner, w, e, now).s.permits == w.s.permits
    ensures Continues(w.s, Next(owner, w, e, now).s)
  {
    var deadline := LeaseDeadline(e.item, e.serverTime, e.started, e.checked).value;
    GrantInputs(owner, w, e, now);
    GrantRecorded(owner, w.s, e.item, deadline, e.sequence, e.run, w.h, w.clock, now);
  }

  lemma AcceptIssuesNothing(owner: string -> Key, w: World, e: Event, now: int)
    requires Good(owner, w) && e.SyncAccepted? && Enabled(owner, w, e, now)
    ensures Next(owner, w, e, now).s.permits == w.s.permits
    ensures Continues(w.s, Next(owner, w, e, now).s)
  {
    EnumeratedPresent(e.order, w.s.sources.Keys);
    if w.s.session.run == e.reply.run {
      AcceptInputs(owner, w, e, now);
      AcceptRecorded(owner, w.s, e.reply, e.deadlines, e.reply.sequence, e.order, w.h, w.clock, now);
    }
  }

  /**
   In every run, a permit is only ever handed out for a source whose confirmation was sampled after every revocation of
   its lease and every user list that took away a user the coordinator knew, whether or not it still remembers them.
   */
  lemma NoPermitOnAStaleReply(owner: string -> Key, trace: seq<Timed>, e: Event, now: int, p: nat)
    requires After(owner, trace).Some? && Enabled(owner, After(owner, trace).value, e, now)
    requires p in Next(owner, After(owner, trace).value, e, now).s.permits && p !in After(owner, trace).value.s.permits
    ensures var w := After(owner, trace).value;
            var permit := Next(owner, w, e, now).s.permits[p];
            permit.key in w.s.sources && w.s.sources[permit.key].id == permit.source &&
            Current(w, permit.key, w.s.sources[permit.key], now)
  {
    EveryRunIsGood(owner, trace);
    EveryRunIsFenced(owner, trace);
    var w := After(owner, trace).value;
    if e.Acquired? {
      AcquireCases(w.s, e.key, e.waiter, e.stopped, now);
      UsableIsCurrent(owner, w, e.key, now);
    } else if e.AdmissionFinished? {
      IssuedForKey(w.s, e.key, e.live, now, p);
      UsableIsCurrent(owner, w, e.key, now);
    } else if e.Released? {
      ReleaseIssuesNothing(w.s, e.permit, now);
    } else {
      OtherStepsKeepPermits(owner, w, e, now);
    }
  }

  // ---------------------------------------------------------------- live connections keep their source

  lemma RequestContinues(s: State, key: Key, waiter: nat, stopped: bool, now: int)
    ensures Continues(s, Acquire(s, key, waiter, stopped, now))
  {
    AcquireCases(s, key, waiter, stopped, now);
    if AcquireOutcome(s, key, stopped, now) == Reuse {
      IssuePermitFollows(s, key, now);
    }
  }

  lemma FinishContinues(s: State, key: Key, lease: Option<string>, live: seq<nat>, stopped: bool, now: int)
    ensures Continues(s, FinishAdmission(s, key, lease, live, stopped, now))
  {
    if lease.Some? && AdmissionStands(s, key, lease.value, stopped, now) {
      IssueEachFollows(s, key, live, now);
    }
  }

  lemma StepContinues(owner: string -> Key, w: World, e: Event, now: int)
    requires Good(owner, w) && Enabled(owner, w, e, now)
    ensures Continues(w.s, Next(owner, w, e, now).s)
  {
    if IsSynchronisation(e) {
      SynchronisationIssuesNothing(owner, w, e, now);
    } else {
      LocalStepContinues(owner, w, e, now);
    }
  }

  lemma LocalStepContinues(owner: string -> Key, w: World, e: Event, now: int)
    requires Good(owner, w) && Enabled(owner, w, e, now) && !IsSynchronisation(e)
    ensures Continues(w.s, Next(owner, w, e, now).s)
  {
    if e.Acquired? {
      RequestContinues(w.s, e.key, e.waiter, e.stopped, now);
    } else if e.RevocationsApplied? {
      RevokeFollows(w.s, e.items, e.sequence, now);
    } else if e.Granted? {
      GrantIssuesNothing(owner, w, e, now);
    } else if e.AdmissionFinished? {
      FinishContinues(w.s, e.key, e.lease, e.live, e.stopped, now);
    } else if e.AllClosed? {
      EnumeratedPresent(e.order, w.s.sources.Keys);
      CloseAllFollows(w.s, e.order, now);
    } else if e.Expired? {
      ExpireFollows(w.s, e.key, e.id, e.deadline, now);
    } else if e.UsersSet? {
      EnumeratedPresent(e.order, w.s.sources.Keys);
      SetUsersRecorded(owner, w.s, e.ids, e.order, w.h, w.clock, now);
    } else if e.Released? {
      ReleaseFollows(w.s, e.permit, now);
    } else if e.Connected? {
      NewConnectionFollows(w.s, e.permit, e.closing, now);
    }
  }

  lemma {:induction false} IssuedPermitsStay(s: State, key: Key, waiters: seq<nat>, now: int)
    requires key in s.sources
    ensures s.permits.Keys <= IssueEach(s, key, waiters, now).permits.Keys
  {
    if waiters == [] {
    } else {
      IssuedPermitsStay(s, key, waiters[..|waiters| - 1], now);
    }
  }

  /** Handing out permits takes none back. */
  lemma IssuingKeepsPermits(owner: string -> Key, w: World, e: Event, now: int)
    requires Enabled(owner, w, e, now) && (e.Acquired? || e.AdmissionFinished?)
    ensures w.s.permits.Keys <= Next(owner, w, e, now).s.permits.Keys
  {
    if e.Acquired? {
      AcquireCases(w.s, e.key, e.waiter, e.stopped, now);
    } else if e.lease.Some? && AdmissionStands(w.s, e.key, e.lease.value, e.stopped, now) {
      IssuedPermitsStay(w.s, e.key, e.live, now);
    }
  }

  /** A permit leaves the table by its own release and by nothing else. */
  lemma PermitsLeaveByRelease(owner: string -> Key, trace: seq<Timed>, e: Event, now: int, p: nat)
    requires After(owner, trace).Some? && Enabled(owner, After(owner, trace).value, e, now)
    requires p in After(owner, trace).value.s.permits
    ensures p in Next(owner, After(owner, trace).value, e, now).s.permits <==> e != Released(p)
  {
    EveryRunIsGood(owner, trace);
    var w := After(owner, trace).value;
    if KeepsPermits(e) {
      OtherStepsKeepPermits(owner, w, e, now);
    } else if e.Released? {
      ReleaseIssuesNothing(w.s, e.permit, now);
    } else {
      IssuingKeepsPermits(owner, w, e, now);
    }
  }

  /**
   While a permit is out, which is until its own release, the source it points at stays the entry of its key: no other
   step takes the permit back, replaces the source, drops it, changes its lease or lists the lease as retired.
   */
  lemma LiveConnectionsKeepTheirSource(owner: string -> Key, trace: seq<Timed>, e: Event, now: int, p: nat)
    requires After(owner, trace).Some? && Enabled(owner, After(owner, trace).value, e, now)
    requires p in After(owner, trace).value.s.permits && e != Released(p)
    ensures var s := After(owner, trace).value.s;
            var t := Next(owner, After(owner, trace).value, e, now).s;
            var key := s.permits[p].key;
            && p in t.permits && t.permits[p] == s.permits[p]
            && key in s.sources && key in t.sources
            && t.sources[key].id == s.sources[key].id && t.sources[key].lease == s.sources[key].lease
            && p in t.sources[key].permits && t.sources[key].lease !in t.retired
  {
    EveryRunIsGood(owner, trace);
    PermitsLeaveByRelease(owner, trace, e, now, p);
    var w := After(owner, trace).value;
    StepContinues(owner, w, e, now);
    StepKeepsGood(owner, w, e, now);
  }

  // ---------------------------------------------------------------- offline notices

  lemma ConfirmAccounts(owner: string -> Key, s: State, snapshot: Snapshot, user: int, lease: string)
    requires Accounted(owner, s, lease)
    requires lease in s.retired ==> !Settles(snapshot.sequence, user, s.retired[lease])
    ensures Accounted(owner, ConfirmSnapshot(s, snapshot, user), lease)
  {
  }

  predicate Acknowledges(e: Event) {
    e.AdmissionConfirmed? || e.SyncCommitted?
  }

  lemma SynchronisationAccounts(owner: string -> Key, w: World, e: Event, now: int)
    requires Good(owner, w) && Enabled(owner, w, e, now) && IsSynchronisation(e) && !Acknowledges(e)
    ensures Accounts(owner, w.s, Next(owner, w, e, now).s)
  {
    if e.SyncAccepted? {
      EnumeratedPresent(e.order, w.s.sources.Keys);
      if w.s.session.run == e.reply.run {
        AcceptInputs(owner, w, e, now);
        AcceptAccounts(owner, w.s, e.reply, e.deadlines, e.reply.sequence, e.order, now);
      }
    } else {
      SameAccounts(owner, w.s, Next(owner, w, e, now).s);
    }
  }

  lemma StepAccounts(owner: string -> Key, w: World, e: Event, now: int)
    requires Good(owner, w) && Enabled(owner, w, e, now) && !Acknowledges(e)
    ensures Accounts(owner, w.s, Next(owner, w, e, now).s)
  {
    if IsSynchronisation(e) {
      SynchronisationAccounts(owner, w, e, now);
    } else {
      LocalStepAccounts(owner, w, e, now);
    }
  }

  lemma ExpireAccounts(owner: string -> Key, s: State, key: Key, id: nat, deadline: int, now: int)
    requires Inv(owner, s)
    ensures Accounts(owner, s, Expire(s, key, id, deadline, now))
  {
    if key in s.sources && s.sources[key].permits == {} {
      RemoveSourceAccounts(owner, s, key);
    }
  }

  lemma LocalStepAccounts(owner: string -> Key, w: World, e: Event, now: int)
    requires Good(owner, w) && Enabled(owner, w, e, now) && !Acknowledges(e) && !IsSynchronisation(e)
    ensures Accounts(owner, w.s, Next(owner, w, e, now).s)
  {
    if e.Acquired? {
      AcquireAccounts(owner, w.s, e.key, e.waiter, e.stopped, now);
    } else if e.RevocationsApplied? {
      RevokeAccounts(owner, w.s, e.items, e.sequence, now);
    } else if e.Granted? {
      GrantAccounts(owner, w.s, e.item, LeaseDeadline(e.item, e.serverTime, e.started, e.checked).value, e.sequence,
                    e.run, now);
    } else if e.AdmissionFinished? {
      FinishAdmissionAccounts(owner, w.s, e.key, e.lease, e.live, e.stopped, now);
    } else if e.AllClosed? {
      EnumeratedPresent(e.order, w.s.sources.Keys);
      CloseAllAccounts(owner, w.s, e.order);
    } else if e.Expired? {
      ExpireAccounts(owner, w.s, e.key, e.id, e.deadline, now);
    } else if e.UsersSet? {
      EnumeratedPresent(e.order, w.s.sources.Keys);
      SetUsersAccounts(owner, w.s, e.ids, e.order, now);
    } else if e.Released? {
      ReleaseAccounts(owner, w.s, e.permit, now);
    } else {
      SameAccounts(owner, w.s, Next(owner, w, e, now).s);
    }
  }

  /** The snapshot whose acknowledgement a step reports. */
  ghost function AcknowledgedBy(w: World, e: Event): Snapshot
    requires Acknowledges(e) && (e.AdmissionConfirmed? ==> e.sequence in w.h.sampled)
             && (e.SyncCommitted? ==> w.phase.Accepted?)
  {
    if e.SyncCommitted? then w.phase.snapshot else w.h.sampled[e.sequence].snapshot
  }

  /** What the panel had been told under that acknowledgement: the snapshot itself, or the base it named. */
  ghost function ToldBy(w: World, e: Event): Snapshot
    requires Acknowledges(e) && (e.AdmissionConfirmed? ==> e.sequence in w.h.sampled)
             && (e.SyncCommitted? ==> w.phase.Accepted?)
    requires e.SyncCommitted? && w.phase.short ==> w.base in w.acked
  {
    if e.SyncCommitted? && w.phase.short then w.acked[w.base] else AcknowledgedBy(w, e)
  }

  /**
   In every run, a lease that is accounted for (held, or listed as retired) stays so across every step, except that a
   retirement leaves the list with an acknowledgement that listed exactly that retirement, directly or through its base.
   */
  lemma NoOfflineNoticeIsLost(owner: string -> Key, trace: seq<Timed>, e: Event, now: int, lease: string)
    requires After(owner, trace).Some? && Enabled(owner, After(owner, trace).value, e, now)
    requires Accounted(owner, After(owner, trace).value.s, lease)
    requires !Accounted(owner, Next(owner, After(owner, trace).value, e, now).s, lease)
    ensures var w := After(owner, trace).value;
            && Acknowledges(e) && lease in w.s.retired
            && (e.SyncCommitted? && w.phase.short ==> w.base in w.acked)
            && w.s.retired[lease].sequence < AcknowledgedBy(w, e).sequence
            && w.s.retired[lease].item in AcknowledgedBy(w, e).retired
            && w.s.retired[lease].item in ToldBy(w, e).retired
  {
    EveryRunIsGood(owner, trace);
    var w := After(owner, trace).value;
    if !Acknowledges(e) {
      StepAccounts(owner, w, e, now);
    } else {
      var snapshot := AcknowledgedBy(w, e);
      var user := if e.SyncCommitted? then 0 else e.user;
      if lease !in w.s.retired || !Settles(snapshot.sequence, user, w.s.retired[lease]) {
        ConfirmAccounts(owner, w.s, snapshot, user, lease);
      }
      assert snapshot.sequence in w.h.sampled && w.h.sampled[snapshot.sequence].snapshot == snapshot;
    }
  }

  // ---------------------------------------------------------------- shortened renewals

  /**
   In every run, whenever a shortened message is out, the full snapshot last acknowledged under the base it names equals
   the snapshot it stands for in everything but the number and the ages of the connections.
   */
  lemma ShortRenewalRefinesFull(owner: string -> Key, trace: seq<Timed>)
    requires After(owner, trace).Some? && After(owner, trace).value.phase.Sent? && After(owner, trace).value.phase.short
    ensures var w := After(owner, trace).value;
            && w.base in w.acked && SameSnapshot(w.acked[w.base], w.phase.snapshot)
            && w.phase.snapshot.sequence in w.h.sampled
            && w.h.sampled[w.phase.snapshot.sequence].snapshot == w.phase.snapshot
  {
    EveryRunIsGood(owner, trace);
  }

  // ---------------------------------------------------------------- leases a reply leaves out

  lemma {:induction false} OmittedCovers(s: State, leases: seq<Lease>, sequence: nat, order: seq<Key>, key: Key)
    requires forall k :: k in order ==> k in s.sources
    requires key in order && IsOmitted(s, key, leases, sequence)
    ensures Revocation("", 0, key.user, key.ip, s.sources[key].lease) in Omitted(s, leases, sequence, order)
  {
    if key != order[|order| - 1] {
      assert key in order[..|order| - 1];
      OmittedCovers(s, leases, sequence, order[..|order| - 1], key);
    }
  }

  lemma {:induction false} OmittedOnly(s: State, leases: seq<Lease>, sequence: nat, order: seq<Key>, item: Revocation)
    requires forall k :: k in order ==> k in s.sources
    requires item in Omitted(s, leases, sequence, order)
    ensures item.At() in s.sources && IsOmitted(s, item.At(), leases, sequence)
  {
    if item !in Omitted(s, leases, sequence, order[..|order| - 1]) {
      assert item.At() == order[|order| - 1];
    } else {
      OmittedOnly(s, leases, sequence, order[..|order| - 1], item);
    }
  }

  /** The staleness test never spares a source that the reply's snapshot should have listed. */
  lemma {:induction false} ListedRevoked(owner: string -> Key, s: State, items: seq<Revocation>, sequence: nat,
                                         now: int, key: Key)
    requires Inv(owner, s) && OwnItems(owner, items) && sequence <= s.counter
    requires key in s.sources && s.sources[key].omissionSequence <= sequence
    requires Revocation("", 0, key.user, key.ip, s.sources[key].lease) in items
    ensures var t := RevokeItems(s, items, sequence, now); key in t.sources ==> t.sources[key].revoked
  {
    var last := items[|items| - 1];
    var front := items[..|items| - 1];
    var mid := RevokeItems(s, front, sequence, now);
    SourcesOnlyLeave(s, front, sequence, now, key);
    RevokeItemsKeeps(owner, s, front, sequence, now);
    RevokeItemSources(mid, last, sequence, now);
    if last != Revocation("", 0, key.user, key.ip, s.sources[key].lease) {
      assert Revocation("", 0, key.user, key.ip, s.sources[key].lease) in front;
      ListedRevoked(owner, s, front, sequence, now, key);
    } else if key in mid.sources && !mid.sources[key].revoked {
      assert Clear(key, mid.sources[key], mid.revoked, mid.session.barriers);
    }
  }

  lemma InstallingEntry(s: State, item: Lease, deadline: int, sequence: nat, kind: InstallCase, key: Key)
    requires kind in {Refreshed, Renewed, Replaced} ==> item.At() in s.sources
    ensures key in s.sources ==> key in Installing(s, item, deadline, sequence, kind).sources
    ensures key in Installing(s, item, deadline, sequence, kind).sources && key != item.At() ==>
              key in s.sources && Installing(s, item, deadline, sequence, kind).sources[key] == s.sources[key]
  {
    if kind == Replaced {
      assert Vacated(s, item.At()).sources == s.sources - {item.At()};
    }
  }

  lemma InstallEntry(s: State, item: Lease, deadline: int, sequence: nat, key: Key)
    ensures var t := Install(s, item, deadline, sequence);
            && (key in t.sources && !(key in s.sources && t.sources[key] == s.sources[key]) ==>
                  t.sources[key].lease == item.lease)
            && (key in s.sources ==> key in t.sources)
  {
    InstallCases(s, item, deadline, sequence);
    InstallingEntry(s, item, deadline, sequence, Classify(s, item, sequence), key);
  }

  /** An entry that installing the reply changed is under a lease the reply states. */
  lemma {:induction false} InstallAllEntry(s: State, items: seq<Lease>, deadlines: seq<int>, sequence: nat, key: Key)
    requires |items| == |deadlines|
    ensures var t := InstallAll(s, items, deadlines, sequence);
            && (key in t.sources && !(key in s.sources && t.sources[key] == s.sources[key]) ==>
                  t.sources[key].lease in Present(items))
            && (key in s.sources ==> key in t.sources)
  {
    if items == [] {
    } else {
      var n := |items| - 1;
      InstallAllEntry(s, items[..n], deadlines[..n], sequence, key);
      InstallEntry(InstallAll(s, items[..n], deadlines[..n], sequence), items[n], deadlines[n], sequence, key);
      assert forall i :: 0 <= i < n ==> items[..n][i] == items[i];
      forall lease | lease in Present(items[..n]) ensures lease in Present(items) {
        var i :| 0 <= i < n && items[..n][i].lease == lease;
        assert items[i].lease == lease;
      }
    }
  }

  /**
   After a reply with sequence `sequence` is accepted, every source in force that was settled before its snapshot was
   drawn has its lease listed in the reply.
   */
  lemma OmittedSourcesAreOut(owner: string -> Key, s: State, reply: SyncReply, deadlines: seq<int>, sequence: nat,
                             order: seq<Key>, now: int, key: Key)
    requires Inv(owner, s) && OwnLeases(owner, reply.leases) && OwnItems(owner, reply.idle)
    requires |deadlines| == |reply.leases| && sequence <= s.counter && Enumerates(order, s.sources.Keys)
    requires forall k :: k in order ==> k in s.sources
    requires var t := Accept(s, reply, deadlines, sequence, order, now);
             key in t.sources && !t.sources[key].revoked && t.sources[key].omissionSequence <= sequence
    ensures Accept(s, reply, deadlines, sequence, order, now).sources[key].lease in Present(reply.leases)
  {
    var installed := InstallAll(s, reply.leases, deadlines, sequence);
    var omitted := Omitted(s, reply.leases, sequence, order);
    var listed := AcceptListed(s, reply, deadlines, sequence, order, now);
    var idle := IdleReturns(listed, reply.idle, reply.leases, sequence);
    SourcesOnlyLeave(Prune(listed, now), idle, sequence, now, key);
    SourcesOnlyLeave(Prune(installed, now), omitted, sequence, now, key);
    InstallAllEntry(s, reply.leases, deadlines, sequence, key);
    if installed.sources[key].lease !in Present(reply.leases) {
      assert key in Elements(order);
      OmittedCovers(s, reply.leases, sequence, order, key);
      OmittedOwned(owner, s, reply.leases, sequence, order);
      InstallAllKeeps(owner, s, reply.leases, deadlines, sequence);
      PruneKeeps(owner, installed, now);
      ListedRevoked(owner, Prune(installed, now), omitted, sequence, now, key);
    }
  }

  lemma {:induction false} UntouchedByItems(s: State, items: seq<Revocation>, sequence: nat, now: int, key: Key)
    requires key in s.sources && forall item :: item in items ==> item.At() != key
    ensures var t := RevokeItems(s, items, sequence, now); key in t.sources && t.sources[key] == s.sources[key]
  {
    if items == [] {
    } else {
      UntouchedByItems(s, items[..|items| - 1], sequence, now, key);
      RevokeItemSources(RevokeItems(s, items[..|items| - 1], sequence, now), items[|items| - 1], sequence, now);
    }
  }

  lemma {:induction false} IdleReturnsOnly(s: State, items: seq<Revocation>, leases: seq<Lease>, sequence: nat,
                                           item: Revocation)
    requires item in IdleReturns(s, items, leases, sequence)
    ensures item.At() in s.sources ==>
              s.sources[item.At()].omissionSequence <= sequence && s.sources[item.At()].permits == {}
              && item.At() !in s.flights
  {
    if item in IdleReturns(s, items[..|items| - 1], leases, sequence) {
      IdleReturnsOnly(s, items[..|items| - 1], leases, sequence, item);
    } else {
      var last := IdleReturn(s, items[|items| - 1], leases, sequence);
      assert last == Some(item) && item.At() == items[|items| - 1].At();
    }
  }

  /**
   A source granted after the reply's snapshot was drawn is not touched for being absent from it: it leaves the section
   as installing the reply's own leases left it.
   */
  lemma LateGrantsSurvive(s: State, reply: SyncReply, deadlines: seq<int>, sequence: nat, order: seq<Key>, now: int,
                          key: Key)
    requires |deadlines| == |reply.leases| && Enumerates(order, s.sources.Keys)
    requires forall k :: k in order ==> k in s.sources
    requires key in s.sources && sequence < s.sources[key].omissionSequence
    ensures var installed := InstallAll(s, reply.leases, deadlines, sequence);
            var listed := AcceptListed(s, reply, deadlines, sequence, order, now);
            var t := Accept(s, reply, deadlines, sequence, order, now);
            && key in installed.sources
            && key in listed.sources && listed.sources[key] == installed.sources[key]
            && (sequence < installed.sources[key].omissionSequence || installed.sources[key].permits != {} ==>
                  key in t.sources && t.sources[key] == installed.sources[key])
  {
    var installed := InstallAll(s, reply.leases, deadlines, sequence);
    var omitted := Omitted(s, reply.leases, sequence, order);
    var listed := AcceptListed(s, reply, deadlines, sequence, order, now);
    InstallAllEntry(s, reply.leases, deadlines, sequence, key);
    forall item | item in omitted ensures item.At() != key {
      OmittedOnly(s, reply.leases, sequence, order, item);
    }
    UntouchedByItems(Prune(installed, now), omitted, sequence, now, key);
    var idle := IdleReturns(listed, reply.idle, reply.leases, sequence);
    if sequence < installed.sources[key].omissionSequence || installed.sources[key].permits != {} {
      forall item | item in idle ensures item.At() != key {
        IdleReturnsOnly(listed, reply.idle, reply.leases, sequence, item);
      }
      UntouchedByItems(Prune(listed, now), idle, sequence, now, key);
    }
  }

  // ---------------------------------------------------------------- granted while a snapshot is under way

  /** No step but a grant or an accepted reply adds a source or moves one's omission sequence. */
  ghost predicate OmissionsKeep(s: State, t: State) {
    forall key :: key in t.sources ==>
              key in s.sources && t.sources[key].omissionSequence == s.sources[key].omissionSequence
  }

  lemma {:induction false} IssueKeepsOmissions(s: State, key: Key, waiters: seq<nat>, now: int)
    requires key in s.sources
    ensures OmissionsKeep(s, IssueEach(s, key, waiters, now))
  {
    if waiters == [] {
    } else {
      IssueKeepsOmissions(s, key, waiters[..|waiters| - 1], now);
    }
  }

  lemma RevokeKeepsOmissions(s: State, items: seq<Revocation>, sequence: nat, now: int)
    ensures OmissionsKeep(s, Revoke(s, items, sequence, now))
  {
    forall key | key in Revoke(s, items, sequence, now).sources
      ensures key in s.sources && Revoke(s, items, sequence,
                                         now).sources[key].omissionSequence == s.sources[key].omissionSequence
    {
      SourcesOnlyLeave(Prune(s, now), items, sequence, now, key);
    }
  }

  lemma {:induction false} CloseKeepsOmissions(s: State, order: seq<Key>)
    requires forall key :: key in order ==> key in s.sources
    requires forall i, j :: 0 <= i < j < |order| ==> order[i] != order[j]
    ensures OmissionsKeep(s, CloseAll(s, order))
  {
    if order == [] {
    } else {
      var front := order[..|order| - 1];
      CloseKeepsOmissions(s, front);
      MarkRevokedSources(CloseAll(s, front), order[|order| - 1]);
    }
  }

  lemma ReleaseKeepsOmissions(s: State, permit: nat, now: int)
    ensures OmissionsKeep(s, Release(s, permit, now))
  {
  }

  lemma QuietStepKeepsOmissions(owner: string -> Key, w: World, e: Event, now: int)
    requires Enabled(owner, w, e, now) && !IsSynchronisation(e) && !e.Granted?
    ensures OmissionsKeep(w.s, Next(owner, w, e, now).s)
  {
    if e.Acquired? {
      AcquireCases(w.s, e.key, e.waiter, e.stopped, now);
    } else if e.RevocationsApplied? {
      RevokeKeepsOmissions(w.s, e.items, e.sequence, now);
    } else if e.AdmissionFinished? {
      if e.lease.Some? && AdmissionStands(w.s, e.key, e.lease.value, e.stopped, now) {
        IssueKeepsOmissions(w.s, e.key, e.live, now);
      }
    } else if e.AllClosed? {
      EnumeratedPresent(e.order, w.s.sources.Keys);
      CloseKeepsOmissions(w.s, e.order);
    } else if e.UsersSet? {
      EnumeratedPresent(e.order, w.s.sources.Keys);
      RaisedCase(w.s, e.ids, RemovedUsers(w.s, e.ids));
      RevokeKeepsOmissions(RaiseBarriers(w.s, e.ids), Unlisted(w.s, e.ids, e.order), 0, now);
    } else if e.Released? {
      ReleaseKeepsOmissions(w.s, e.permit, now);
    }
  }

  /** The source at this key, if there is one, was granted or settled after number `q`. */
  ghost predicate Late(s: State, key: Key, q: nat) {
    key in s.sources ==> q < s.sources[key].omissionSequence
  }

  lemma GrantElsewhere(s: State, item: Lease, deadline: int, sequence: nat, run: string, now: int, key: Key)
    requires key != item.At() && key in Grant(s, item, deadline, sequence, run, now).sources
    ensures key in s.sources && Grant(s, item, deadline, sequence, run, now).sources[key] == s.sources[key]
  {
    InstallCases(s, item, deadline, sequence);
    InstallingEntry(s, item, deadline, sequence, Classify(s, item, sequence), key);
  }

  /** A grant that fails may still confirm a source that has run out. */
  lemma FailedGrantKeepsLate(s: State, item: Lease, deadline: int, sequence: nat, run: string, now: int, q: nat)
    requires Late(s, item.At(), q) && !(s.session.run == run && Installed(s, item, sequence, now))
    ensures Late(Grant(s, item, deadline, sequence, run, now), item.At(), q)
  {
    assert s.session.run == run ==> Classify(s, item, sequence) in {Refused, Refreshed};
  }

  lemma GrantKeepsLate(s: State, item: Lease, deadline: int, sequence: nat, run: string, now: int, key: Key, q: nat)
    requires q <= s.counter && Late(s, key, q)
    ensures Late(Grant(s, item, deadline, sequence, run, now), key, q)
  {
    if key != item.At() {
      if key in Grant(s, item, deadline, sequence, run, now).sources {
        GrantElsewhere(s, item, deadline, sequence, run, now, key);
      }
    } else if s.session.run == run && Installed(s, item, sequence, now) {
      GrantIsLate(s, item, deadline, sequence, run, now, q);
    } else {
      FailedGrantKeepsLate(s, item, deadline, sequence, run, now, q);
    }
  }

  /** A grant that takes effect outranks every number drawn before it. */
  lemma GrantIsLate(s: State, item: Lease, deadline: int, sequence: nat, run: string, now: int, q: nat)
    requires q <= s.counter && s.session.run == run && Installed(s, item, sequence, now)
    ensures item.At() in Grant(s, item, deadline, sequence, run, now).sources
    ensures Late(Grant(s, item, deadline, sequence, run, now), item.At(), q)
  {
    InstallCases(s, item, deadline, sequence);
  }

  lemma StepKeepsLate(owner: string -> Key, w: World, e: Event, now: int, key: Key, q: nat)
    requires Good(owner, w) && Enabled(owner, w, e, now) && !e.SyncAccepted? && q <= w.s.counter && Late(w.s, key, q)
    ensures Late(Next(owner, w, e, now).s, key, q)
  {
    if e.Granted? {
      var deadline := LeaseDeadline(e.item, e.serverTime, e.started, e.checked).value;
      GrantKeepsLate(w.s, e.item, deadline, e.sequence, e.run, now, key, q);
    } else if !IsSynchronisation(e) {
      QuietStepKeepsOmissions(owner, w, e, now);
    }
  }

  lemma SampledStays(owner: string -> Key, w: World, e: Event, now: int, q: nat)
    requires Enabled(owner, w, e, now) && q in w.h.sampled
    ensures q in Next(owner, w, e, now).h.sampled
  {
  }

  ghost predicate NoReply(trace: seq<Timed>) {
    forall i :: 0 <= i < |trace| ==> !trace[i].event.SyncAccepted?
  }

  /** What is late stays late until a reply is accepted. */
  lemma {:induction false} RunKeepsLate(owner: string -> Key, trace: seq<Timed>, rest: seq<Timed>, key: Key, q: nat)
    requires After(owner, trace + rest).Some? && NoReply(rest)
    ensures After(owner, trace).Some?
    ensures var w, t := After(owner, trace).value, After(owner, trace + rest).value;
            && (q in w.h.sampled ==> q in t.h.sampled)
            && (q in w.h.sampled && Late(w.s, key, q) ==> Late(t.s, key, q))
  {
    if rest == [] {
      assert trace + rest == trace;
    } else {
      var front, last := rest[..|rest| - 1], rest[|rest| - 1];
      assert (trace + rest)[..|trace + rest| - 1] == trace + front;
      RunKeepsLate(owner, trace, front, key, q);
      EveryRunIsGood(owner, trace + front);
      var mid := After(owner, trace + front).value;
      if q in mid.h.sampled {
        SampledStays(owner, mid, last.event, last.now, q);
        if Late(mid.s, key, q) {
          StepKeepsLate(owner, mid, last.event, last.now, key, q);
        }
      }
    }
  }

  /**
   In every run: a lease granted while a snapshot is under way, however long before the reply to it arrives, is not
   touched for being absent from that reply. Its source leaves the section as the reply's own leases left it, as long as
   it is newer than the snapshot or in use.
   */
  lemma GrantsUnderWaySurvive(owner: string -> Key, trace: seq<Timed>, grant: Timed, rest: seq<Timed>, e: Event,
                              now: int)
    requires grant.event.Granted? && NoReply(rest) && e.SyncAccepted?
    requires After(owner, trace).Some? && Enabled(owner, After(owner, trace).value, grant.event, grant.now)
    requires var w := After(owner, trace).value;
             && w.phase.Sent? && w.phase.snapshot.sequence == e.reply.sequence
             && w.s.session.run == grant.event.run && Installed(w.s, grant.event.item, grant.event.sequence, grant.now)
    requires After(owner, trace + [grant] + rest).Some?
             && Enabled(owner, After(owner, trace + [grant] + rest).value, e, now)
    requires grant.event.item.At() in After(owner, trace + [grant] + rest).value.s.sources
    requires After(owner, trace + [grant] + rest).value.s.session.run == e.reply.run
    ensures var s, key := After(owner, trace + [grant] + rest).value.s, grant.event.item.At();
            var t := Next(owner, After(owner, trace + [grant] + rest).value, e, now).s;
            var installed := InstallAll(s, e.reply.leases, e.deadlines, e.reply.sequence);
            && e.reply.sequence < s.sources[key].omissionSequence && key in installed.sources
            && (e.reply.sequence < installed.sources[key].omissionSequence || installed.sources[key].permits != {} ==>
                  key in t.sources && t.sources[key] == installed.sources[key])
  {
    var w, key, q := After(owner, trace).value, grant.event.item.At(), e.reply.sequence;
    var deadline := LeaseDeadline(grant.event.item, grant.event.serverTime, grant.event.started,
                                  grant.event.checked).value;
    EveryRunIsGood(owner, trace);
    assert q in w.h.sampled && q <= w.s.counter;
    GrantIsLate(w.s, grant.event.item, deadline, grant.event.sequence, grant.event.run, grant.now, q);
    AfterMore(owner, trace, grant.event, grant.now);
    assert Timed(grant.event, grant.now) == grant;
    SampledStays(owner, w, grant.event, grant.now, q);
    RunKeepsLate(owner, trace + [grant], rest, key, q);
    var v := After(owner, trace + [grant] + rest).value;
    EnumeratedPresent(e.order, v.s.sources.Keys);
    LateGrantsSurvive(v.s, e.reply, e.deadlines, q, e.order, now, key);
  }

  lemma AfterMore(owner: string -> Key, trace: seq<Timed>, e: Event, now: int)
    requires After(owner, trace).Some? && Enabled(owner, After(owner, trace).value, e, now)
    ensures After(owner, trace + [Timed(e, now)]) == Some(Next(owner, After(owner, trace).value, e, now))
  {
    assert (trace + [Timed(e, now)])[..|trace|] == trace;
  }

  // ---------------------------------------------------------------- when removing a user fences earlier replies

  /** No reply whose request was sampled before the user list took effect can install a lease for this user again. */
  ghost predicate FencesEarlier(s: State, t: State, user: int) {
    user in t.session.barriers && s.counter <= t.session.barriers[user]
  }

  /**
   A user left off the list is fenced exactly when the coordinator knew of it: by the previous list, an admission under
   way or a source it holds, or when its barrier already stood at the last number drawn.
   */
  lemma RemovalFencesKnownUsers(owner: string -> Key, s: State, ids: set<int>, order: seq<Key>, now: int, user: int)
    requires Inv(owner, s) && Enumerates(order, s.sources.Keys) && user !in ids
    requires forall key :: key in order ==> key in s.sources
    ensures FencesEarlier(s, SetUsers(s, ids, order, now), user) <==>
            || user in RemovedUsers(s, ids)
            || (user in s.session.barriers && s.session.barriers[user] == s.counter)
  {
    var t := SetUsers(s, ids, order, now);
    var removed := RemovedUsers(s, ids);
    RaisedFrame(s, ids, removed, Unlisted(s, ids, order), now);
    RaisedCase(s, ids, removed);
    RaisedBarriers(owner, s, ids, removed, user);
    assert t.session == Raised(s, ids, removed).session;
  }

  /** A session in progress, with nothing in it but the user list. */
  function Quiescent(run: string, users: Option<set<int>>, counter: nat): State {
    State(Session(run, true, false, users, map[], 0), counter, map[], map[], map[], map[], map[], 0)
  }

  /** The first reply of the session is awaited. */
  ghost predicate Awaits(w: World, run: string, users: Option<set<int>>, now: int) {
    && w.s == Quiescent(run, users, 1) && w.clock == now
    && w.phase.Sent? && !w.phase.short && w.phase.snapshot.run == run && w.phase.snapshot.sequence == 1
    && 1 in w.h.sampled && w.h.sampled[1].at == now
  }

  /** A list that takes nobody away raises no barrier. */
  lemma QuietList(owner: string -> Key, w: World, run: string, users: Option<set<int>>, ids: set<int>, now: int)
    requires Awaits(w, run, users, now) && (users.Some? ==> users.value <= ids)
    ensures Enabled(owner, w, UsersSet(ids, []), now)
    ensures var v := Next(owner, w, UsersSet(ids, []), now);
            Awaits(v, run, Some(ids), now) && v.lists == w.lists + [UserList(ids, {}, 1)]
  {
    assert RemovedUsers(w.s, ids) == {};
    assert SetUsers(w.s, ids, [], now) == Quiescent(run, Some(ids), 1);
  }

  lemma SessionBegins(owner: string -> Key, run: string, now: int) returns (trace: seq<Timed>)
    requires run != "" && 0 <= now
    ensures After(owner, trace).Some?
    ensures var w := After(owner, trace).value; Awaits(w, run, None, now) && w.lists == []
  {
    trace := [];
    AfterMore(owner, trace, BeginStart(run), now);
    trace := trace + [Timed(BeginStart(run), now)];
    AfterMore(owner, trace, BeginFinished, now);
    trace := trace + [Timed(BeginFinished, now)];
    assert After(owner, trace).value.s == Quiescent(run, None, 0);
    AfterMore(owner, trace, SyncStarted(false), now);
    trace := trace + [Timed(SyncStarted(false), now)];
  }

  /** The lease of one user, confirmed by the reply to the snapshot numbered 1. */
  function EarlyLease(key: Key, lease: string): Lease {
    Lease(key.user, key.ip, true, lease, 1, 2, 1)
  }

  function EarlyReply(run: string, key: Key, lease: string): SyncReply {
    SyncReply(run, 1, 1, [EarlyLease(key, lease)], [], [])
  }

  lemma InstallOne(s: State, item: Lease, deadline: int, sequence: nat)
    ensures InstallAll(s, [item], [deadline], sequence) == Install(s, item, deadline, sequence)
  {
    assert [item][..0] == [] && [deadline][..0] == [];
    assert InstallAll(s, [], [], sequence) == s;
  }

  lemma NothingToRevoke(s: State, now: int)
    requires s.revoked == map[]
    ensures Revoke(s, [], 1, now) == s
  {
    assert Prune(s, now).revoked == map[];
  }

  lemma EarlyReplyAccepted(owner: string -> Key, w: World, run: string, key: Key, lease: string, now: int)
    requires Awaits(w, run, Some({key.user}), now) && key.user > 0 && ValidLease(lease) && owner(lease) == key
    ensures var e := SyncAccepted(EarlyReply(run, key, lease), [now + 1], [], now, now);
            && Enabled(owner, w, e, now)
            && var v := Next(owner, w, e, now);
               && v.lists == w.lists && v.clock == now && v.s.session == w.s.session
               && Usable(v.s, key, now) && v.s.sources[key].confirmedSequence == 1 && v.s.nextId == 1
  {
    var item, reply := EarlyLease(key, lease), EarlyReply(run, key, lease);
    assert LeaseDeadline(item, 1, now, now) == Ok(now + 1);
    var installed := Install(w.s, item, now + 1, 1);
    InstallOne(w.s, item, now + 1, 1);
    assert Classify(w.s, item, 1) == Created;
    NothingToRevoke(installed, now);
    assert AcceptListed(w.s, reply, [now + 1], 1, [], now) == Revoke(installed, [], 1, now);
    assert Accept(w.s, reply, [now + 1], 1, [], now) == Revoke(Revoke(installed, [], 1, now), [], 1, now);
  }

  /** Two lists while the reply is awaited: without the user, and with it. */
  lemma TwoLists(owner: string -> Key, before: seq<Timed>, run: string, user: int, now: int) returns (trace: seq<Timed>)
    requires After(owner, before).Some? && Awaits(After(owner, before).value, run, None, now)
             && After(owner, before).value.lists == []
    ensures After(owner, trace).Some? && Awaits(After(owner, trace).value, run, Some({user}), now)
    ensures After(owner, trace).value.lists == [UserList({}, {}, 1), UserList({user}, {}, 1)]
  {
    QuietList(owner, After(owner, before).value, run, None, {}, now);
    AfterMore(owner, before, UsersSet({}, []), now);
    trace := before + [Timed(UsersSet({}, []), now)];
    QuietList(owner, After(owner, trace).value, run, Some({}), {user}, now);
    AfterMore(owner, trace, UsersSet({user}, []), now);
    trace := trace + [Timed(UsersSet({user}, []), now)];
  }

  lemma PermitFollows(owner: string -> Key, w: World, key: Key, now: int)
    requires w.clock <= now && w.s.session.ready && !w.s.session.closing && Permitted(w.s, key.user)
             && Usable(w.s, key, now)
    requires key.user > 0
    ensures Enabled(owner, w, Acquired(key, 0, false), now)
    ensures var v := Next(owner, w, Acquired(key, 0, false), now);
            && v.lists == w.lists && w.s.nextId in v.s.permits && v.s.permits[w.s.nextId].key == key
            && key in v.s.sources && v.s.sources[key].confirmedSequence == w.s.sources[key].confirmedSequence
  {
    assert AcquireOutcome(w.s, key, false, now) == Reuse;
  }

  /**
   Why the knowledge matters: a run in which two lists are set while the first reply of a session is awaited, the first
   of them without the user and the second with it again. The coordinator does not know the user when the first list
   arrives, so no barrier is raised; the reply, sampled before both lists, installs the user's lease, and a permit is
   handed out on it.
   */
  lemma UnknownUserIsNotFenced(owner: string -> Key, run: string, key: Key, lease: string, now: int)
    returns (trace: seq<Timed>)
    requires run != "" && 0 <= now && key.user > 0 && ValidLease(lease) && owner(lease) == key
    ensures After(owner, trace).Some?
    ensures var w := After(owner, trace).value;
            && |w.lists| == 2 && key.user !in w.lists[0].ids && key.user in w.lists[1].ids
            && key.user !in w.lists[0].removed
            && 1 in w.s.permits && w.s.permits[1].key == key
            && key in w.s.sources && w.s.sources[key].confirmedSequence <= w.lists[0].counter
  {
    trace := SessionBegins(owner, run, now);
    trace := TwoLists(owner, trace, run, key.user, now);
    EarlyReplyAccepted(owner, After(owner, trace).value, run, key, lease, now);
    var accepted := SyncAccepted(EarlyReply(run, key, lease), [now + 1], [], now, now);
    AfterMore(owner, trace, accepted, now);
    trace := trace + [Timed(accepted, now)];
    PermitFollows(owner, After(owner, trace).value, key, now);
    AfterMore(owner, trace, Acquired(key, 0, false), now);
    trace := trace + [Timed(Acquired(key, 0, false), now)];
  }

  // ---------------------------------------------------------------- what is revoked is closed

  /**
   A connection's entry stays through any list of revocations, and the entry is revoked afterwards exactly when it was
   before or the connection is among those to be closed.
   */
  lemma {:induction false} ClosedExactly(s: State, items: seq<Revocation>, sequence: nat, now: int, key: Key, p: nat)
    requires key in s.sources && p in s.sources[key].permits
    requires forall other :: other in s.sources && p in s.sources[other].permits ==> other == key
    ensures var t := RevokeItems(s, items, sequence, now);
            && key in t.sources && t.sources[key].permits == s.sources[key].permits
            && t.sources[key].lease == s.sources[key].lease
            && (t.sources[key].revoked <==> s.sources[key].revoked || p in ClosedByItems(s, items, sequence, now))
  {
    if items == [] {
    } else {
      var front, last := items[..|items| - 1], items[|items| - 1];
      var mid := RevokeItems(s, front, sequence, now);
      ClosedExactly(s, front, sequence, now, key, p);
      RevokeItemSources(mid, last, sequence, now);
      SourcesOnlyLeave(s, front, sequence, now, last.At());
    }
  }

  /**
   In force before and revoked now means that the connection is closed; nothing else is closed but what is revoked.
   */
  lemma RevocationClosesExactly(owner: string -> Key, s: State, items: seq<Revocation>, sequence: nat, now: int, p: nat)
    requires Inv(owner, s) && p in s.permits
    ensures var key, t := s.permits[p].key, Revoke(s, items, sequence, now);
            && key in t.sources
            && (t.sources[key].revoked <==>
                  s.sources[key].revoked || p in ClosedByItems(Prune(s, now), items, sequence, now))
  {
    ClosedExactly(Prune(s, now), items, sequence, now, s.permits[p].key, p);
  }

  lemma {:induction false} HitCloses(s: State, items: seq<Revocation>, now: int, key: Key, p: nat, item: Revocation)
    requires key in s.sources && p in s.sources[key].permits
    requires forall other :: other in s.sources && p in s.sources[other].permits ==> other == key
    requires item in items && item.At() == key && item.lease == s.sources[key].lease && key.user > 0
             && ValidLease(item.lease)
    ensures p in ClosedByItems(s, items, 0, now)
  {
    var front, last := items[..|items| - 1], items[|items| - 1];
    if item in front {
      HitCloses(s, front, now, key, p, item);
    } else {
      ClosedExactly(s, front, 0, now, key, p);
    }
  }

  lemma {:induction false} ClosedHits(s: State, items: seq<Revocation>, sequence: nat, now: int, p: nat)
    requires p in ClosedByItems(s, items, sequence, now)
    ensures exists item :: item in items && item.At() in s.sources && p in s.sources[item.At()].permits
  {
    var front, last := items[..|items| - 1], items[|items| - 1];
    if p in ClosedByItems(s, front, sequence, now) {
      ClosedHits(s, front, sequence, now, p);
    } else {
      SourcesOnlyLeave(s, front, sequence, now, last.At());
      assert last in items;
    }
  }

  lemma {:induction false} UnlistedOnly(s: State, ids: set<int>, order: seq<Key>, item: Revocation)
    requires forall k :: k in order ==> k in s.sources
    requires item in Unlisted(s, ids, order)
    ensures item.user !in ids
  {
    if item in Unlisted(s, ids, order[..|order| - 1]) {
      UnlistedOnly(s, ids, order[..|order| - 1], item);
    }
  }

  /** A new user list closes exactly the connections of the users that are not on it. */
  lemma RemovalClosesExactly(owner: string -> Key, s: State, ids: set<int>, order: seq<Key>, now: int, p: nat)
    requires Inv(owner, s) && Enumerates(order, s.sources.Keys) && p in s.permits
    requires forall key :: key in order ==> key in s.sources
    ensures p in ClosedOnRemoval(s, ids, order, now) <==> s.permits[p].key.user !in ids
  {
    var key, items := s.permits[p].key, Unlisted(s, ids, order);
    var raised := Prune(RaiseBarriers(s, ids), now);
    assert raised.sources == s.sources;
    if p in ClosedOnRemoval(s, ids, order, now) {
      ClosedHits(raised, items, 0, now, p);
      var item :| item in items && item.At() in s.sources && p in s.sources[item.At()].permits;
      UnlistedOnly(s, ids, order, item);
    }
    if key.user !in ids {
      assert key in Elements(order);
      UnlistedCovers(s, ids, order, key);
      HitCloses(raised, items, now, key, p, Revocation("", 0, key.user, key.ip, s.sources[key].lease));
    }
  }
}
