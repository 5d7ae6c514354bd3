/**
 What the coordinator forgets on purpose, set beside what really happened.

 Revocation records are dropped after their grace time, permission barriers at a new session, retirement records once a
 snapshot is acknowledged.  A `History` keeps all of it; the lemmas show that forgetting was harmless.
 */
module DeviceGateHistory {
  import opened Common
  import opened DeviceGateState
  import opened DeviceGateInvariant

  datatype RevocationEvent = RevocationEvent(lease: string, barrier: nat, at: int)

  datatype RemovalEvent = RemovalEvent(user: int, barrier: nat)

  datatype Sample = Sample(snapshot: Snapshot, at: int)

  /** `sampled` holds every snapshot drawn; `runStart` is the counter when the current session was drawn. */
  datatype History = History(revocations: set<RevocationEvent>, removals: set<RemovalEvent>, sampled: map<nat, Sample>,
                             runStart: nat)

  const RECORD_LIFE: int := LEASE_GRACE + MINUTE

  ghost function NewRevocations(was: map<string, RevokedLease>, revoked: map<string, RevokedLease>,
                                now: int): set<RevocationEvent> {
    set lease | lease in revoked && (lease !in was || was[lease] != revoked[lease]) ::
      RevocationEvent(lease, revoked[lease].barrier, now)
  }

  ghost function NewRemovals(was: map<int, nat>, barriers: map<int, nat>): set<RemovalEvent> {
    set user | user in barriers && (user !in was || was[user] != barriers[user]) :: RemovalEvent(user, barriers[user])
  }

  /** The history after a step from `s` to `t` at time `now`. */
  ghost function Extend(h: History, s: State, t: State, now: int): History {
    h.(revocations := h.revocations + NewRevocations(s.revoked, t.revoked, now),
       removals := h.removals + NewRemovals(s.session.barriers, t.session.barriers))
  }

  // ---------------------------------------------------------------- the invariant

  /** A revocation is on record until its grace time is over. */
  ghost predicate Remembered(revoked: map<string, RevokedLease>, events: set<RevocationEvent>, clock: int) {
    forall e :: e in events ==>
      || (e.lease in revoked && e.barrier <= revoked[e.lease].barrier && e.at + RECORD_LIFE <= revoked[e.lease].until)
      || e.at + RECORD_LIFE < clock
  }

  /** The source was confirmed after the revocation, or runs out before its record may be dropped. */
  ghost predicate Outlived(source: Source, e: RevocationEvent) {
    e.barrier < source.confirmedSequence || source.deadline <= e.at + RECORD_LIFE
  }

  ghost predicate ClearOfRevocations(sources: map<Key, Source>, events: set<RevocationEvent>) {
    forall key, e :: key in sources && !sources[key].revoked && e in events && e.lease == sources[key].lease ==>
      Outlived(sources[key], e)
  }

  ghost predicate BarriersStand(barriers: map<int, nat>, events: set<RemovalEvent>, runStart: nat) {
    forall e :: e in events ==> e.barrier <= runStart || (e.user in barriers && e.barrier <= barriers[e.user])
  }

  ghost predicate ClearOfRemovals(sources: map<Key, Source>, events: set<RemovalEvent>) {
    forall key, e :: key in sources && !sources[key].revoked && e in events && e.user == key.user ==>
      e.barrier < sources[key].confirmedSequence
  }

  /** Numbers and times were drawn in the same order. */
  ghost predicate Dated(h: History, clock: int, counter: nat) {
    && h.runStart <= counter
    && (forall q :: q in h.sampled ==> q <= counter && h.sampled[q].at <= clock && h.sampled[q].snapshot.sequence == q)
    && (forall e :: e in h.revocations ==> e.barrier <= counter && e.at <= clock)
    && (forall e :: e in h.removals ==> e.barrier <= counter)
    && (forall q, e :: q in h.sampled && e in h.revocations && q <= e.barrier ==> h.sampled[q].at <= e.at)
  }

  /** Every retirement was listed by every snapshot drawn after it. */
  ghost predicate AlwaysListed(retired: map<string, Retired>, sampled: map<nat, Sample>) {
    forall lease, q :: lease in retired && q in sampled ==>
      && retired[lease].sequence != q
      && (retired[lease].sequence < q ==> retired[lease].item in sampled[q].snapshot.retired)
  }

  ghost predicate Recorded(s: State, h: History, clock: int) {
    && Remembered(s.revoked, h.revocations, clock)
    && ClearOfRevocations(s.sources, h.revocations)
    && BarriersStand(s.session.barriers, h.removals, h.runStart)
    && ClearOfRemovals(s.sources, h.removals)
    && Dated(h, clock, s.counter)
    && AlwaysListed(s.retired, h.sampled)
  }

  // ---------------------------------------------------------------- steps that install nothing

  ghost predicate RevokedFollows(was: map<string, RevokedLease>, revoked: map<string, RevokedLease>, counter: nat,
                                 now: int) {
    && (forall lease :: lease in revoked ==>
          (lease in was && was[lease] == revoked[lease]) ||
          (counter < revoked[lease].barrier && revoked[lease].until == now + RECORD_LIFE))
    && (forall lease :: lease in was && lease !in revoked ==> was[lease].until < now)
  }

  ghost predicate SourcesFollow(was: map<Key, Source>, sources: map<Key, Source>) {
    forall key :: key in sources && !sources[key].revoked ==>
      && key in was && !was[key].revoked && was[key].id == sources[key].id
      && was[key].lease == sources[key].lease
      && was[key].confirmedSequence == sources[key].confirmedSequence
      && was[key].deadline == sources[key].deadline
  }

  ghost predicate RetiredFollows(was: map<string, Retired>, retired: map<string, Retired>, counter: nat) {
    forall lease :: lease in retired ==>
              (lease in was && was[lease] == retired[lease]) || counter < retired[lease].sequence
  }

  /**
   Identities are never reused: an entry is the same source under the same lease, or one that did not exist before.
   */
  ghost predicate Continues(s: State, t: State) {
    && s.nextId <= t.nextId
    && (forall key :: key in t.sources ==>
          || s.nextId <= t.sources[key].id
          || (key in s.sources && s.sources[key].id == t.sources[key].id
              && s.sources[key].lease == t.sources[key].lease))
    && (forall p :: p in t.permits ==> s.nextId <= p || (p in s.permits && s.permits[p] == t.permits[p]))
  }

  /** A step that keeps the session, confirms nothing, and only revokes, retires or lets go. */
  ghost predicate Follows(s: State, t: State, now: int) {
    && s.counter <= t.counter
    && RevokedFollows(s.revoked, t.revoked, s.counter, now)
    && SourcesFollow(s.sources, t.sources)
    && RetiredFollows(s.retired, t.retired, s.counter)
    && s.session == t.session && s.flights == t.flights
    && Continues(s, t)
  }

  lemma FollowsTransitive(s: State, m: State, t: State, now: int)
    requires Follows(s, m, now) && Follows(m, t, now)
    requires forall lease :: lease in m.revoked && (lease !in s.revoked || s.revoked[lease] != m.revoked[lease]) ==>
              now <= m.revoked[lease].until
    ensures Follows(s, t, now)
  {
  }

  lemma RetireFollows(s: State, item: Revocation, now: int)
    ensures Follows(s, Retire(s, item), now)
  {
  }

  lemma RemoveSourceFollows(s: State, key: Key, now: int)
    requires key in s.sources
    ensures Follows(s, RemoveSource(s, key), now)
  {
    RetireFollows(s.(sources := s.sources - {key}), RetirementOf(key, s.sources[key]), now);
  }

  lemma RecordFollows(s: State, item: Revocation, sequence: nat, now: int)
    ensures Follows(s, RecordRevocation(s, item, sequence, now), now)
  {
  }

  lemma MarkRevokedFollows(s: State, key: Key, now: int)
    requires key in s.sources
    ensures Follows(s, MarkRevoked(s, key), now)
    ensures MarkRevoked(s, key).revoked == s.revoked && MarkRevoked(s, key).permits == s.permits
  {
    MarkCase(s, key);
    var marked := WithRevoked(s, key);
    if s.sources[key].permits == {} {
      RemoveSourceFollows(marked, key, now);
      assert MarkRevoked(s, key) == RemoveSource(marked, key);
    } else {
      assert MarkRevoked(s, key) == marked;
    }
  }

  lemma RevokeItemFollows(s: State, item: Revocation, sequence: nat, now: int)
    ensures Follows(s, RevokeItem(s, item, sequence, now), now)
    ensures RevokeItem(s, item, sequence, now).permits == s.permits
  {
    RevokeCase(s, item, sequence, now);
    if !Skips(s, item, sequence) {
      var recorded := RecordRevocation(s, item, sequence, now);
      RecordFollows(s, item, sequence, now);
      if Hits(s, item) {
        MarkRevokedFollows(recorded, item.At(), now);
        FollowsTransitive(s, recorded, MarkRevoked(recorded, item.At()), now);
      } else {
        RetireFollows(recorded, item, now);
        FollowsTransitive(s, recorded, Retire(recorded, item), now);
      }
    }
  }

  lemma {:induction false} RevokeItemsFollows(s: State, items: seq<Revocation>, sequence: nat, now: int)
    ensures Follows(s, RevokeItems(s, items, sequence, now), now)
    ensures RevokeItems(s, items, sequence, now).permits == s.permits
  {
    if items == [] {
    } else {
      var mid := RevokeItems(s, items[..|items| - 1], sequence, now);
      RevokeItemsFollows(s, items[..|items| - 1], sequence, now);
      RevokeItemFollows(mid, items[|items| - 1], sequence, now);
      FollowsTransitive(s, mid, RevokeItem(mid, items[|items| - 1], sequence, now), now);
    }
  }

  lemma PruneFollows(s: State, now: int)
    ensures Follows(s, Prune(s, now), now)
  {
  }

  lemma RevokeFollows(s: State, items: seq<Revocation>, sequence: nat, now: int)
    ensures Follows(s, Revoke(s, items, sequence, now), now)
    ensures Revoke(s, items, sequence, now).permits == s.permits
  {
    PruneFollows(s, now);
    RevokeItemsFollows(Prune(s, now), items, sequence, now);
    FollowsTransitive(s, Prune(s, now), Revoke(s, items, sequence, now), now);
  }

  lemma {:induction false} CloseAllFollows(s: State, order: seq<Key>, now: int)
    requires forall key :: key in order ==> key in s.sources
    requires forall i, j :: 0 <= i < j < |order| ==> order[i] != order[j]
    ensures Follows(s, CloseAll(s, order), now)
    ensures CloseAll(s, order).revoked == s.revoked && CloseAll(s, order).permits == s.permits
  {
    if order == [] {
    } else {
      var mid := CloseAll(s, order[..|order| - 1]);
      CloseAllFollows(s, order[..|order| - 1], now);
      MarkRevokedFollows(mid, order[|order| - 1], now);
      FollowsTransitive(s, mid, CloseAll(s, order), now);
    }
  }

  lemma TouchFollows(s: State, key: Key, now: int)
    requires key in s.sources
    ensures Follows(s, Touched(s, key, now), now)
    ensures Touched(s, key, now).retired == s.retired && Touched(s, key, now).revoked == s.revoked
  {
  }

  lemma IssuePermitFollows(s: State, key: Key, now: int)
    requires key in s.sources
    ensures Follows(s, IssuePermit(s, key, now), now)
    ensures IssuePermit(s, key, now).revoked == s.revoked
  {
    IssueCase(s, key, now);
    TouchFollows(s, key, now);
    var t := Touched(s, key, now);
    assert Follows(t, Attached(t, key, s.nextId), now);
    FollowsTransitive(s, t, Attached(t, key, s.nextId), now);
  }

  lemma {:induction false} IssueEachFollows(s: State, key: Key, waiters: seq<nat>, now: int)
    requires key in s.sources
    ensures Follows(s, IssueEach(s, key, waiters, now), now)
    ensures IssueEach(s, key, waiters, now).revoked == s.revoked
  {
    if waiters == [] {
    } else {
      var mid := IssueEach(s, key, waiters[..|waiters| - 1], now);
      IssueEachFollows(s, key, waiters[..|waiters| - 1], now);
      IssuePermitFollows(mid, key, now);
      FollowsTransitive(s, mid, IssuePermit(mid, key, now), now);
    }
  }

  lemma ReleaseFollows(s: State, permit: nat, now: int)
    ensures Follows(s, Release(s, permit, now), now)
  {
    if permit in s.permits {
      var key := s.permits[permit].key;
      if key in s.sources && s.sources[key].id == s.permits[permit].source {
        ReleaseCases(s, permit, now);
        var detached := Detached(s, permit);
        assert Follows(s, detached, now);
        if LastOfDead(s, permit, now) {
          RemoveSourceFollows(detached, key, now);
          FollowsTransitive(s, detached, RemoveSource(detached, key), now);
        }
      }
    }
  }

  lemma NewConnectionFollows(s: State, permit: nat, closing: bool, now: int)
    ensures Follows(s, NewConnection(s, permit, closing, now), now)
  {
    if permit in s.permits && Usable(s, s.permits[permit].key, now) {
      TouchFollows(s, s.permits[permit].key, now);
    }
  }

  lemma ExpireFollows(s: State, key: Key, id: nat, deadline: int, now: int)
    ensures Follows(s, Expire(s, key, id, deadline, now), now)
  {
    if key in s.sources {
      RemoveSourceFollows(s, key, now);
    }
  }

  // ---------------------------------------------------------------- forgetting is harmless

  lemma FollowsRemembered(s: State, t: State, h: History, clock: int, now: int)
    requires Remembered(s.revoked, h.revocations, clock) && clock <= now
    requires RevokedFollows(s.revoked, t.revoked, s.counter, now)
    requires forall e :: e in h.revocations ==> e.barrier <= s.counter && e.at <= clock
    ensures Remembered(t.revoked, Extend(h, s, t, now).revocations, now)
  {
  }

  lemma FollowsClear(owner: string -> Key, s: State, t: State, h: History, now: int)
    requires ClearOfRevocations(s.sources, h.revocations) && SourcesFollow(s.sources, t.sources)
    requires Fenced(t.sources, t.revoked, t.session.barriers)
    ensures ClearOfRevocations(t.sources, Extend(h, s, t, now).revocations)
  {
    forall key, e | key in t.sources && !t.sources[key].revoked && e in Extend(h, s, t, now).revocations
           && e.lease == t.sources[key].lease
      ensures Outlived(t.sources[key], e)
    {
      if e in h.revocations {
        assert Outlived(s.sources[key], e);
      } else {
        assert Clear(key, t.sources[key], t.revoked, t.session.barriers);
      }
    }
  }

  lemma FollowsDated(s: State, t: State, h: History, clock: int, now: int)
    requires Dated(h, clock, s.counter) && clock <= now && s.counter <= t.counter
    requires RevokedFollows(s.revoked, t.revoked, s.counter, now)
    requires forall lease :: lease in t.revoked ==> t.revoked[lease].barrier <= t.counter
    requires s.session.barriers == t.session.barriers
    ensures Dated(Extend(h, s, t, now), now, t.counter)
  {
    var g := Extend(h, s, t, now);
    assert g.removals == h.removals;
    forall q, e | q in g.sampled && e in g.revocations && q <= e.barrier ensures g.sampled[q].at <= e.at {
      if e !in h.revocations {
        assert e.at == now;
      }
    }
  }

  lemma FollowsListed(s: State, t: State, h: History, clock: int)
    requires AlwaysListed(s.retired, h.sampled) && RetiredFollows(s.retired, t.retired, s.counter)
    requires Dated(h, clock, s.counter)
    ensures AlwaysListed(t.retired, h.sampled)
  {
  }

  lemma FollowsRecorded(owner: string -> Key, s: State, t: State, h: History, clock: int, now: int)
    requires Recorded(s, h, clock) && clock <= now && Follows(s, t, now) && Inv(owner, t)
    ensures Recorded(t, Extend(h, s, t, now), now)
  {
    FollowsRemembered(s, t, h, clock, now);
    FollowsClear(owner, s, t, h, now);
    FollowsDated(s, t, h, clock, now);
    FollowsListed(s, t, h, clock);
    assert Extend(h, s, t, now).removals == h.removals;
    assert ClearOfRemovals(t.sources, h.removals) by {
      forall key, e | key in t.sources && !t.sources[key].revoked && e in h.removals && e.user == key.user
        ensures e.barrier < t.sources[key].confirmedSequence
      {
        assert e.barrier < s.sources[key].confirmedSequence;
      }
    }
  }

  /** A reply may install leases when its request was sampled in this run and its deadline was counted in time. */
  ghost predicate Timely(h: History, sequence: nat, deadline: int) {
    && h.runStart < sequence
    && forall e :: e in h.revocations && sequence <= e.barrier ==> deadline <= e.at + RECORD_LIFE
  }

  lemma SampledTimely(h: History, clock: int, counter: nat, sequence: nat, deadline: int)
    requires Dated(h, clock, counter) && sequence in h.sampled && h.runStart < sequence
    requires deadline <= h.sampled[sequence].at + RECORD_LIFE
    ensures Timely(h, sequence, deadline)
  {
  }

  /** The lease just installed is clear of everything the history holds against it. */
  lemma InstalledClear(s: State, item: Lease, deadline: int, sequence: nat, h: History, clock: int, source: Source)
    requires Recorded(s, h, clock) && Timely(h, sequence, deadline) && Admissible(s, item, sequence)
    requires source.lease == item.lease && source.confirmedSequence == sequence && source.deadline == deadline
    ensures forall e :: e in h.revocations && e.lease == source.lease ==> Outlived(source, e)
    ensures forall e :: e in h.removals && e.user == item.user ==> e.barrier < source.confirmedSequence
  {
  }

  lemma RefreshedClear(s: State, item: Lease, sequence: nat, h: History, clock: int)
    requires Recorded(s, h, clock) && Classify(s, item, sequence) == Refreshed
    ensures var source := RefreshedSource(s, item, sequence);
            && (forall e :: e in h.revocations && e.lease == source.lease ==> Outlived(source, e))
            && (forall e :: e in h.removals && e.user == item.user ==> e.barrier < source.confirmedSequence)
  {
    var was := s.sources[item.At()];
    forall e | e in h.revocations && e.lease == item.lease ensures Outlived(RefreshedSource(s, item, sequence), e) {
      assert Outlived(was, e);
    }
  }

  /** One entry of the source table changes to a source that is clear of the history. */
  lemma EntryRecorded(s: State, t: State, key: Key, h: History, clock: int, now: int)
    requires Recorded(s, h, clock) && clock <= now && s.counter <= t.counter
    requires t.revoked == s.revoked && t.session == s.session && RetiredFollows(s.retired, t.retired, s.counter)
    requires key in t.sources
             && (forall k :: k in t.sources && k != key ==> k in s.sources && t.sources[k] == s.sources[k])
    requires forall e :: e in h.revocations && e.lease == t.sources[key].lease ==> Outlived(t.sources[key], e)
    requires forall e :: e in h.removals && e.user == key.user ==> e.barrier < t.sources[key].confirmedSequence
    requires t.flights == s.flights && t.permits == s.permits && s.nextId <= t.nextId
    requires s.nextId <= t.sources[key].id ||
             (key in s.sources && s.sources[key].id == t.sources[key].id
              && s.sources[key].lease == t.sources[key].lease)
    ensures Carries(s, t, h, now)
  {
    assert Extend(h, s, t, now) == h;
    FollowsListed(s, t, h, clock);
  }

  ghost predicate Carries(s: State, t: State, h: History, now: int) {
    && Recorded(t, Extend(h, s, t, now), now)
    && t.session == s.session && t.flights == s.flights && t.revoked == s.revoked
    && Continues(s, t) && t.permits == s.permits
  }

  lemma RefreshRecorded(s: State, item: Lease, deadline: int, sequence: nat, h: History, clock: int, now: int)
    requires Recorded(s, h, clock) && clock <= now && Timely(h, sequence, deadline)
    requires Classify(s, item, sequence) == Refreshed
    ensures Carries(s, Installing(s, item, deadline, sequence, Refreshed), h, now)
  {
    RefreshedClear(s, item, sequence, h, clock);
    EntryRecorded(s, Installing(s, item, deadline, sequence, Refreshed), item.At(), h, clock, now);
  }

  lemma RenewRecorded(s: State, item: Lease, deadline: int, sequence: nat, h: History, clock: int, now: int)
    requires Recorded(s, h, clock) && clock <= now && Timely(h, sequence, deadline)
    requires Classify(s, item, sequence) == Renewed
    ensures Carries(s, Installing(s, item, deadline, sequence, Renewed), h, now)
  {
    InstalledClear(s, item, deadline, sequence, h, clock, Confirmed(s.sources[item.At()], item, deadline, sequence));
    EntryRecorded(s, Installing(s, item, deadline, sequence, Renewed), item.At(), h, clock, now);
  }

  lemma ReplaceRecorded(s: State, item: Lease, deadline: int, sequence: nat, h: History, clock: int, now: int)
    requires Recorded(s, h, clock) && clock <= now && Timely(h, sequence, deadline)
    requires Classify(s, item, sequence) == Replaced
    ensures Carries(s, Installing(s, item, deadline, sequence, Replaced), h, now)
  {
    RemoveSourceFollows(s, item.At(), now);
    InstalledClear(s, item, deadline, sequence, h, clock, Confirmed(Fresh(s, item), item, deadline, sequence));
    EntryRecorded(s, Installing(s, item, deadline, sequence, Replaced), item.At(), h, clock, now);
  }

  lemma CreateRecorded(s: State, item: Lease, deadline: int, sequence: nat, h: History, clock: int, now: int)
    requires Recorded(s, h, clock) && clock <= now && Timely(h, sequence, deadline)
    requires Classify(s, item, sequence) == Created
    ensures Carries(s, Installing(s, item, deadline, sequence, Created), h, now)
  {
    InstalledClear(s, item, deadline, sequence, h, clock, Confirmed(Fresh(s, item), item, deadline, sequence));
    EntryRecorded(s, Installing(s, item, deadline, sequence, Created), item.At(), h, clock, now);
  }

  lemma SameRecorded(s: State, h: History, clock: int, now: int)
    requires Recorded(s, h, clock) && clock <= now
    ensures Recorded(s, h, now) && Extend(h, s, s, now) == h
  {
  }

  lemma InstallRecorded(s: State, item: Lease, deadline: int, sequence: nat, h: History, clock: int, now: int)
    requires Recorded(s, h, clock) && clock <= now && (s.session.ready ==> Timely(h, sequence, deadline))
    ensures Carries(s, Install(s, item, deadline, sequence), h, now)
  {
    InstallCases(s, item, deadline, sequence);
    match Classify(s, item, sequence)
    case Refused => SameRecorded(s, h, clock, now);
    case Refreshed => RefreshRecorded(s, item, deadline, sequence, h, clock, now);
    case Renewed => RenewRecorded(s, item, deadline, sequence, h, clock, now);
    case Replaced => ReplaceRecorded(s, item, deadline, sequence, h, clock, now);
    case Created => CreateRecorded(s, item, deadline, sequence, h, clock, now);
  }

  /** Less history to answer for. */
  lemma RecordedSubset(s: State, g: History, h: History, clock: int)
    requires Recorded(s, g, clock)
    requires h.revocations <= g.revocations && h.removals <= g.removals && h.sampled == g.sampled
             && h.runStart == g.runStart
    ensures Recorded(s, h, clock)
  {
  }

  /** Two sub-steps of one section answer for at least what the section as a whole did. */
  lemma ExtendTwice(s: State, m: State, t: State, h: History, now: int)
    requires Recorded(t, Extend(Extend(h, s, m, now), m, t, now), now)
    ensures Recorded(t, Extend(h, s, t, now), now)
  {
    var g := Extend(Extend(h, s, m, now), m, t, now);
    assert NewRevocations(s.revoked, t.revoked, now) <= NewRevocations(s.revoked, m.revoked,
        now) + NewRevocations(m.revoked, t.revoked, now);
    assert NewRemovals(s.session.barriers, t.session.barriers)
        <= NewRemovals(s.session.barriers, m.session.barriers) + NewRemovals(m.session.barriers, t.session.barriers);
    RecordedSubset(t, g, Extend(h, s, t, now), now);
  }

  lemma {:induction false} InstallAllRecorded(s: State, items: seq<Lease>, deadlines: seq<int>, sequence: nat,
                                              h: History, clock: int, now: int)
    requires Recorded(s, h, clock) && clock <= now && |items| == |deadlines|
    requires s.session.ready ==> forall i :: 0 <= i < |items| ==> Timely(h, sequence, deadlines[i])
    ensures Carries(s, InstallAll(s, items, deadlines, sequence), h, now)
  {
    if items == [] {
      SameRecorded(s, h, clock, now);
    } else {
      var n := |items| - 1;
      var mid := InstallAll(s, items[..n], deadlines[..n], sequence);
      InstallAllRecorded(s, items[..n], deadlines[..n], sequence, h, clock, now);
      assert Extend(h, s, mid, now) == h;
      InstallRecorded(mid, items[n], deadlines[n], sequence, h, now, now);
    }
  }

  lemma OutrankingFollows(s: State, key: Key, now: int)
    requires key in s.sources
    ensures Follows(s, Outranking(s, key), now)
  {
  }

  lemma GrantRecorded(owner: string -> Key, s: State, item: Lease, deadline: int, sequence: nat, run: string,
                      h: History, clock: int, now: int)
    requires Recorded(s, h, clock) && clock <= now
    requires s.session.run == run && s.session.ready ==> Timely(h, sequence, deadline)
    requires Inv(owner, s) && OwnLease(owner, item) && sequence <= s.counter
    ensures var t := Grant(s, item, deadline, sequence, run, now);
            && Recorded(t, Extend(h, s, t, now), now) && t.session == s.session && t.flights == s.flights
            && Continues(s, t) && t.permits == s.permits
  {
    GrantCases(s, item, deadline, sequence, run, now);
    GrantKeeps(owner, s, item, deadline, sequence, run, now);
    if s.session.run != run {
      SameRecorded(s, h, clock, now);
    } else {
      InstallRecorded(s, item, deadline, sequence, h, clock, now);
      var mid := Install(s, item, deadline, sequence);
      if Installed(s, item, sequence, now) {
        OutrankingFollows(mid, item.At(), now);
        FollowsRecorded(owner, mid, Outranking(mid, item.At()), Extend(h, s, mid, now), now, now);
        ExtendTwice(s, mid, Outranking(mid, item.At()), h, now);
      }
    }
  }

  lemma RevokeRecorded(owner: string -> Key, s: State, items: seq<Revocation>, sequence: nat, h: History, clock: int,
                       now: int)
    requires Recorded(s, h, clock) && clock <= now
    requires Inv(owner, s) && OwnItems(owner, items) && sequence <= s.counter
    ensures var t := Revoke(s, items, sequence, now);
            && Recorded(t, Extend(h, s, t, now), now) && t.session == s.session && t.flights == s.flights
            && Continues(s, t) && t.permits == s.permits
  {
    RevokeKeeps(owner, s, items, sequence, now);
    RevokeFollows(s, items, sequence, now);
    FollowsRecorded(owner, s, Revoke(s, items, sequence, now), h, clock, now);
  }

  lemma AcceptListedRecorded(owner: string -> Key, s: State, reply: SyncReply, deadlines: seq<int>, sequence: nat,
                             order: seq<Key>,
                             h: History, clock: int, now: int)
    requires Recorded(s, h, clock) && clock <= now
    requires Inv(owner, s) && OwnLeases(owner, reply.leases) && |deadlines| == |reply.leases| && sequence <= s.counter
    requires forall key :: key in order ==> key in s.sources
    requires s.session.ready ==> forall i :: 0 <= i < |deadlines| ==> Timely(h, sequence, deadlines[i])
    ensures var t := AcceptListed(s, reply, deadlines, sequence, order, now);
            && Recorded(t, Extend(h, s, t, now), now) && t.session == s.session && t.flights == s.flights
            && Continues(s, t) && t.permits == s.permits
  {
    var omitted := Omitted(s, reply.leases, sequence, order);
    var mid := InstallAll(s, reply.leases, deadlines, sequence);
    OmittedOwned(owner, s, reply.leases, sequence, order);
    InstallAllKeeps(owner, s, reply.leases, deadlines, sequence);
    InstallAllRecorded(s, reply.leases, deadlines, sequence, h, clock, now);
    RevokeRecorded(owner, mid, omitted, sequence, Extend(h, s, mid, now), now, now);
    ExtendTwice(s, mid, Revoke(mid, omitted, sequence, now), h, now);
  }

  lemma AcceptRecorded(owner: string -> Key, s: State, reply: SyncReply, deadlines: seq<int>, sequence: nat,
                       order: seq<Key>,
                       h: History, clock: int, now: int)
    requires Recorded(s, h, clock) && clock <= now
    requires Inv(owner, s) && OwnLeases(owner, reply.leases) && OwnItems(owner, reply.idle)
    requires |deadlines| == |reply.leases| && sequence <= s.counter
    requires forall key :: key in order ==> key in s.sources
    requires s.session.ready ==> forall i :: 0 <= i < |deadlines| ==> Timely(h, sequence, deadlines[i])
    ensures var t := Accept(s, reply, deadlines, sequence, order, now);
            && Recorded(t, Extend(h, s, t, now), now) && t.session == s.session && t.flights == s.flights
            && Continues(s, t) && t.permits == s.permits
  {
    var mid := AcceptListed(s, reply, deadlines, sequence, order, now);
    AcceptListedRecorded(owner, s, reply, deadlines, sequence, order, h, clock, now);
    AcceptListedKeeps(owner, s, reply, deadlines, sequence, order, now);
    var idle := IdleReturns(mid, reply.idle, reply.leases, sequence);
    IdleReturnsOwned(owner, mid, reply.idle, reply.leases, sequence);
    RevokeRecorded(owner, mid, idle, sequence, Extend(h, s, mid, now), now, now);
    ExtendTwice(s, mid, Revoke(mid, idle, sequence, now), h, now);
  }

  /** Sessions, flights and acknowledged retirements may change freely while the barriers stand. */
  lemma SessionRecorded(s: State, t: State, h: History, clock: int, now: int)
    requires Recorded(s, h, clock) && clock <= now && s.counter <= t.counter
    requires t.session.barriers == s.session.barriers && t.sources == s.sources && t.revoked == s.revoked
    requires forall lease :: lease in t.retired ==> lease in s.retired && t.retired[lease] == s.retired[lease]
    ensures Recorded(t, Extend(h, s, t, now), now) && Extend(h, s, t, now) == h
  {
  }

  lemma BeginRecorded(s: State, drawn: string, h: History, clock: int, now: int)
    requires Recorded(s, h, clock) && clock <= now && CanBegin(s) && s.session.run == ""
    ensures Recorded(Begin(s, drawn), h.(runStart := s.counter), now)
  {
  }

  lemma SnapshotRecorded(s: State, snapshot: Snapshot, h: History, clock: int, now: int)
    requires Recorded(s, h, clock) && clock <= now && snapshot.sequence == s.counter + 1
    requires forall lease :: lease in s.retired ==>
                               s.retired[lease].sequence <= s.counter && s.retired[lease].item in snapshot.retired
    ensures Recorded(AfterSnapshot(s), h.(sampled := h.sampled[s.counter + 1 := Sample(snapshot, now)]), now)
  {
    var g := h.(sampled := h.sampled[s.counter + 1 := Sample(snapshot, now)]);
    assert AlwaysListed(s.retired, g.sampled);
    assert Dated(g, now, s.counter + 1);
  }

  lemma SwapBarriersRecorded(t: State, was: map<int, nat>, h: History, now: int)
    requires Recorded(WithBarriers(t, was), h, now)
    requires forall user :: user in was ==> user in t.session.barriers && was[user] <= t.session.barriers[user]
    requires forall user :: user in t.session.barriers ==> t.session.barriers[user] <= t.counter
    requires forall key :: key in t.sources && !t.sources[key].revoked && key.user in t.session.barriers ==>
                             key.user in was && t.session.barriers[key.user] == was[key.user]
    ensures Recorded(t, h.(removals := h.removals + NewRemovals(was, t.session.barriers)), now)
  {
  }

  lemma SetUsersRecorded(owner: string -> Key, s: State, ids: set<int>, order: seq<Key>, h: History, clock: int,
                         now: int)
    requires Recorded(s, h, clock) && clock <= now
    requires Inv(owner, s) && Enumerates(order, s.sources.Keys)
    requires forall key :: key in order ==> key in s.sources
    ensures var t := SetUsers(s, ids, order, now);
            && Recorded(t, Extend(h, s, t, now), now)
            && t.session == RaiseBarriers(s, ids).session && t.flights == s.flights
            && Continues(s, t) && t.permits == s.permits
  {
    RemovedNotListed(s, ids);
    RaisedUsersRecorded(owner, s, ids, RemovedUsers(s, ids), order, h, clock, now);
  }

  /** With the old barriers put back, taking users away is an ordinary revocation. */
  lemma LowRecorded(owner: string -> Key, s: State, ids: set<int>, removed: set<int>, items: seq<Revocation>,
                    h: History, clock: int, now: int)
    requires Recorded(s, h, clock) && clock <= now && Inv(owner, s) && OwnItems(owner, items)
    ensures var low := WithBarriers(Revoke(Raised(s, ids, removed), items, 0, now), s.session.barriers);
            Recorded(low, Extend(h, s, low, now), now)
  {
    var low := WithBarriers(Raised(s, ids, removed), s.session.barriers);
    RaisedInv(owner, s, ids, removed);
    LowStart(s, ids, removed, h, clock, now);
    RevokeRecorded(owner, low, items, 0, h, now, now);
    RevokeIgnoresBarriers(Raised(s, ids, removed), items, 0, now, s.session.barriers);
    ExtendFrom(s, low, Revoke(low, items, 0, now), h, now);
  }

  lemma LowStart(s: State, ids: set<int>, removed: set<int>, h: History, clock: int, now: int)
    requires Recorded(s, h, clock) && clock <= now
    ensures var low := WithBarriers(Raised(s, ids, removed), s.session.barriers);
            Recorded(low, h, now) && low.revoked == s.revoked && low.session.barriers == s.session.barriers
  {
    RaisedCase(s, ids, removed);
    SessionRecorded(s, WithBarriers(Raised(s, ids, removed), s.session.barriers), h, clock, now);
  }

  lemma ExtendFrom(s: State, m: State, t: State, h: History, now: int)
    requires s.revoked == m.revoked && s.session.barriers == m.session.barriers
    ensures Extend(h, s, t, now) == Extend(h, m, t, now)
  {
  }

  lemma RaisedUsersRecorded(owner: string -> Key, s: State, ids: set<int>, removed: set<int>, order: seq<Key>,
                            h: History, clock: int, now: int)
    requires Recorded(s, h, clock) && clock <= now
    requires Inv(owner, s) && Enumerates(order, s.sources.Keys) && removed !! ids
    requires forall key :: key in order ==> key in s.sources
    ensures var t := Revoke(Raised(s, ids, removed), Unlisted(s, ids, order), 0, now);
            && Recorded(t, Extend(h, s, t, now), now)
            && t.session == Raised(s, ids, removed).session && t.flights == s.flights
            && Continues(s, t) && t.permits == s.permits
  {
    var was := s.session.barriers;
    var items := Unlisted(s, ids, order);
    UnlistedOwned(owner, s, ids, order);
    LowRecorded(owner, s, ids, removed, items, h, clock, now);
    UnrevokedKeepBarrier(owner, s, ids, removed, order, now);
    SwapRecorded(s, Revoke(Raised(s, ids, removed), items, 0, now), h, now);
    RaisedFrame(s, ids, removed, items, now);
  }

  lemma RaisedFrame(s: State, ids: set<int>, removed: set<int>, items: seq<Revocation>, now: int)
    ensures var t := Revoke(Raised(s, ids, removed), items, 0, now);
            && t.session == Raised(s, ids, removed).session && t.flights == s.flights
            && Continues(s, t) && t.permits == s.permits
  {
    RaisedRest(s, ids, removed);
    RevokeFollows(Raised(s, ids, removed), items, 0, now);
  }

  lemma SwapRecorded(s: State, t: State, h: History, now: int)
    requires var low := WithBarriers(t, s.session.barriers); Recorded(low, Extend(h, s, low, now), now)
    requires forall user :: user in s.session.barriers ==>
                              user in t.session.barriers && s.session.barriers[user] <= t.session.barriers[user]
    requires forall user :: user in t.session.barriers ==> t.session.barriers[user] <= t.counter
    requires forall key :: key in t.sources && !t.sources[key].revoked && key.user in t.session.barriers ==>
                             && key.user in s.session.barriers
                             && t.session.barriers[key.user] == s.session.barriers[key.user]
    ensures Recorded(t, Extend(h, s, t, now), now)
  {
    var low := WithBarriers(t, s.session.barriers);
    assert NewRemovals(s.session.barriers, s.session.barriers) == {};
    SwapBarriersRecorded(t, s.session.barriers, Extend(h, s, low, now), now);
  }
}
