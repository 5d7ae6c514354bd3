/**
 No offline notice is lost: a lease once installed stays accounted for until the panel acknowledged its retirement.
 */
module DeviceGateNotices {
  import opened Common
  import opened DeviceGateState
  import opened DeviceGateInvariant

  /** The lease is held by its source, or listed as retired. */
  ghost predicate Accounted(owner: string -> Key, s: State, lease: string) {
    lease in s.retired || (owner(lease) in s.sources && s.sources[owner(lease)].lease == lease)
  }

  ghost predicate Accounts(owner: string -> Key, s: State, t: State) {
    forall lease :: Accounted(owner, s, lease) ==> Accounted(owner, t, lease)
  }

  lemma SameAccounts(owner: string -> Key, s: State, t: State)
    requires s.retired.Keys <= t.retired.Keys
    requires forall key :: key in s.sources ==> key in t.sources && t.sources[key].lease == s.sources[key].lease
    ensures Accounts(owner, s, t)
  {
  }

  lemma RetireAccounts(owner: string -> Key, s: State, item: Revocation)
    ensures Accounts(owner, s, Retire(s, item))
  {
    SameAccounts(owner, s, Retire(s, item));
  }

  lemma RemoveSourceAccounts(owner: string -> Key, s: State, key: Key)
    requires Inv(owner, s) && key in s.sources && s.sources[key].permits == {}
    ensures Accounts(owner, s, RemoveSource(s, key))
  {
    var left := s.(sources := s.sources - {key});
    var item := RetirementOf(key, s.sources[key]);
    RemoveSourceKeeps(owner, s, key);
    RetireAccounts(owner, left, item);
    forall lease | Accounted(owner, s, lease) ensures Accounted(owner, RemoveSource(s, key), lease) {
      if lease !in s.retired && owner(lease) != key {
        assert Accounted(owner, left, lease);
      }
    }
  }

  lemma MarkRevokedAccounts(owner: string -> Key, s: State, key: Key)
    requires key in s.sources && Inv(owner, WithRevoked(s, key))
    ensures Accounts(owner, s, MarkRevoked(s, key))
  {
    MarkCase(s, key);
    SameAccounts(owner, s, WithRevoked(s, key));
    if s.sources[key].permits == {} {
      RemoveSourceAccounts(owner, WithRevoked(s, key), key);
    }
  }

  lemma HitAccounts(owner: string -> Key, s: State, item: Revocation, sequence: nat, now: int)
    requires Inv(owner, s) && OwnItem(owner, item) && sequence <= s.counter && Hits(s, item)
    ensures item.At() in RecordRevocation(s, item, sequence, now).sources
    ensures Accounts(owner, s, MarkRevoked(RecordRevocation(s, item, sequence, now), item.At()))
  {
    var recorded := RecordRevocation(s, item, sequence, now);
    RecordThenMark(owner, s, item, sequence, now);
    UpdateKeeps(owner, s, item.At(), s.sources[item.At()].(revoked := true), s.counter);
    MarkedRecorded(owner, s, item, sequence, now);
    SameAccounts(owner, s, recorded);
    MarkRevokedAccounts(owner, recorded, item.At());
  }

  lemma MarkedRecorded(owner: string -> Key, s: State, item: Revocation, sequence: nat, now: int)
    requires Inv(owner, s) && OwnItem(owner, item) && sequence <= s.counter && Hits(s, item)
    requires Inv(owner, WithRevoked(s, item.At()))
    ensures item.At() in RecordRevocation(s, item, sequence, now).sources
    ensures Inv(owner, WithRevoked(RecordRevocation(s, item, sequence, now), item.At()))
  {
    var marked := WithRevoked(s, item.At());
    forall k | k in marked.sources && !marked.sources[k].revoked ensures marked.sources[k].lease != item.lease {
      assert owner(s.sources[k].lease) == k;
    }
    RecordKeeps(owner, marked, item, sequence, now);
    RecordCommutes(s, item, sequence, now, item.At());
  }

  lemma RevokeItemAccounts(owner: string -> Key, s: State, item: Revocation, sequence: nat, now: int)
    requires Inv(owner, s) && OwnItem(owner, item) && sequence <= s.counter
    ensures Accounts(owner, s, RevokeItem(s, item, sequence, now))
  {
    RevokeCase(s, item, sequence, now);
    if Hits(s, item) {
      HitAccounts(owner, s, item, sequence, now);
    } else {
      SameAccounts(owner, s, RecordRevocation(s, item, sequence, now));
      RetireAccounts(owner, RecordRevocation(s, item, sequence, now), item);
    }
  }

  lemma {:induction false} RevokeItemsAccounts(owner: string -> Key, s: State, items: seq<Revocation>, sequence: nat,
                                               now: int)
    requires Inv(owner, s) && OwnItems(owner, items) && sequence <= s.counter
    ensures Accounts(owner, s, RevokeItems(s, items, sequence, now))
  {
    if items == [] {
    } else {
      var front := items[..|items| - 1];
      RevokeItemsAccounts(owner, s, front, sequence, now);
      RevokeItemsKeeps(owner, s, front, sequence, now);
      RevokeItemAccounts(owner, RevokeItems(s, front, sequence, now), items[|items| - 1], sequence, now);
    }
  }

  lemma RevokeAccounts(owner: string -> Key, s: State, items: seq<Revocation>, sequence: nat, now: int)
    requires Inv(owner, s) && OwnItems(owner, items) && sequence <= s.counter
    ensures Accounts(owner, s, Revoke(s, items, sequence, now))
  {
    PruneKeeps(owner, s, now);
    SameAccounts(owner, s, Prune(s, now));
    RevokeItemsAccounts(owner, Prune(s, now), items, sequence, now);
  }

  /** A lease leaves the retired list by being installed, so it stays accounted for. */
  lemma PutAccounts(owner: string -> Key, s: State, item: Lease, source: Source)
    requires owner(item.lease) == item.At() && source.lease == item.lease
    requires item.At() in s.sources ==> s.sources[item.At()].lease == item.lease
    ensures Accounts(owner, s, Put(s, item, source))
  {
  }

  lemma InstallAccounts(owner: string -> Key, s: State, item: Lease, deadline: int, sequence: nat)
    requires Inv(owner, s) && OwnLease(owner, item) && sequence <= s.counter
    ensures Accounts(owner, s, Install(s, item, deadline, sequence))
  {
    InstallCases(s, item, deadline, sequence);
    match Classify(s, item, sequence)
    case Refused =>
    case Refreshed => SameAccounts(owner, s, Install(s, item, deadline, sequence));
    case Renewed => PutAccounts(owner, s, item, Confirmed(s.sources[item.At()], item, deadline, sequence));
    case Replaced =>
      RemoveSourceAccounts(owner, s, item.At());
      SameAccounts(owner, RemoveSource(s, item.At()), Vacated(s, item.At()));
      PutAccounts(owner, Vacated(s, item.At()), item, Confirmed(Fresh(s, item), item, deadline, sequence));
    case Created =>
      PutAccounts(owner, s.(nextId := s.nextId + 1), item, Confirmed(Fresh(s, item), item, deadline, sequence));
  }

  lemma {:induction false} InstallAllAccounts(owner: string -> Key, s: State, items: seq<Lease>, deadlines: seq<int>,
                                              sequence: nat)
    requires Inv(owner, s) && OwnLeases(owner, items) && |items| == |deadlines| && sequence <= s.counter
    ensures Accounts(owner, s, InstallAll(s, items, deadlines, sequence))
  {
    if items == [] {
    } else {
      var n := |items| - 1;
      InstallAllAccounts(owner, s, items[..n], deadlines[..n], sequence);
      InstallAllKeeps(owner, s, items[..n], deadlines[..n], sequence);
      InstallAccounts(owner, InstallAll(s, items[..n], deadlines[..n], sequence), items[n], deadlines[n], sequence);
    }
  }

  lemma GrantAccounts(owner: string -> Key, s: State, item: Lease, deadline: int, sequence: nat, run: string, now: int)
    requires Inv(owner, s) && OwnLease(owner, item) && sequence <= s.counter
    ensures Accounts(owner, s, Grant(s, item, deadline, sequence, run, now))
  {
    GrantCases(s, item, deadline, sequence, run, now);
    InstallAccounts(owner, s, item, deadline, sequence);
    if s.session.run == run && Installed(s, item, sequence, now) {
      var t := Install(s, item, deadline, sequence);
      SameAccounts(owner, t, Outranking(t, item.At()));
    }
  }

  lemma AcceptAccounts(owner: string -> Key, s: State, reply: SyncReply, deadlines: seq<int>, sequence: nat,
                       order: seq<Key>, now: int)
    requires Inv(owner, s) && OwnLeases(owner, reply.leases) && OwnItems(owner, reply.idle)
    requires |deadlines| == |reply.leases| && sequence <= s.counter
    requires forall key :: key in order ==> key in s.sources
    ensures Accounts(owner, s, Accept(s, reply, deadlines, sequence, order, now))
  {
    InstallAllAccounts(owner, s, reply.leases, deadlines, sequence);
    InstallAllKeeps(owner, s, reply.leases, deadlines, sequence);
    OmittedOwned(owner, s, reply.leases, sequence, order);
    RevokeAccounts(owner, InstallAll(s, reply.leases, deadlines, sequence), Omitted(s, reply.leases, sequence, order),
                   sequence, now);
    AcceptListedKeeps(owner, s, reply, deadlines, sequence, order, now);
    var listed := AcceptListed(s, reply, deadlines, sequence, order, now);
    IdleReturnsOwned(owner, listed, reply.idle, reply.leases, sequence);
    RevokeAccounts(owner, listed, IdleReturns(listed, reply.idle, reply.leases, sequence), sequence, now);
  }

  lemma {:induction false} CloseAllAccounts(owner: string -> Key, s: State, order: seq<Key>)
    requires Inv(owner, s)
    requires forall key :: key in order ==> key in s.sources
    requires forall i, j :: 0 <= i < j < |order| ==> order[i] != order[j]
    ensures Accounts(owner, s, CloseAll(s, order))
  {
    if order == [] {
    } else {
      var front := order[..|order| - 1];
      CloseAllAccounts(owner, s, front);
      CloseAllKeeps(owner, s, front);
      var mid := CloseAll(s, front);
      UpdateKeeps(owner, mid, order[|order| - 1], mid.sources[order[|order| - 1]].(revoked := true), mid.counter);
      MarkRevokedAccounts(owner, mid, order[|order| - 1]);
    }
  }

  lemma ReleaseAccounts(owner: string -> Key, s: State, permit: nat, now: int)
    requires Inv(owner, s)
    ensures Accounts(owner, s, Release(s, permit, now))
  {
    if permit in s.permits {
      ReleaseCases(s, permit, now);
      DetachedKeeps(owner, s, permit);
      SameAccounts(owner, s, Detached(s, permit));
      if LastOfDead(s, permit, now) {
        RemoveSourceAccounts(owner, Detached(s, permit), s.permits[permit].key);
      }
    }
  }

  lemma {:induction false} IssueEachAccounts(owner: string -> Key, s: State, key: Key, waiters: seq<nat>, now: int)
    requires key in s.sources
    ensures Accounts(owner, s, IssueEach(s, key, waiters, now))
  {
    if waiters == [] {
    } else {
      IssueEachAccounts(owner, s, key, waiters[..|waiters| - 1], now);
      var mid := IssueEach(s, key, waiters[..|waiters| - 1], now);
      SameAccounts(owner, mid, IssuePermit(mid, key, now));
    }
  }

  lemma AcquireAccounts(owner: string -> Key, s: State, key: Key, waiter: nat, stopped: bool, now: int)
    ensures Accounts(owner, s, Acquire(s, key, waiter, stopped, now))
  {
    if AcquireOutcome(s, key, stopped, now) == Reuse {
      SameAccounts(owner, s, IssuePermit(s, key, now));
    } else {
      SameAccounts(owner, s, Acquire(s, key, waiter, stopped, now));
    }
  }

  lemma FinishAdmissionAccounts(owner: string -> Key, s: State, key: Key, lease: Option<string>, live: seq<nat>,
                                stopped: bool, now: int)
    ensures Accounts(owner, s, FinishAdmission(s, key, lease, live, stopped, now))
  {
    if lease.Some? && AdmissionStands(s, key, lease.value, stopped, now) {
      IssueEachAccounts(owner, s, key, live, now);
    }
  }

  lemma SetUsersAccounts(owner: string -> Key, s: State, ids: set<int>, order: seq<Key>, now: int)
    requires Inv(owner, s) && Enumerates(order, s.sources.Keys)
    requires forall key :: key in order ==> key in s.sources
    ensures Accounts(owner, s, SetUsers(s, ids, order, now))
  {
    UnlistedOwned(owner, s, ids, order);
    RaisedUsersAccounts(owner, s, ids, RemovedUsers(s, ids), Unlisted(s, ids, order), now);
  }

  lemma RaisedUsersAccounts(owner: string -> Key, s: State, ids: set<int>, removed: set<int>, items: seq<Revocation>,
                            now: int)
    requires Inv(owner, s) && OwnItems(owner, items)
    ensures Accounts(owner, s, Revoke(Raised(s, ids, removed), items, 0, now))
  {
    var low := WithBarriers(Raised(s, ids, removed), s.session.barriers);
    RaisedInv(owner, s, ids, removed);
    LowAccounts(owner, s, ids, removed);
    RevokeAccounts(owner, low, items, 0, now);
    RevokeIgnoresBarriers(Raised(s, ids, removed), items, 0, now, s.session.barriers);
    AccountsIgnoreBarriers(owner, Revoke(Raised(s, ids, removed), items, 0, now), s.session.barriers);
  }

  lemma LowAccounts(owner: string -> Key, s: State, ids: set<int>, removed: set<int>)
    ensures Accounts(owner, s, WithBarriers(Raised(s, ids, removed), s.session.barriers))
  {
    RaisedRest(s, ids, removed);
    SameAccounts(owner, s, WithBarriers(Raised(s, ids, removed), s.session.barriers));
  }

  lemma AccountsIgnoreBarriers(owner: string -> Key, t: State, barriers: map<int, nat>)
    ensures forall lease :: Accounted(owner, WithBarriers(t, barriers), lease) == Accounted(owner, t, lease)
  {
  }
}
