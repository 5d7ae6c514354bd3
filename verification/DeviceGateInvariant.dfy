/** What every critical section of the device-lease coordinator keeps. */
module DeviceGateInvariant {
  import opened Common
  import opened DeviceGateState

  /** An unreleased permit points at the entry of its key, and that entry counts it. */
  ghost predicate PermitsHeld(sources: map<Key, Source>, permits: map<nat, Permit>) {
    && (forall p :: p in permits ==>
          && permits[p].key in sources
          && sources[permits[p].key].id == permits[p].source
          && p in sources[permits[p].key].permits)
    && (forall key, p :: key in sources && p in sources[key].permits ==>
          p in permits && permits[p] == Permit(key, sources[key].id))
  }

  ghost predicate Allocated(sources: map<Key, Source>, permits: map<nat, Permit>, nextId: nat) {
    && (forall key :: key in sources ==> sources[key].id < nextId)
    && (forall p :: p in permits ==> p < nextId)
  }

  /** One lease string names one (user, address) pair, and a present source's lease is not listed as retired. */
  ghost predicate Named(owner: string -> Key, sources: map<Key, Source>, retired: map<string, Retired>) {
    && (forall key :: key in sources ==>
          && key.user > 0 && ValidLease(sources[key].lease)
          && owner(sources[key].lease) == key
          && sources[key].lease !in retired)
    && (forall lease :: lease in retired ==>
          retired[lease].item.lease == lease && owner(lease) == retired[lease].item.At())
  }

  ghost predicate SourcesDrawn(sources: map<Key, Source>, n: nat) {
    forall key :: key in sources ==> sources[key].confirmedSequence <= sources[key].omissionSequence <= n
  }

  /** Every stored number was drawn from the counter, in the order the protocol relies on. */
  ghost predicate Drawn(s: State) {
    && SourcesDrawn(s.sources, s.counter)
    && (forall lease :: lease in s.revoked ==> s.revoked[lease].sequence < s.revoked[lease].barrier <= s.counter)
    && (forall lease :: lease in s.retired ==> s.retired[lease].sequence <= s.counter)
    && (forall user :: user in s.session.barriers ==> s.session.barriers[user] <= s.counter)
    && (forall key :: key in s.flights ==> s.flights[key].sequence <= s.counter)
  }

  ghost predicate Clear(key: Key, source: Source, revoked: map<string, RevokedLease>, barriers: map<int, nat>) {
    && (source.lease in revoked ==> revoked[source.lease].barrier < source.confirmedSequence)
    && (key.user in barriers ==> barriers[key.user] < source.confirmedSequence)
  }

  /** A source in force was confirmed by a request sampled after its last revocation and user removal. */
  ghost predicate Fenced(sources: map<Key, Source>, revoked: map<string, RevokedLease>, barriers: map<int, nat>) {
    forall key :: key in sources && !sources[key].revoked ==> Clear(key, sources[key], revoked, barriers)
  }

  ghost predicate Inv(owner: string -> Key, s: State) {
    && PermitsHeld(s.sources, s.permits)
    && Allocated(s.sources, s.permits, s.nextId)
    && Named(owner, s.sources, s.retired)
    && Drawn(s)
    && Fenced(s.sources, s.revoked, s.session.barriers)
  }

  /** A panel item that names its lease's owner. */
  ghost predicate OwnItem(owner: string -> Key, item: Revocation) {
    owner(item.lease) == item.At()
  }

  ghost predicate OwnLease(owner: string -> Key, item: Lease) {
    item.user > 0 && ValidLease(item.lease) && owner(item.lease) == item.At()
  }

  ghost predicate OwnItems(owner: string -> Key, items: seq<Revocation>) {
    forall i :: 0 <= i < |items| ==> OwnItem(owner, items[i])
  }

  ghost predicate OwnLeases(owner: string -> Key, items: seq<Lease>) {
    forall i :: 0 <= i < |items| ==> OwnLease(owner, items[i])
  }

  // ---------------------------------------------------------------- primitives

  /** Changing one source in place, without taking its confirmation back. */
  lemma UpdateKeeps(owner: string -> Key, s: State, key: Key, source: Source, n: nat)
    requires Inv(owner, s) && key in s.sources && s.counter <= n
    requires var was := s.sources[key];
             && source.id == was.id && source.permits == was.permits && source.lease == was.lease
             && (was.revoked ==> source.revoked)
             && was.confirmedSequence <= source.confirmedSequence <= source.omissionSequence <= n
    ensures Inv(owner, s.(counter := n, sources := s.sources[key := source]))
  {
    var sources := s.sources[key := source];
    assert PermitsHeld(sources, s.permits);
    assert Allocated(sources, s.permits, s.nextId);
    assert Named(owner, sources, s.retired);
    assert SourcesDrawn(sources, n);
    assert Fenced(sources, s.revoked, s.session.barriers) by {
      assert Fenced(s.sources, s.revoked, s.session.barriers);
      assert !source.revoked ==> Clear(key, s.sources[key], s.revoked, s.session.barriers);
    }
  }

  lemma CounterKeeps(owner: string -> Key, s: State, n: nat, id: nat)
    requires Inv(owner, s) && s.counter <= n && s.nextId <= id
    ensures Inv(owner, s.(counter := n, nextId := id))
  {
  }

  lemma RetireKeeps(owner: string -> Key, s: State, item: Revocation)
    requires Inv(owner, s) && OwnItem(owner, item)
    requires forall key :: key in s.sources ==> s.sources[key].lease != item.lease
    ensures Inv(owner, Retire(s, item))
    ensures item.lease in Retire(s, item).retired
  {
    var t := Retire(s, item);
    assert Named(owner, t.sources, t.retired);
  }

  lemma RemoveSourceKeeps(owner: string -> Key, s: State, key: Key)
    requires Inv(owner, s) && key in s.sources && s.sources[key].permits == {}
    ensures Inv(owner, RemoveSource(s, key))
    ensures s.sources[key].lease in RemoveSource(s, key).retired
  {
    var sources := s.sources - {key};
    var item := RetirementOf(key, s.sources[key]);
    assert PermitsHeld(sources, s.permits) by {
      forall p | p in s.permits ensures s.permits[p].key != key {
        assert p in s.sources[s.permits[p].key].permits;
      }
    }
    assert Fenced(sources, s.revoked, s.session.barriers);
    forall k | k in sources ensures sources[k].lease != item.lease {
      assert owner(s.sources[k].lease) == k && owner(s.sources[key].lease) == key;
    }
    RetireKeeps(owner, s.(sources := sources), item);
  }

  lemma PruneKeeps(owner: string -> Key, s: State, now: int)
    requires Inv(owner, s)
    ensures Inv(owner, Prune(s, now))
  {
    var t := Prune(s, now);
    assert Fenced(t.sources, t.revoked, t.session.barriers) by {
      forall key | key in t.sources && !t.sources[key].revoked
        ensures Clear(key, t.sources[key], t.revoked, t.session.barriers)
      {
        assert Clear(key, s.sources[key], s.revoked, s.session.barriers);
      }
    }
  }

  lemma RecordKeeps(owner: string -> Key, s: State, item: Revocation, sequence: nat, now: int)
    requires Inv(owner, s) && sequence <= s.counter
    requires forall key :: key in s.sources && !s.sources[key].revoked ==> s.sources[key].lease != item.lease
    ensures Inv(owner, RecordRevocation(s, item, sequence, now))
  {
    var t := RecordRevocation(s, item, sequence, now);
    assert Fenced(t.sources, t.revoked, t.session.barriers) by {
      forall key | key in t.sources && !t.sources[key].revoked
        ensures Clear(key, t.sources[key], t.revoked, t.session.barriers)
      {
        assert Clear(key, s.sources[key], s.revoked, s.session.barriers);
      }
    }
  }

  ghost function WithRevoked(s: State, key: Key): State
    requires key in s.sources
  {
    s.(sources := s.sources[key := s.sources[key].(revoked := true)])
  }

  lemma MarkCase(s: State, key: Key)
    requires key in s.sources
    ensures s.sources[key].permits == {} ==> MarkRevoked(s, key) == RemoveSource(WithRevoked(s, key), key)
    ensures s.sources[key].permits != {} ==> MarkRevoked(s, key) == WithRevoked(s, key)
  {
  }

  lemma MarkedKeeps(owner: string -> Key, s: State, key: Key)
    requires key in s.sources && Inv(owner, WithRevoked(s, key))
    ensures Inv(owner, MarkRevoked(s, key))
  {
    MarkCase(s, key);
    if s.sources[key].permits == {} {
      RemoveSourceKeeps(owner, WithRevoked(s, key), key);
    }
  }

  lemma MarkRevokedKeeps(owner: string -> Key, s: State, key: Key)
    requires Inv(owner, s) && key in s.sources
    ensures Inv(owner, MarkRevoked(s, key))
  {
    UpdateKeeps(owner, s, key, s.sources[key].(revoked := true), s.counter);
    MarkedKeeps(owner, s, key);
  }

  lemma RecordCommutes(s: State, item: Revocation, sequence: nat, now: int, key: Key)
    requires key in s.sources
    ensures key in RecordRevocation(s, item, sequence, now).sources
    ensures WithRevoked(RecordRevocation(s, item, sequence, now), key)
         == RecordRevocation(WithRevoked(s, key), item, sequence, now)
  {
  }

  lemma RecordThenMark(owner: string -> Key, s: State, item: Revocation, sequence: nat, now: int)
    requires Inv(owner, s) && OwnItem(owner, item) && sequence <= s.counter
    requires item.At() in s.sources && s.sources[item.At()].lease == item.lease
    ensures item.At() in RecordRevocation(s, item, sequence, now).sources
    ensures Inv(owner, MarkRevoked(RecordRevocation(s, item, sequence, now), item.At()))
  {
    var key := item.At();
    UpdateKeeps(owner, s, key, s.sources[key].(revoked := true), s.counter);
    var marked := WithRevoked(s, key);
    forall k | k in marked.sources && !marked.sources[k].revoked ensures marked.sources[k].lease != item.lease {
      assert owner(s.sources[k].lease) == k;
    }
    RecordKeeps(owner, marked, item, sequence, now);
    RecordCommutes(s, item, sequence, now, key);
    MarkedKeeps(owner, RecordRevocation(s, item, sequence, now), key);
  }

  predicate Hits(s: State, item: Revocation) {
    item.At() in s.sources && s.sources[item.At()].lease == item.lease
  }

  /** The three ways one revocation goes. */
  lemma RevokeCase(s: State, item: Revocation, sequence: nat, now: int)
    ensures Skips(s, item, sequence) ==> RevokeItem(s, item, sequence, now) == s
    ensures !Skips(s, item, sequence) && Hits(s, item) ==>
              RevokeItem(s, item, sequence, now) == MarkRevoked(RecordRevocation(s, item, sequence, now), item.At())
    ensures !Skips(s, item, sequence) && !Hits(s, item) ==>
              RevokeItem(s, item, sequence, now) == Retire(RecordRevocation(s, item, sequence, now), item)
  {
  }

  lemma RevokeMissKeeps(owner: string -> Key, s: State, item: Revocation, sequence: nat, now: int)
    requires Inv(owner, s) && OwnItem(owner, item) && sequence <= s.counter && !Hits(s, item)
    ensures Inv(owner, Retire(RecordRevocation(s, item, sequence, now), item))
  {
    forall k | k in s.sources ensures s.sources[k].lease != item.lease {
      assert owner(s.sources[k].lease) == k;
    }
    RecordKeeps(owner, s, item, sequence, now);
    RetireKeeps(owner, RecordRevocation(s, item, sequence, now), item);
  }

  lemma RevokeItemKeeps(owner: string -> Key, s: State, item: Revocation, sequence: nat, now: int)
    requires Inv(owner, s) && OwnItem(owner, item) && sequence <= s.counter
    ensures Inv(owner, RevokeItem(s, item, sequence, now))
  {
    RevokeCase(s, item, sequence, now);
    if Hits(s, item) {
      RecordThenMark(owner, s, item, sequence, now);
    } else {
      RevokeMissKeeps(owner, s, item, sequence, now);
    }
  }

  lemma MarkRevokedCounts(s: State, key: Key)
    requires key in s.sources
    ensures s.counter <= MarkRevoked(s, key).counter
  {
    MarkCase(s, key);
  }

  lemma RevokeItemCounts(s: State, item: Revocation, sequence: nat, now: int)
    ensures s.counter <= RevokeItem(s, item, sequence, now).counter
  {
    RevokeCase(s, item, sequence, now);
    if Hits(s, item) {
      MarkRevokedCounts(RecordRevocation(s, item, sequence, now), item.At());
    }
  }

  lemma {:induction false} RevokeItemsKeeps(owner: string -> Key, s: State, items: seq<Revocation>, sequence: nat,
                                            now: int)
    requires Inv(owner, s) && OwnItems(owner, items) && sequence <= s.counter
    ensures Inv(owner, RevokeItems(s, items, sequence, now))
    ensures s.counter <= RevokeItems(s, items, sequence, now).counter
  {
    if items == [] {
    } else {
      RevokeItemsKeeps(owner, s, items[..|items| - 1], sequence, now);
      var mid := RevokeItems(s, items[..|items| - 1], sequence, now);
      RevokeItemKeeps(owner, mid, items[|items| - 1], sequence, now);
      RevokeItemCounts(mid, items[|items| - 1], sequence, now);
    }
  }

  lemma RevokeKeeps(owner: string -> Key, s: State, items: seq<Revocation>, sequence: nat, now: int)
    requires Inv(owner, s) && OwnItems(owner, items) && sequence <= s.counter
    ensures Inv(owner, Revoke(s, items, sequence, now))
    ensures s.counter <= Revoke(s, items, sequence, now).counter
  {
    PruneKeeps(owner, s, now);
    RevokeItemsKeeps(owner, Prune(s, now), items, sequence, now);
  }

  /** A confirmed source of the lease's own key, new or with the permits it had. */
  lemma PutKeeps(owner: string -> Key, s: State, item: Lease, source: Source)
    requires Inv(owner, s) && OwnLease(owner, item)
    requires source.lease == item.lease && source.id < s.nextId
    requires source.confirmedSequence <= source.omissionSequence <= s.counter
    requires Clear(item.At(), source, s.revoked, s.session.barriers)
    requires if item.At() in s.sources
             then source.permits == s.sources[item.At()].permits && source.id == s.sources[item.At()].id
             else source.permits == {}
    ensures Inv(owner, Put(s, item, source))
  {
    var sources := s.sources[item.At() := source];
    var retired := s.retired - {item.lease};
    assert PermitsHeld(sources, s.permits);
    assert Allocated(sources, s.permits, s.nextId);
    assert Named(owner, sources, retired);
    assert SourcesDrawn(sources, s.counter);
    assert Fenced(sources, s.revoked, s.session.barriers);
  }

  ghost function RefreshedSource(s: State, item: Lease, sequence: nat): Source
    requires item.At() in s.sources
  {
    var source := s.sources[item.At()];
    source.(confirmedSequence := sequence, leaseSequence := Max(source.leaseSequence, item.confirmedSequence),
            omissionSequence := Max(source.omissionSequence, sequence))
  }

  ghost function Vacated(s: State, key: Key): State
    requires key in s.sources
  {
    RemoveSource(s, key).(nextId := s.nextId + 1)
  }

  /** The five ways one installation goes. */
  ghost function Installing(s: State, item: Lease, deadline: int, sequence: nat, kind: InstallCase): State
    requires kind in {Refreshed, Renewed, Replaced} ==> item.At() in s.sources
  {
    match kind
    case Refused => s
    case Refreshed => s.(sources := s.sources[item.At() := RefreshedSource(s, item, sequence)])
    case Renewed => Put(s, item, Confirmed(s.sources[item.At()], item, deadline, sequence))
    case Replaced => Put(Vacated(s, item.At()), item, Confirmed(Fresh(s, item), item, deadline, sequence))
    case Created => Put(s.(nextId := s.nextId + 1), item, Confirmed(Fresh(s, item), item, deadline, sequence))
  }

  lemma InstallCases(s: State, item: Lease, deadline: int, sequence: nat)
    ensures Classify(s, item, sequence) in {Refreshed, Renewed, Replaced} ==> item.At() in s.sources
    ensures Install(s, item, deadline, sequence) == Installing(s, item, deadline, sequence, Classify(s, item, sequence))
  {
  }

  /** The place of a source that left is free, and one more identity is drawn. */
  lemma VacatedKeeps(owner: string -> Key, s: State, key: Key)
    requires Inv(owner, s) && key in s.sources && s.sources[key].permits == {}
    ensures Inv(owner, Vacated(s, key))
    ensures var t := Vacated(s, key);
            && key !in t.sources && s.counter <= t.counter && t.nextId == s.nextId + 1
            && t.revoked == s.revoked && t.session == s.session
  {
    RemoveSourceKeeps(owner, s, key);
    var removed := RemoveSource(s, key);
    CounterKeeps(owner, removed, removed.counter, s.nextId + 1);
    assert Vacated(s, key) == removed.(nextId := s.nextId + 1);
  }

  /** A lease that is admitted is clear of what its sequence has passed. */
  lemma AdmittedClear(s: State, item: Lease, deadline: int, sequence: nat)
    requires Admissible(s, item, sequence)
    ensures Clear(item.At(), Confirmed(Fresh(s, item), item, deadline, sequence), s.revoked, s.session.barriers)
  {
  }

  lemma ReplaceKeeps(owner: string -> Key, s: State, item: Lease, deadline: int, sequence: nat)
    requires Inv(owner, s) && OwnLease(owner, item) && sequence <= s.counter
    requires Classify(s, item, sequence) == Replaced
    ensures Inv(owner, Installing(s, item, deadline, sequence, Replaced))
  {
    VacatedKeeps(owner, s, item.At());
    AdmittedClear(s, item, deadline, sequence);
    PutKeeps(owner, Vacated(s, item.At()), item, Confirmed(Fresh(s, item), item, deadline, sequence));
  }

  lemma CreateKeeps(owner: string -> Key, s: State, item: Lease, deadline: int, sequence: nat)
    requires Inv(owner, s) && OwnLease(owner, item) && sequence <= s.counter
    requires Classify(s, item, sequence) == Created
    ensures Inv(owner, Installing(s, item, deadline, sequence, Created))
  {
    CounterKeeps(owner, s, s.counter, s.nextId + 1);
    PutKeeps(owner, s.(nextId := s.nextId + 1), item, Confirmed(Fresh(s, item), item, deadline, sequence));
  }

  lemma RenewKeeps(owner: string -> Key, s: State, item: Lease, deadline: int, sequence: nat)
    requires Inv(owner, s) && OwnLease(owner, item) && sequence <= s.counter
    requires Classify(s, item, sequence) == Renewed
    ensures Inv(owner, Installing(s, item, deadline, sequence, Renewed))
  {
    PutKeeps(owner, s, item, Confirmed(s.sources[item.At()], item, deadline, sequence));
  }

  lemma RefreshKeeps(owner: string -> Key, s: State, item: Lease, deadline: int, sequence: nat)
    requires Inv(owner, s) && OwnLease(owner, item) && sequence <= s.counter
    requires Classify(s, item, sequence) == Refreshed
    ensures Inv(owner, Installing(s, item, deadline, sequence, Refreshed))
  {
    UpdateKeeps(owner, s, item.At(), RefreshedSource(s, item, sequence), s.counter);
  }

  lemma InstallKeeps(owner: string -> Key, s: State, item: Lease, deadline: int, sequence: nat)
    requires Inv(owner, s) && OwnLease(owner, item) && sequence <= s.counter
    ensures Inv(owner, Install(s, item, deadline, sequence))
  {
    InstallCases(s, item, deadline, sequence);
    match Classify(s, item, sequence)
    case Refused =>
    case Refreshed => RefreshKeeps(owner, s, item, deadline, sequence);
    case Renewed => RenewKeeps(owner, s, item, deadline, sequence);
    case Replaced => ReplaceKeeps(owner, s, item, deadline, sequence);
    case Created => CreateKeeps(owner, s, item, deadline, sequence);
  }

  lemma InstallCounts(s: State, item: Lease, deadline: int, sequence: nat)
    ensures s.counter <= Install(s, item, deadline, sequence).counter
  {
    InstallCases(s, item, deadline, sequence);
  }

  lemma {:induction false} InstallAllKeeps(owner: string -> Key, s: State, items: seq<Lease>, deadlines: seq<int>,
                                           sequence: nat)
    requires Inv(owner, s) && OwnLeases(owner, items) && |items| == |deadlines| && sequence <= s.counter
    ensures Inv(owner, InstallAll(s, items, deadlines, sequence))
    ensures s.counter <= InstallAll(s, items, deadlines, sequence).counter
  {
    if items == [] {
    } else {
      var n := |items| - 1;
      InstallAllKeeps(owner, s, items[..n], deadlines[..n], sequence);
      var mid := InstallAll(s, items[..n], deadlines[..n], sequence);
      InstallKeeps(owner, mid, items[n], deadlines[n], sequence);
      InstallCounts(mid, items[n], deadlines[n], sequence);
    }
  }

  // ---------------------------------------------------------------- whole sections

  lemma InstalledPresent(s: State, item: Lease, deadline: int, sequence: nat, now: int)
    requires Installed(s, item, sequence, now)
    ensures item.At() in Install(s, item, deadline, sequence).sources
  {
    InstallCases(s, item, deadline, sequence);
  }

  ghost function Outranking(s: State, key: Key): State
    requires key in s.sources
  {
    s.(counter := s.counter + 1, sources := s.sources[key := s.sources[key].(omissionSequence := s.counter + 1)])
  }

  lemma DrawnAt(sources: map<Key, Source>, counter: nat, key: Key)
    requires SourcesDrawn(sources, counter) && key in sources
    ensures sources[key].confirmedSequence <= counter
  {
  }

  lemma OutrankingKeeps(owner: string -> Key, s: State, key: Key)
    requires Inv(owner, s) && key in s.sources
    ensures Inv(owner, Outranking(s, key))
  {
    var source := s.sources[key].(omissionSequence := s.counter + 1);
    DrawnAt(s.sources, s.counter, key);
    UpdateKeeps(owner, s, key, source, s.counter + 1);
    assert Outranking(s, key) == s.(counter := s.counter + 1, sources := s.sources[key := source]);
  }

  lemma GrantCases(s: State, item: Lease, deadline: int, sequence: nat, run: string, now: int)
    ensures s.session.run != run ==> Grant(s, item, deadline, sequence, run, now) == s
    ensures s.session.run == run && !Installed(s, item, sequence, now) ==>
              Grant(s, item, deadline, sequence, run, now) == Install(s, item, deadline, sequence)
    ensures s.session.run == run && Installed(s, item, sequence, now) ==>
              && item.At() in Install(s, item, deadline, sequence).sources
              && Grant(s, item, deadline, sequence, run, now)
              == Outranking(Install(s, item, deadline, sequence), item.At())
  {
    if Installed(s, item, sequence, now) {
      InstalledPresent(s, item, deadline, sequence, now);
    }
  }

  lemma GrantKeeps(owner: string -> Key, s: State, item: Lease, deadline: int, sequence: nat, run: string, now: int)
    requires Inv(owner, s) && OwnLease(owner, item) && sequence <= s.counter
    ensures Inv(owner, Grant(s, item, deadline, sequence, run, now))
  {
    GrantCases(s, item, deadline, sequence, run, now);
    InstallKeeps(owner, s, item, deadline, sequence);
    if s.session.run == run && Installed(s, item, sequence, now) {
      OutrankingKeeps(owner, Install(s, item, deadline, sequence), item.At());
    }
  }

  lemma {:induction false} OmittedOwned(owner: string -> Key, s: State, leases: seq<Lease>, sequence: nat,
                                        order: seq<Key>)
    requires Named(owner, s.sources, s.retired) && forall key :: key in order ==> key in s.sources
    ensures OwnItems(owner, Omitted(s, leases, sequence, order))
  {
    if order == [] {
    } else {
      OmittedOwned(owner, s, leases, sequence, order[..|order| - 1]);
    }
  }

  lemma {:induction false} UnlistedOwned(owner: string -> Key, s: State, ids: set<int>, order: seq<Key>)
    requires Named(owner, s.sources, s.retired) && forall key :: key in order ==> key in s.sources
    ensures OwnItems(owner, Unlisted(s, ids, order))
  {
    if order == [] {
    } else {
      UnlistedOwned(owner, s, ids, order[..|order| - 1]);
    }
  }

  lemma {:induction false} IdleReturnsOwned(owner: string -> Key, s: State, items: seq<Revocation>, leases: seq<Lease>,
                                            sequence: nat)
    requires OwnItems(owner, items)
    ensures OwnItems(owner, IdleReturns(s, items, leases, sequence))
  {
    if items == [] {
    } else {
      IdleReturnsOwned(owner, s, items[..|items| - 1], leases, sequence);
      var item := IdleReturn(s, items[|items| - 1], leases, sequence);
      assert item.Some? ==> OwnItem(owner, item.value) by {
        if item.Some? {
          assert item.value.At() == items[|items| - 1].At() && item.value.lease == items[|items| - 1].lease;
        }
      }
    }
  }

  lemma AcceptListedKeeps(owner: string -> Key, s: State, reply: SyncReply, deadlines: seq<int>, sequence: nat,
                          order: seq<Key>, now: int)
    requires Inv(owner, s) && OwnLeases(owner, reply.leases) && |deadlines| == |reply.leases| && sequence <= s.counter
    requires forall key :: key in order ==> key in s.sources
    ensures Inv(owner, AcceptListed(s, reply, deadlines, sequence, order, now))
    ensures s.counter <= AcceptListed(s, reply, deadlines, sequence, order, now).counter
  {
    InstallAllKeeps(owner, s, reply.leases, deadlines, sequence);
    OmittedOwned(owner, s, reply.leases, sequence, order);
    RevokeKeeps(owner, InstallAll(s, reply.leases, deadlines, sequence), Omitted(s, reply.leases, sequence, order),
                sequence, now);
  }

  lemma AcceptKeeps(owner: string -> Key, s: State, reply: SyncReply, deadlines: seq<int>, sequence: nat,
                    order: seq<Key>, now: int)
    requires Inv(owner, s) && OwnLeases(owner, reply.leases) && OwnItems(owner, reply.idle)
    requires |deadlines| == |reply.leases| && sequence <= s.counter
    requires forall key :: key in order ==> key in s.sources
    ensures Inv(owner, Accept(s, reply, deadlines, sequence, order, now))
    ensures s.counter <= Accept(s, reply, deadlines, sequence, order, now).counter
  {
    AcceptListedKeeps(owner, s, reply, deadlines, sequence, order, now);
    var listed := AcceptListed(s, reply, deadlines, sequence, order, now);
    IdleReturnsOwned(owner, listed, reply.idle, reply.leases, sequence);
    RevokeKeeps(owner, listed, IdleReturns(listed, reply.idle, reply.leases, sequence), sequence, now);
  }

  lemma IssueHolds(sources: map<Key, Source>, permits: map<nat, Permit>, key: Key, id: nat, source: Source)
    requires PermitsHeld(sources, permits) && key in sources && id !in permits
    requires source.id == sources[key].id && source.permits == sources[key].permits + {id}
    ensures PermitsHeld(sources[key := source], permits[id := Permit(key, source.id)])
  {
    var grown := sources[key := source];
    forall k, p | k in grown && p in grown[k].permits
      ensures p in permits[id := Permit(key, source.id)]
      ensures permits[id := Permit(key, source.id)][p] == Permit(k, grown[k].id)
    {
      if p == id {
        assert k == key;
      }
    }
  }

  ghost function Touched(s: State, key: Key, now: int): State
    requires key in s.sources
  {
    s.(counter := s.counter + 1,
       sources := s.sources[key := s.sources[key].(sequence := s.counter + 1, connected := now)])
  }

  lemma TouchKeeps(owner: string -> Key, s: State, key: Key, now: int)
    requires Inv(owner, s) && key in s.sources
    ensures Inv(owner, Touched(s, key, now))
  {
    assert SourcesDrawn(s.sources, s.counter);
    UpdateKeeps(owner, s, key, s.sources[key].(sequence := s.counter + 1, connected := now), s.counter + 1);
  }

  ghost function Attached(s: State, key: Key, id: nat): State
    requires key in s.sources
  {
    s.(nextId := id + 1, permits := s.permits[id := Permit(key, s.sources[key].id)],
       sources := s.sources[key := s.sources[key].(permits := s.sources[key].permits + {id})])
  }

  lemma IssueCase(s: State, key: Key, now: int)
    requires key in s.sources
    ensures IssuePermit(s, key, now) == Attached(Touched(s, key, now), key, s.nextId)
  {
  }

  /** Handing out one permit: the table gains an entry, the source counts it. */
  lemma AttachKeeps(owner: string -> Key, s: State, key: Key)
    requires Inv(owner, s) && key in s.sources
    ensures Inv(owner, Attached(s, key, s.nextId))
  {
    var id := s.nextId;
    var source := s.sources[key].(permits := s.sources[key].permits + {id});
    var sources := s.sources[key := source];
    IssueHolds(s.sources, s.permits, key, id, source);
    assert Fenced(sources, s.revoked, s.session.barriers) by {
      assert Fenced(s.sources, s.revoked, s.session.barriers);
      assert !source.revoked ==> Clear(key, s.sources[key], s.revoked, s.session.barriers);
    }
    assert Named(owner, sources, s.retired);
    assert SourcesDrawn(sources, s.counter);
    assert Allocated(sources, s.permits[id := Permit(key, source.id)], id + 1);
  }

  lemma IssuePermitKeeps(owner: string -> Key, s: State, key: Key, now: int)
    requires Inv(owner, s) && key in s.sources
    ensures Inv(owner, IssuePermit(s, key, now))
  {
    TouchKeeps(owner, s, key, now);
    AttachKeeps(owner, Touched(s, key, now), key);
    IssueCase(s, key, now);
  }

  lemma {:induction false} IssueEachKeeps(owner: string -> Key, s: State, key: Key, waiters: seq<nat>, now: int)
    requires Inv(owner, s) && key in s.sources
    ensures Inv(owner, IssueEach(s, key, waiters, now))
  {
    if waiters == [] {
    } else {
      IssueEachKeeps(owner, s, key, waiters[..|waiters| - 1], now);
      IssuePermitKeeps(owner, IssueEach(s, key, waiters[..|waiters| - 1], now), key, now);
    }
  }

  lemma FlightsKeep(owner: string -> Key, s: State, flights: map<Key, Flight>)
    requires Inv(owner, s) && forall key :: key in flights ==> flights[key].sequence <= s.counter
    ensures Inv(owner, s.(flights := flights))
  {
  }

  lemma JoinFlightKeeps(owner: string -> Key, s: State, key: Key, waiter: nat)
    requires Inv(owner, s) && key in s.flights
    ensures Inv(owner, s.(flights := s.flights[key := s.flights[key].(waiters := s.flights[key].waiters + {waiter})]))
  {
    FlightsKeep(owner, s, s.flights[key := s.flights[key].(waiters := s.flights[key].waiters + {waiter})]);
  }

  lemma NewFlightKeeps(owner: string -> Key, s: State, key: Key, flight: Flight)
    requires Inv(owner, s) && flight.sequence == s.counter + 1
    ensures Inv(owner, s.(counter := s.counter + 1, flights := s.flights[key := flight]))
  {
    CounterKeeps(owner, s, s.counter + 1, s.nextId);
    FlightsKeep(owner, s.(counter := s.counter + 1), s.flights[key := flight]);
  }

  lemma LeaveFlightKeeps(owner: string -> Key, s: State, key: Key, flight: nat, waiter: nat)
    requires Inv(owner, s)
    ensures Inv(owner, LeaveFlight(s, key, flight, waiter))
  {
    FlightsKeep(owner, s, LeaveFlight(s, key, flight, waiter).flights);
  }

  lemma DropHolds(sources: map<Key, Source>, permits: map<nat, Permit>, p: nat, source: Source)
    requires PermitsHeld(sources, permits) && p in permits
    requires source.id == permits[p].source && source.permits == sources[permits[p].key].permits - {p}
    ensures PermitsHeld(sources[permits[p].key := source], permits - {p})
  {
  }

  ghost function Detached(s: State, permit: nat): State
    requires permit in s.permits && s.permits[permit].key in s.sources
  {
    var key := s.permits[permit].key;
    s.(permits := s.permits - {permit},
       sources := s.sources[key := s.sources[key].(permits := s.sources[key].permits - {permit})])
  }

  lemma DetachedKeeps(owner: string -> Key, s: State, permit: nat)
    requires Inv(owner, s) && permit in s.permits
    ensures Inv(owner, Detached(s, permit))
  {
    var key := s.permits[permit].key;
    var source := s.sources[key].(permits := s.sources[key].permits - {permit});
    var sources := s.sources[key := source];
    DropHolds(s.sources, s.permits, permit, source);
    assert Fenced(sources, s.revoked, s.session.barriers) by {
      assert Fenced(s.sources, s.revoked, s.session.barriers);
      assert !source.revoked ==> Clear(key, s.sources[key], s.revoked, s.session.barriers);
    }
    assert Named(owner, sources, s.retired);
    assert SourcesDrawn(sources, s.counter);
    assert Allocated(sources, s.permits - {permit}, s.nextId);
  }

  /** Whether giving back this permit empties a source that has no reason to stay. */
  ghost predicate LastOfDead(s: State, permit: nat, now: int)
    requires permit in s.permits && s.permits[permit].key in s.sources
  {
    var source := s.sources[s.permits[permit].key];
    source.permits - {permit} == {} && (source.revoked || s.session.closing || source.deadline <= now)
  }

  lemma ReleaseCases(s: State, permit: nat, now: int)
    requires permit in s.permits && s.permits[permit].key in s.sources
    requires s.sources[s.permits[permit].key].id == s.permits[permit].source
    ensures LastOfDead(s, permit, now) ==>
              Release(s, permit, now) == RemoveSource(Detached(s, permit), s.permits[permit].key)
    ensures !LastOfDead(s, permit, now) ==> Release(s, permit, now) == Detached(s, permit)
  {
  }

  lemma ReleaseKeeps(owner: string -> Key, s: State, permit: nat, now: int)
    requires Inv(owner, s)
    ensures Inv(owner, Release(s, permit, now))
  {
    if permit in s.permits {
      DetachedKeeps(owner, s, permit);
      ReleaseCases(s, permit, now);
      if LastOfDead(s, permit, now) {
        RemoveSourceKeeps(owner, Detached(s, permit), s.permits[permit].key);
      }
    }
  }

  lemma NewConnectionKeeps(owner: string -> Key, s: State, permit: nat, closing: bool, now: int)
    requires Inv(owner, s)
    ensures Inv(owner, NewConnection(s, permit, closing, now))
  {
    if permit in s.permits && Usable(s, s.permits[permit].key, now) {
      TouchKeeps(owner, s, s.permits[permit].key, now);
    }
  }

  lemma ExpireKeeps(owner: string -> Key, s: State, key: Key, id: nat, deadline: int, now: int)
    requires Inv(owner, s)
    ensures Inv(owner, Expire(s, key, id, deadline, now))
  {
    if key in s.sources && s.sources[key].permits == {} {
      RemoveSourceKeeps(owner, s, key);
    }
  }

  lemma {:induction false} CloseAllKeeps(owner: string -> Key, s: State, order: seq<Key>)
    requires Inv(owner, s)
    requires forall key :: key in order ==> key in s.sources
    requires forall i, j :: 0 <= i < j < |order| ==> order[i] != order[j]
    ensures Inv(owner, CloseAll(s, order))
  {
    if order == [] {
    } else {
      CloseAllKeeps(owner, s, order[..|order| - 1]);
      MarkRevokedKeeps(owner, CloseAll(s, order[..|order| - 1]), order[|order| - 1]);
    }
  }

  lemma ConfirmSnapshotKeeps(owner: string -> Key, s: State, snapshot: Snapshot, user: int)
    requires Inv(owner, s)
    ensures Inv(owner, ConfirmSnapshot(s, snapshot, user))
  {
    assert Named(owner, s.sources, ConfirmSnapshot(s, snapshot, user).retired);
  }

  lemma BeginKeeps(owner: string -> Key, s: State, drawn: string)
    requires Inv(owner, s)
    ensures Inv(owner, Begin(s, drawn))
  {
    if CanBegin(s) {
      assert Fenced(s.sources, s.revoked, map[]);
    }
  }

  // ---------------------------------------------------------------- removing users

  lemma MarkRevokedSources(s: State, key: Key)
    requires key in s.sources
    ensures s.sources[key].permits == {} ==> MarkRevoked(s, key).sources == s.sources - {key}
    ensures s.sources[key].permits != {} ==>
              MarkRevoked(s, key).sources == s.sources[key := s.sources[key].(revoked := true)]
  {
    MarkCase(s, key);
  }

  /** What one revocation does to the source table. */
  lemma RevokeItemSources(s: State, item: Revocation, sequence: nat, now: int)
    ensures Skips(s, item, sequence) || !Hits(s, item) ==> RevokeItem(s, item, sequence, now).sources == s.sources
    ensures !Skips(s, item, sequence) && Hits(s, item) ==>
              RevokeItem(s, item, sequence, now).sources ==
              if s.sources[item.At()].permits == {} then s.sources - {item.At()}
              else s.sources[item.At() := s.sources[item.At()].(revoked := true)]
  {
    RevokeCase(s, item, sequence, now);
    if Hits(s, item) {
      MarkRevokedSources(RecordRevocation(s, item, sequence, now), item.At());
    }
  }

  /** Revocations add no source and change nothing of one but its flag, which never drops. */
  lemma {:induction false} SourcesOnlyLeave(s: State, items: seq<Revocation>, sequence: nat, now: int, key: Key)
    ensures var t := RevokeItems(s, items, sequence, now);
            key in t.sources ==>
              && key in s.sources
              && t.sources[key] == s.sources[key].(revoked := t.sources[key].revoked)
              && (s.sources[key].revoked ==> t.sources[key].revoked)
  {
    if items == [] {
    } else {
      SourcesOnlyLeave(s, items[..|items| - 1], sequence, now, key);
      RevokeItemSources(RevokeItems(s, items[..|items| - 1], sequence, now), items[|items| - 1], sequence, now);
    }
  }

  lemma {:induction false} UnlistedCovers(s: State, ids: set<int>, order: seq<Key>, key: Key)
    requires forall k :: k in order ==> k in s.sources
    requires key in order && key.user !in ids
    ensures Revocation("", 0, key.user, key.ip, s.sources[key].lease) in Unlisted(s, ids, order)
  {
    if key != order[|order| - 1] {
      assert key in order[..|order| - 1];
      UnlistedCovers(s, ids, order[..|order| - 1], key);
    }
  }

  /** A local revocation (sequence zero) is never skipped: the source it names is out of force afterwards. */
  lemma {:induction false} LocallyRevoked(s: State, items: seq<Revocation>, now: int, key: Key)
    requires key in s.sources && key.user > 0 && ValidLease(s.sources[key].lease)
    requires Revocation("", 0, key.user, key.ip, s.sources[key].lease) in items
    ensures var t := RevokeItems(s, items, 0, now); key in t.sources ==> t.sources[key].revoked
  {
    var last := items[|items| - 1];
    var front := items[..|items| - 1];
    var mid := RevokeItems(s, front, 0, now);
    SourcesOnlyLeave(s, front, 0, now, key);
    RevokeItemSources(mid, last, 0, now);
    if last != Revocation("", 0, key.user, key.ip, s.sources[key].lease) {
      assert Revocation("", 0, key.user, key.ip, s.sources[key].lease) in front;
      LocallyRevoked(s, front, now, key);
    }
  }

  ghost function WithBarriers(s: State, barriers: map<int, nat>): State {
    s.(session := s.session.(barriers := barriers))
  }

  lemma MarkIgnoresBarriers(s: State, key: Key, barriers: map<int, nat>)
    requires key in s.sources
    ensures MarkRevoked(WithBarriers(s, barriers), key) == WithBarriers(MarkRevoked(s, key), barriers)
  {
    MarkCase(s, key);
    MarkCase(WithBarriers(s, barriers), key);
  }

  lemma RecordIgnoresBarriers(s: State, item: Revocation, sequence: nat, now: int, barriers: map<int, nat>)
    ensures Skips(WithBarriers(s, barriers), item, sequence) == Skips(s, item, sequence)
    ensures RecordRevocation(WithBarriers(s, barriers), item, sequence, now)
         == WithBarriers(RecordRevocation(s, item, sequence, now), barriers)
  {
  }

  lemma RetireIgnoresBarriers(s: State, item: Revocation, barriers: map<int, nat>)
    ensures Retire(WithBarriers(s, barriers), item) == WithBarriers(Retire(s, item), barriers)
  {
  }

  /** Revoking neither reads nor writes the permission barriers. */
  lemma RevokeItemIgnoresBarriers(s: State, item: Revocation, sequence: nat, now: int, barriers: map<int, nat>)
    ensures RevokeItem(WithBarriers(s, barriers), item, sequence, now)
         == WithBarriers(RevokeItem(s, item, sequence, now), barriers)
  {
    RevokeCase(s, item, sequence, now);
    RevokeCase(WithBarriers(s, barriers), item, sequence, now);
    RecordIgnoresBarriers(s, item, sequence, now, barriers);
    var recorded := RecordRevocation(s, item, sequence, now);
    if Hits(s, item) {
      MarkIgnoresBarriers(recorded, item.At(), barriers);
    } else {
      RetireIgnoresBarriers(recorded, item, barriers);
    }
  }

  lemma {:induction false} RevokeItemsIgnoresBarriers(s: State, items: seq<Revocation>, sequence: nat, now: int,
                                                      barriers: map<int, nat>)
    ensures RevokeItems(WithBarriers(s, barriers), items, sequence, now)
         == WithBarriers(RevokeItems(s, items, sequence, now), barriers)
  {
    if items == [] {
    } else {
      RevokeItemsIgnoresBarriers(s, items[..|items| - 1], sequence, now, barriers);
      RevokeItemIgnoresBarriers(RevokeItems(s, items[..|items| - 1], sequence, now), items[|items| - 1], sequence, now,
                                barriers);
    }
  }

  lemma RevokeIgnoresBarriers(s: State, items: seq<Revocation>, sequence: nat, now: int, barriers: map<int, nat>)
    ensures Revoke(WithBarriers(s, barriers), items, sequence, now)
            == WithBarriers(Revoke(s, items, sequence, now), barriers)
  {
    assert Prune(WithBarriers(s, barriers), now) == WithBarriers(Prune(s, now), barriers);
    RevokeItemsIgnoresBarriers(Prune(s, now), items, sequence, now, barriers);
  }

  lemma RaisedInv(owner: string -> Key, s: State, ids: set<int>, removed: set<int>)
    requires Inv(owner, s)
    ensures Inv(owner, WithBarriers(Raised(s, ids, removed), s.session.barriers))
  {
    var n := if removed == {} then s.counter else s.counter + 1;
    CounterKeeps(owner, s, n, s.nextId);
    assert WithBarriers(Raised(s, ids, removed), s.session.barriers)
        == s.(counter := n, session := s.session.(users := Some(ids)));
  }

  ghost function RaisedMap(was: map<int, nat>, removed: set<int>, n: nat): map<int, nat> {
    was + map id | id in removed :: n
  }

  lemma RaisedRest(s: State, ids: set<int>, removed: set<int>)
    ensures Raised(s, ids, removed)
         == s.(counter := Raised(s, ids, removed).counter, session := Raised(s, ids, removed).session)
  {
  }

  lemma RaisedCase(s: State, ids: set<int>, removed: set<int>)
    ensures removed == {} ==> Raised(s, ids, removed).session.barriers == s.session.barriers
                              && Raised(s, ids, removed).counter == s.counter
    ensures removed != {} ==>
              Raised(s, ids, removed).session.barriers == RaisedMap(s.session.barriers, removed, s.counter + 1)
                              && Raised(s, ids, removed).counter == s.counter + 1
  {
  }

  lemma RaisedMapAt(was: map<int, nat>, removed: set<int>, n: nat, user: int)
    requires forall u :: u in was ==> was[u] < n
    ensures user in was ==> user in RaisedMap(was, removed, n) && was[user] <= RaisedMap(was, removed, n)[user]
    ensures user in RaisedMap(was, removed, n) ==>
              && RaisedMap(was, removed, n)[user] <= n
              && (user !in removed ==> user in was && RaisedMap(was, removed, n)[user] == was[user])
  {
  }

  lemma RaisedBarriers(owner: string -> Key, s: State, ids: set<int>, removed: set<int>, user: int)
    requires Inv(owner, s)
    ensures var barriers := Raised(s, ids, removed).session.barriers; var was := s.session.barriers;
            && (user in was ==> user in barriers && was[user] <= barriers[user])
            && (user in barriers ==>
                  && barriers[user] <= Raised(s, ids, removed).counter
                  && (user !in removed ==> user in was && barriers[user] == was[user]))
  {
    RaisedCase(s, ids, removed);
    RaisedMapAt(s.session.barriers, removed, s.counter + 1, user);
  }

  lemma RemovedNotListed(s: State, ids: set<int>)
    ensures RemovedUsers(s, ids) !! ids
  {
  }

  lemma UnlistedLeave(owner: string -> Key, s: State, ids: set<int>, order: seq<Key>, now: int, key: Key)
    requires Named(owner, s.sources, s.retired) && Enumerates(order, s.sources.Keys)
    ensures forall k :: k in order ==> k in s.sources
    ensures var t := RevokeItems(s, Unlisted(s, ids, order), 0, now);
            key in t.sources && !t.sources[key].revoked ==> key.user in ids
  {
    forall k | k in order ensures k in s.sources {
      assert k in Elements(order);
    }
    var items := Unlisted(s, ids, order);
    SourcesOnlyLeave(s, items, 0, now, key);
    if key in s.sources && key.user !in ids {
      assert key in Elements(order);
      UnlistedCovers(s, ids, order, key);
      LocallyRevoked(s, items, now, key);
    }
  }

  lemma {:induction false} UnlistedReadsSources(s: State, t: State, ids: set<int>, order: seq<Key>)
    requires s.sources == t.sources && forall key :: key in order ==> key in s.sources
    ensures Unlisted(s, ids, order) == Unlisted(t, ids, order)
  {
    if order == [] {
    } else {
      UnlistedReadsSources(s, t, ids, order[..|order| - 1]);
    }
  }

  lemma FencedWithBarriers(sources: map<Key, Source>, revoked: map<string, RevokedLease>, was: map<int, nat>,
                           now: map<int, nat>)
    requires Fenced(sources, revoked, was)
    requires forall key :: key in sources && !sources[key].revoked && key.user in now ==>
                             key.user in was && now[key.user] == was[key.user]
    ensures Fenced(sources, revoked, now)
  {
    forall key | key in sources && !sources[key].revoked ensures Clear(key, sources[key], revoked, now) {
      assert Clear(key, sources[key], revoked, was);
    }
  }

  lemma SetUsersKeeps(owner: string -> Key, s: State, ids: set<int>, order: seq<Key>, now: int)
    requires Inv(owner, s) && Enumerates(order, s.sources.Keys)
    requires forall key :: key in order ==> key in s.sources
    ensures Inv(owner, SetUsers(s, ids, order, now))
  {
    RemovedNotListed(s, ids);
    RaisedUsersKeeps(owner, s, ids, RemovedUsers(s, ids), order, now);
  }

  lemma RaisedUsersKeeps(owner: string -> Key, s: State, ids: set<int>, removed: set<int>, order: seq<Key>, now: int)
    requires Inv(owner, s) && Enumerates(order, s.sources.Keys) && removed !! ids
    requires forall key :: key in order ==> key in s.sources
    ensures Inv(owner, Revoke(Raised(s, ids, removed), Unlisted(s, ids, order), 0, now))
  {
    var was := s.session.barriers;
    var items := Unlisted(s, ids, order);
    RaisedInv(owner, s, ids, removed);
    UnlistedOwned(owner, s, ids, order);
    RevokeKeeps(owner, WithBarriers(Raised(s, ids, removed), was), items, 0, now);
    RevokeIgnoresBarriers(Raised(s, ids, removed), items, 0, now, was);
    UnrevokedKeepBarrier(owner, s, ids, removed, order, now);
    BarriersSwap(owner, Revoke(Raised(s, ids, removed), items, 0, now), was);
  }

  /** After a user list took effect, a source still in force belongs to a user whose barrier did not move. */
  /** Barriers are numbers drawn, and none has been lowered. */
  lemma RaisedInOrder(owner: string -> Key, s: State, ids: set<int>, removed: set<int>, t: State)
    requires Inv(owner, s) && removed !! ids
    requires t.session.barriers == Raised(s, ids, removed).session.barriers
             && Raised(s, ids, removed).counter <= t.counter
    ensures forall user :: user in t.session.barriers ==> t.session.barriers[user] <= t.counter
    ensures forall user :: user in s.session.barriers ==>
              user in t.session.barriers && s.session.barriers[user] <= t.session.barriers[user]
  {
    forall user
      ensures user in t.session.barriers ==> t.session.barriers[user] <= t.counter
      ensures user in s.session.barriers ==>
                user in t.session.barriers && s.session.barriers[user] <= t.session.barriers[user]
    {
      RaisedBarriers(owner, s, ids, removed, user);
    }
  }

  /** A source in force of a user on the list has the barrier it had. */
  lemma ListedKeepBarrier(owner: string -> Key, s: State, ids: set<int>, removed: set<int>, t: State)
    requires Inv(owner, s) && removed !! ids && t.session.barriers == Raised(s, ids, removed).session.barriers
    requires forall key :: key in t.sources && !t.sources[key].revoked ==> key.user in ids
    ensures forall key :: key in t.sources && !t.sources[key].revoked && key.user in t.session.barriers ==>
              key.user in s.session.barriers && t.session.barriers[key.user] == s.session.barriers[key.user]
  {
    forall key | key in t.sources && !t.sources[key].revoked && key.user in t.session.barriers
      ensures key.user in s.session.barriers && t.session.barriers[key.user] == s.session.barriers[key.user]
    {
      RaisedBarriers(owner, s, ids, removed, key.user);
    }
  }

  lemma UnrevokedKeepBarrier(owner: string -> Key, s: State, ids: set<int>, removed: set<int>, order: seq<Key>,
                             now: int)
    requires Inv(owner, s) && Enumerates(order, s.sources.Keys) && removed !! ids
    requires forall key :: key in order ==> key in s.sources
    ensures var t := Revoke(Raised(s, ids, removed), Unlisted(s, ids, order), 0, now);
            && (forall user :: user in t.session.barriers ==> t.session.barriers[user] <= t.counter)
            && (forall user :: user in s.session.barriers ==>
                  user in t.session.barriers && s.session.barriers[user] <= t.session.barriers[user])
            && (forall key :: key in t.sources && !t.sources[key].revoked && key.user in t.session.barriers ==>
                  && key.user in s.session.barriers
                  && t.session.barriers[key.user] == s.session.barriers[key.user])
  {
    var pruned := Prune(Raised(s, ids, removed), now);
    var items := Unlisted(s, ids, order);
    var t := RevokeItems(pruned, items, 0, now);
    BarriersUntouched(pruned, items, 0, now);
    UnlistedReadsSources(s, pruned, ids, order);
    assert Named(owner, pruned.sources, pruned.retired);
    assert pruned.session.barriers == t.session.barriers;
    RaisedInOrder(owner, s, ids, removed, t);
    forall key | key in t.sources && !t.sources[key].revoked ensures key.user in ids {
      UnlistedLeave(owner, pruned, ids, order, now, key);
    }
    ListedKeepBarrier(owner, s, ids, removed, t);
  }

  lemma BarriersSwap(owner: string -> Key, t: State, was: map<int, nat>)
    requires Inv(owner, WithBarriers(t, was))
    requires forall user :: user in t.session.barriers ==> t.session.barriers[user] <= t.counter
    requires forall key :: key in t.sources && !t.sources[key].revoked && key.user in t.session.barriers ==>
                             key.user in was && t.session.barriers[key.user] == was[key.user]
    ensures Inv(owner, t)
  {
    FencedWithBarriers(t.sources, t.revoked, was, t.session.barriers);
  }

  lemma {:induction false} BarriersUntouched(s: State, items: seq<Revocation>, sequence: nat, now: int)
    ensures RevokeItems(s, items, sequence, now).session.barriers == s.session.barriers
    ensures s.counter <= RevokeItems(s, items, sequence, now).counter
  {
    RevokeItemsIgnoresBarriers(s, items, sequence, now, s.session.barriers);
    assert WithBarriers(s, s.session.barriers) == s;
    if items == [] {
    } else {
      BarriersUntouched(s, items[..|items| - 1], sequence, now);
      RevokeItemCounts(RevokeItems(s, items[..|items| - 1], sequence, now), items[|items| - 1], sequence, now);
    }
  }
}
