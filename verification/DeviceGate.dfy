/**
 The coordinator itself.  Each method is one section run under the state lock (`m.mu`); its contract gives the state it
 leaves as a function of the state it found, which is what the invariants and runs are proved about.
 */
module DeviceGate {
  import opened Common
  import opened DeviceGateState
  import S = DeviceGateState

  /** The local deadlines of a reply's leases, or the first reason to reject the reply. */
  method Deadlines(leases: seq<Lease>, serverTime: int, started: int, checked: int)
    returns (r: Result<seq<int>, LeaseError>)
    ensures r.Ok? <==> forall i :: 0 <= i < |leases| ==> LeaseDeadline(leases[i], serverTime, started, checked).Ok?
    ensures r.Ok? ==> |r.value| == |leases| &&
                      forall i :: 0 <= i < |leases| ==>
                                LeaseDeadline(leases[i], serverTime, started, checked) == Ok(r.value[i])
    ensures r.Err? ==> exists i ::
              0 <= i < |leases| && LeaseDeadline(leases[i], serverTime, started, checked) == Err(r.error)
                                   && forall j :: 0 <= j < i ==>
                                     LeaseDeadline(leases[j], serverTime, started, checked).Ok?
  {
    var deadlines: seq<int> := [];
    for i := 0 to |leases|
      invariant |deadlines| == i
      invariant forall j :: 0 <= j < i ==> LeaseDeadline(leases[j], serverTime, started, checked) == Ok(deadlines[j])
    {
      match LeaseDeadline(leases[i], serverTime, started, checked)
      case Err(e) => return Err(e);
      case Ok(deadline) => deadlines := deadlines + [deadline];
    }
    return Ok(deadlines);
  }

  lemma EnumeratesNext(order: seq<Key>, done: set<Key>, key: Key)
    requires Enumerates(order, done) && key !in done
    ensures Enumerates(order + [key], done + {key})
  {
    var grown := order + [key];
    forall i, j | 0 <= i < j < |grown| ensures grown[i] != grown[j] {
      if j == |order| {
        assert order[i] in Elements(order);
      }
    }
  }

  lemma CloseNext(s: State, order: seq<Key>, key: Key)
    requires (forall k :: k in order + [key] ==> k in s.sources)
    requires forall i, j :: 0 <= i < j < |order + [key]| ==> (order + [key])[i] != (order + [key])[j]
    ensures (forall i, j :: 0 <= i < j < |order| ==> order[i] != order[j]) && key in S.CloseAll(s, order).sources
    ensures S.CloseAll(s, order + [key]) == S.MarkRevoked(S.CloseAll(s, order), key)
  {
    var grown := order + [key];
    assert grown[..|order|] == order && grown[|order|] == key;
    forall i, j | 0 <= i < j < |order| ensures order[i] != order[j] {
      assert grown[i] != grown[j];
    }
    forall i | 0 <= i < |order| ensures order[i] != key {
      assert grown[i] != grown[|order|];
    }
  }

  /** The connections of some of the sources. */
  function Connections(sources: map<Key, Source>, keys: set<Key>): set<nat>
    requires keys <= sources.Keys
  {
    set key, p | key in keys && p in sources[key].permits :: p
  }

  lemma ConnectionsNext(sources: map<Key, Source>, keys: set<Key>, key: Key)
    requires keys <= sources.Keys && key in sources
    ensures Connections(sources, keys + {key}) == Connections(sources, keys) + sources[key].permits
  {
  }

  /** Each waiter got the permit drawn in its turn. */
  predicate Grants(granted: map<nat, nat>, live: seq<nat>, first: nat) {
    granted.Keys == Elements(live) && forall i :: 0 <= i < |live| ==> granted[live[i]] == first + i
  }

  lemma GrantsNext(granted: map<nat, nat>, live: seq<nat>, first: nat, waiter: nat)
    requires Grants(granted, live, first) && Different(live) && waiter !in Elements(live)
    ensures Grants(granted[waiter := first + |live|], live + [waiter], first) && Different(live + [waiter])
    ensures Elements(live + [waiter]) == Elements(live) + {waiter}
  {
    assert forall i :: 0 <= i < |live| ==> live[i] in Elements(live);
  }

  /** A set in some order. */
  ghost function Listing(waiters: set<nat>): (live: seq<nat>)
    ensures Different(live) && Elements(live) == waiters
  {
    if waiters == {} then []
    else
      var waiter :| waiter in waiters;
      var rest := Listing(waiters - {waiter});
      assert forall i :: 0 <= i < |rest| ==> rest[i] in Elements(rest);
      assert Elements([waiter] + rest) == {waiter} + Elements(rest);
      [waiter] + rest
  }

  class Manager {
    var session: Session
    var counter: nat
    var sources: map<Key, Source>
    var flights: map<Key, Flight>
    var revoked: map<string, RevokedLease>
    var retired: map<string, Retired>
    var permits: map<nat, Permit>
    var nextId: nat

    function Abs(): State
      reads this
    {
      State(session, counter, sources, flights, revoked, retired, permits, nextId)
    }

    constructor ()
      ensures Abs() == Initial
    {
      session, counter, sources, flights := Initial.session, 0, map[], map[];
      revoked, retired, permits, nextId := map[], map[], map[], 0;
    }

    method Retire(item: Revocation)
      modifies this
      ensures Abs() == S.Retire(old(Abs()), item)
    {
      var kept := item;
      if item.run == "" {
        if item.lease in retired {
          kept := retired[item.lease].item;
        } else {
          kept := item.(run := session.run);
        }
      }
      counter := counter + 1;
      retired := retired[kept.lease := Retired(kept, counter)];
    }

    method RemoveSource(key: Key)
      requires key in sources
      modifies this
      ensures Abs() == S.RemoveSource(old(Abs()), key)
    {
      var source := sources[key];
      sources := sources - {key};
      Retire(Revocation(source.run, source.leaseSequence, key.user, key.ip, source.lease));
    }

    method Prune(now: int)
      modifies this
      ensures Abs() == S.Prune(old(Abs()), now)
    {
      var todo := revoked.Keys;
      ghost var was := revoked;
      while todo != {}
        invariant todo <= was.Keys
        invariant revoked == map lease | lease in was && (lease in todo || now <= was[lease].until) :: was[lease]
        invariant Abs() == old(Abs()).(revoked := revoked)
      {
        var lease :| lease in todo;
        todo := todo - {lease};
        if revoked[lease].until < now {
          revoked := revoked - {lease};
        }
      }
    }

    method MarkRevoked(key: Key)
      requires key in sources
      modifies this
      ensures Abs() == S.MarkRevoked(old(Abs()), key)
    {
      sources := sources[key := sources[key].(revoked := true)];
      if sources[key].permits == {} {
        RemoveSource(key);
      }
    }

    /** One pass of the revocation loop; `closed` are the connections to shut once the lock is dropped. */
    method RevokeItem(item: Revocation, sequence: nat, now: int) returns (closed: set<nat>)
      modifies this
      ensures Abs() == S.RevokeItem(old(Abs()), item, sequence, now)
      ensures closed == ClosedByItem(old(Abs()), item, sequence)
    {
      closed := {};
      if item.user <= 0 || !ValidLease(item.lease) {
        return;
      }
      var key := item.At();
      var seen := item.lease in revoked;
      var hit := key in sources && sources[key].lease == item.lease;
      if sequence != 0 && ((seen && sequence <= revoked[item.lease].sequence)
                           || (hit && sequence < sources[key].confirmedSequence)) {
        return;
      }
      var previous := if seen then revoked[item.lease].sequence else 0;
      counter := counter + 1;
      revoked := revoked[item.lease := RevokedLease(now + LEASE_GRACE + MINUTE, counter, Max(sequence, previous))];
      if !hit {
        Retire(item);
        return;
      }
      closed := sources[key].permits;
      MarkRevoked(key);
    }

    method Revoke(items: seq<Revocation>, sequence: nat, now: int) returns (closed: set<nat>)
      modifies this
      ensures Abs() == S.Revoke(old(Abs()), items, sequence, now)
      ensures closed == ClosedByItems(S.Prune(old(Abs()), now), items, sequence, now)
    {
      Prune(now);
      closed := {};
      ghost var pruned := Abs();
      for i := 0 to |items|
        invariant Abs() == RevokeItems(pruned, items[..i], sequence, now)
        invariant closed == ClosedByItems(pruned, items[..i], sequence, now)
      {
        assert items[..i + 1][..i] == items[..i];
        var more := RevokeItem(items[i], sequence, now);
        closed := closed + more;
      }
      assert items[..|items|] == items;
    }

    method ApplyRevocations(items: seq<Revocation>, sequence: nat, run: string, now: int) returns (closed: set<nat>)
      modifies this
      ensures Abs() == S.ApplyRevocations(old(Abs()), items, sequence, run, now)
      ensures closed == if run != "" && old(session).run != run then {}
                        else ClosedByItems(S.Prune(old(Abs()), now), items, sequence, now)
    {
      if run != "" && session.run != run {
        return {};
      }
      closed := Revoke(items, sequence, now);
    }

    /** The checks before the current source is looked at. */
    method Admits(item: Lease, sequence: nat) returns (ok: bool)
      ensures ok == Admissible(Abs(), item, sequence)
    {
      if session.closing || !session.ready || (session.users.Some? && item.user !in session.users.value) {
        return false;
      }
      if sequence <= (if item.user in session.barriers then session.barriers[item.user] else 0) {
        return false;
      }
      if item.lease in revoked && (sequence <= revoked[item.lease].barrier || item.confirmedSequence < sequence) {
        return false;
      }
      return true;
    }

    /** Writes the confirmation into the source of the lease, creating it when there is none. */
    method Confirm(item: Lease, deadline: int, sequence: nat)
      modifies this
      ensures item.At() in old(sources) ==>
                Abs() == Put(old(Abs()), item, Confirmed(old(sources)[item.At()], item, deadline, sequence))
      ensures item.At() !in old(sources) ==>
                Abs() == Put(old(Abs()), item,
                             Confirmed(Fresh(old(Abs()), item), item, deadline, sequence)).(nextId := old(nextId) + 1)
    {
      var key := item.At();
      var source;
      if key in sources {
        source := sources[key];
      } else {
        source := Source(nextId, session.run, 0, item.lease, 0, 0, false, {}, 0, 0, 0, 0, 0);
        nextId := nextId + 1;
      }
      sources := sources[key := Confirmed(source, item, deadline, sequence)];
      retired := retired - {item.lease};
    }

    method Install(item: Lease, deadline: int, sequence: nat, now: int) returns (installed: bool)
      modifies this
      ensures Abs() == S.Install(old(Abs()), item, deadline, sequence)
      ensures installed == Installed(old(Abs()), item, sequence, now)
    {
      var admits := Admits(item, sequence);
      if !admits {
        return false;
      }
      var key := item.At();
      if key in sources {
        var source := sources[key];
        if source.confirmedSequence > sequence || source.revoked {
          return false;
        }
        if source.lease != item.lease {
          if source.permits != {} {
            return false;
          }
          assert Classify(Abs(), item, sequence) == Replaced;
          RemoveSource(key);
        } else if item.confirmedAt <= source.confirmedAt {
          assert Classify(Abs(), item, sequence) == Refreshed;
          sources := sources[key := source.(confirmedSequence := sequence,
                                            leaseSequence := Max(source.leaseSequence, item.confirmedSequence),
                                            omissionSequence := Max(source.omissionSequence, sequence))];
          return now < source.deadline;
        }
      }
      Confirm(item, deadline, sequence);
      return true;
    }

    /** The grant of an allowed admission: it outranks every snapshot sampled so far. */
    method Grant(item: Lease, deadline: int, sequence: nat, run: string, now: int) returns (installed: bool)
      modifies this
      ensures Abs() == S.Grant(old(Abs()), item, deadline, sequence, run, now)
      ensures installed <==> old(session).run == run && Installed(old(Abs()), item, sequence, now)
    {
      if session.run != run {
        return false;
      }
      installed := Install(item, deadline, sequence, now);
      if installed {
        counter := counter + 1;
        sources := sources[item.At() := sources[item.At()].(omissionSequence := counter)];
      }
    }

    /** The sources the reply leaves out, collected in whatever order the table is walked. */
    method CollectOmitted(leases: seq<Lease>, sequence: nat) returns (omitted: seq<Revocation>, ghost order: seq<Key>)
      ensures Enumerates(order, sources.Keys) && forall key :: key in order ==> key in sources
      ensures omitted == Omitted(Abs(), leases, sequence, order)
    {
      omitted, order := [], [];
      var present := Present(leases);
      var todo := sources.Keys;
      while todo != {}
        invariant todo <= sources.Keys && Enumerates(order, sources.Keys - todo)
        invariant forall key :: key in order ==> key in sources
        invariant omitted == Omitted(Abs(), leases, sequence, order)
      {
        var key :| key in todo;
        EnumeratesNext(order, sources.Keys - todo, key);
        assert sources.Keys - (todo - {key}) == sources.Keys - todo + {key};
        if sources[key].omissionSequence <= sequence && sources[key].lease !in present {
          omitted := omitted + [Revocation("", 0, key.user, key.ip, sources[key].lease)];
        }
        assert (order + [key])[..|order|] == order;
        order := order + [key];
        todo := todo - {key};
      }
    }

    method InstallAll(leases: seq<Lease>, deadlines: seq<int>, sequence: nat, now: int)
      requires |leases| == |deadlines|
      modifies this
      ensures Abs() == S.InstallAll(old(Abs()), leases, deadlines, sequence)
    {
      for i := 0 to |leases|
        invariant Abs() == S.InstallAll(old(Abs()), leases[..i], deadlines[..i], sequence)
      {
        assert leases[..i + 1][..i] == leases[..i] && deadlines[..i + 1][..i] == deadlines[..i];
        var _ := Install(leases[i], deadlines[i], sequence, now);
      }
      assert leases[..|leases|] == leases && deadlines[..|leases|] == deadlines;
    }

    method CollectIdle(items: seq<Revocation>, leases: seq<Lease>, sequence: nat) returns (idle: seq<Revocation>)
      ensures idle == IdleReturns(Abs(), items, leases, sequence)
    {
      idle := [];
      var present := Present(leases);
      for i := 0 to |items|
        invariant idle == IdleReturns(Abs(), items[..i], leases, sequence)
      {
        assert items[..i + 1][..i] == items[..i];
        var item := items[i];
        var key := item.At();
        if item.lease !in present || present[item.lease].user != item.user || present[item.lease].ip != item.ip
           || key in flights {
          continue;
        }
        if key !in sources {
          idle := idle + [item.(run := session.run, confirmedSequence := present[item.lease].confirmedSequence)];
        } else if sources[key].lease == item.lease && sources[key].permits == {} &&
                  sources[key].confirmedSequence <= sequence && sources[key].omissionSequence <= sequence {
          idle := idle + [item];
        }
      }
      assert items[..|items|] == items;
    }

    /** The locked part of accepting a synchronised reply. */
    method Accept(reply: SyncReply, deadlines: seq<int>, sequence: nat, now: int)
      returns (accepted: bool, closed: set<nat>, ghost order: seq<Key>)
      requires |deadlines| == |reply.leases|
      modifies this
      ensures accepted == (old(session).run == reply.run)
      ensures !accepted ==> Abs() == old(Abs()) && closed == {}
      ensures accepted ==> Enumerates(order, old(sources).Keys)
                           && (forall key :: key in order ==> key in old(sources)) &&
                           Abs() == S.Accept(old(Abs()), reply, deadlines, sequence, order, now) &&
                           closed == ClosedOnAccept(old(Abs()), reply, deadlines, sequence, order, now)
    {
      if session.run != reply.run {
        return false, {}, [];
      }
      var omitted;
      omitted, order := CollectOmitted(reply.leases, sequence);
      InstallAll(reply.leases, deadlines, sequence, now);
      closed := Revoke(omitted, sequence, now);
      var idle := CollectIdle(reply.idle, reply.leases, sequence);
      var more := Revoke(idle, sequence, now);
      return true, closed + more, order;
    }

    method IssuePermit(key: Key, now: int) returns (permit: nat)
      requires key in sources
      modifies this
      ensures Abs() == S.IssuePermit(old(Abs()), key, now)
      ensures permit == old(nextId)
    {
      counter := counter + 1;
      var source := sources[key];
      permit := nextId;
      nextId := nextId + 1;
      permits := permits[permit := Permit(key, source.id)];
      sources := sources[key := source.(sequence := counter, connected := now, permits := source.permits + {permit})];
    }

    /** `stopped` says whether the coordinator's own context has ended. */
    method Acquire(key: Key, waiter: nat, stopped: bool, now: int) returns (outcome: AcquireCase, permit: nat)
      modifies this
      ensures outcome == AcquireOutcome(old(Abs()), key, stopped, now)
      ensures Abs() == S.Acquire(old(Abs()), key, waiter, stopped, now)
      ensures outcome == Reuse ==> permit == old(nextId) && permit in permits && permits[permit].key == key
    {
      permit := 0;
      if !session.ready || session.closing || stopped {
        return NotReady, 0;
      }
      if session.users.Some? && key.user !in session.users.value {
        return NotPermitted, 0;
      }
      if key in sources && !sources[key].revoked && now < sources[key].deadline {
        permit := IssuePermit(key, now);
        return Reuse, permit;
      }
      if key !in flights {
        counter := counter + 1;
        flights := flights[key := Flight(counter, session.run, {}, false)];
        assert {} + {waiter} == {waiter};
      }
      flights := flights[key := flights[key].(waiters := flights[key].waiters + {waiter})];
      assert flights == S.Acquire(old(Abs()), key, waiter, stopped, now).flights;
      return Wait, 0;
    }

    method LeaveFlight(key: Key, flight: nat, waiter: nat)
      modifies this
      ensures Abs() == S.LeaveFlight(old(Abs()), key, flight, waiter)
    {
      if key in flights && flights[key].sequence == flight {
        var current := flights[key].(waiters := flights[key].waiters - {waiter});
        if current.waiters == {} {
          current := current.(abandoned := true);
        }
        flights := flights[key := current];
      }
    }

    /**
     `lease` is `None` when the admission failed; `gone` are the waiters whose own context has ended. Every other waiter
     of the admission gets a permit of its own, in whatever order they are walked.
     */
    method FinishAdmission(key: Key, lease: Option<string>, gone: set<nat>, stopped: bool, now: int)
      returns (granted: map<nat, nat>, ghost live: seq<nat>)
      requires key in flights
      modifies this
      ensures Different(live) && Elements(live) == old(flights)[key].waiters - gone
      ensures Abs() == S.FinishAdmission(old(Abs()), key, lease, live, stopped, now)
      ensures if lease.Some? && AdmissionStands(old(Abs()), key, lease.value, stopped, now)
              then Grants(granted, live, old(nextId)) else granted == map[]
    {
      granted, live := map[], [];
      if lease.Some? && AdmissionStands(Abs(), key, lease.value, stopped, now) {
        granted, live := GrantEach(key, flights[key].waiters - gone, now);
      } else {
        live := Listing(flights[key].waiters - gone);
      }
      flights := flights - {key};
    }

    /** One more waiter gets its permit; `was` is the state before the first of them. */
    method GrantNext(key: Key, granted: map<nat, nat>, waiter: nat, ghost was: State, ghost live: seq<nat>, now: int)
      returns (more: map<nat, nat>)
      requires key in was.sources && Abs() == IssueEach(was, key, live, now) && nextId == was.nextId + |live|
      requires Grants(granted, live, was.nextId) && Different(live) && waiter !in Elements(live)
      modifies this
      ensures Abs() == IssueEach(was, key, live + [waiter], now) && nextId == was.nextId + |live| + 1
      ensures Grants(more, live + [waiter], was.nextId) && Different(live + [waiter])
      ensures Elements(live + [waiter]) == Elements(live) + {waiter}
    {
      assert (live + [waiter])[..|live|] == live;
      var permit := IssuePermit(key, now);
      GrantsNext(granted, live, was.nextId, waiter);
      more := granted[waiter := permit];
    }

    method GrantEach(key: Key, waiters: set<nat>, now: int) returns (granted: map<nat, nat>, ghost live: seq<nat>)
      requires key in sources
      modifies this
      ensures Different(live) && Elements(live) == waiters
      ensures Abs() == IssueEach(old(Abs()), key, live, now) && Grants(granted, live, old(nextId))
    {
      granted, live := map[], [];
      var todo := waiters;
      ghost var was := Abs();
      while todo != {}
        invariant todo <= waiters && Elements(live) == waiters - todo && Different(live)
        invariant nextId == was.nextId + |live|
        invariant Abs() == IssueEach(was, key, live, now) && Grants(granted, live, was.nextId)
      {
        var waiter := Pick(todo);
        granted := GrantNext(key, granted, waiter, was, live, now);
        live := live + [waiter];
        todo := todo - {waiter};
      }
    }

    method Release(permit: nat, now: int)
      modifies this
      ensures Abs() == S.Release(old(Abs()), permit, now)
    {
      if permit !in permits {
        return;
      }
      var key, id := permits[permit].key, permits[permit].source;
      permits := permits - {permit};
      if key in sources && sources[key].id == id {
        sources := sources[key := sources[key].(permits := sources[key].permits - {permit})];
        if sources[key].permits == {} && (sources[key].revoked || session.closing || sources[key].deadline <= now) {
          RemoveSource(key);
        }
      }
    }

    /** `closing` says that the permit itself has been told to close. */
    method NewConnection(permit: nat, closing: bool, now: int) returns (ok: bool)
      modifies this
      ensures Abs() == S.NewConnection(old(Abs()), permit, closing, now)
      ensures ok == S.Connects(old(Abs()), permit, closing, now)
    {
      if closing || permit !in permits {
        return false;
      }
      var key := permits[permit].key;
      if key !in sources || sources[key].id != permits[permit].source || sources[key].revoked
         || sources[key].deadline <= now {
        return false;
      }
      counter := counter + 1;
      sources := sources[key := sources[key].(sequence := counter, connected := now)];
      return true;
    }

    /** The timer of a source; its connections are closed, and one without any leaves. */
    method Expire(key: Key, id: nat, deadline: int, now: int) returns (closed: set<nat>)
      modifies this
      ensures Abs() == S.Expire(old(Abs()), key, id, deadline, now)
      ensures closed == if RunsOut(old(Abs()), key, id, deadline, now) then old(sources)[key].permits else {}
    {
      closed := {};
      if key in sources && sources[key].id == id && sources[key].deadline == deadline && deadline <= now {
        closed := sources[key].permits;
        if closed == {} {
          RemoveSource(key);
        }
      }
    }

    method CloseAll() returns (closed: set<nat>, ghost order: seq<Key>)
      modifies this
      ensures Enumerates(order, old(sources).Keys) && forall key :: key in order ==> key in old(sources)
      ensures Abs() == S.CloseAll(old(Abs()), order)
      ensures closed == Connections(old(sources), old(sources).Keys)
    {
      closed, order := {}, [];
      var todo := sources.Keys;
      ghost var was := sources;
      while todo != {}
        invariant todo <= was.Keys && Enumerates(order, was.Keys - todo)
        invariant forall key :: key in order ==> key in was
        invariant Abs() == S.CloseAll(old(Abs()), order)
        invariant closed == Connections(was, was.Keys - todo)
      {
        var key := Pick(todo);
        EnumeratesNext(order, was.Keys - todo, key);
        assert was.Keys - (todo - {key}) == was.Keys - todo + {key};
        CloseNext(old(Abs()), order, key);
        ConnectionsNext(was, was.Keys - todo, key);
        assert key !in order && sources[key] == was[key];
        closed := closed + sources[key].permits;
        MarkRevoked(key);
        order := order + [key];
        todo := todo - {key};
      }
    }

    /** The sources whose user is not on the list, in whatever order the table is walked. */
    method CollectUnlisted(ids: set<int>) returns (unlisted: seq<Revocation>, users: set<int>, ghost order: seq<Key>)
      ensures Enumerates(order, sources.Keys) && forall key :: key in order ==> key in sources
      ensures unlisted == Unlisted(Abs(), ids, order)
      ensures users == set key | key in sources && key.user !in ids :: key.user
    {
      unlisted, users, order := [], {}, [];
      var todo := sources.Keys;
      while todo != {}
        invariant todo <= sources.Keys && Enumerates(order, sources.Keys - todo)
        invariant forall key :: key in order ==> key in sources
        invariant users == set key | key in sources && key !in todo && key.user !in ids :: key.user
        invariant unlisted == Unlisted(Abs(), ids, order)
      {
        var key :| key in todo;
        EnumeratesNext(order, sources.Keys - todo, key);
        assert sources.Keys - (todo - {key}) == sources.Keys - todo + {key};
        assert (order + [key])[..|order|] == order;
        if key.user !in ids {
          users := users + {key.user};
          unlisted := unlisted + [Revocation("", 0, key.user, key.ip, sources[key].lease)];
        }
        order := order + [key];
        todo := todo - {key};
      }
    }

    method SetUsers(ids: set<int>, now: int) returns (closed: set<nat>, ghost order: seq<Key>)
      modifies this
      ensures Enumerates(order, old(sources).Keys) && forall key :: key in order ==> key in old(sources)
      ensures Abs() == S.SetUsers(old(Abs()), ids, order, now)
      ensures closed == ClosedOnRemoval(old(Abs()), ids, order, now)
    {
      var removed := if session.users.Some? then session.users.value - ids else {};
      removed := removed + set key | key in flights && key.user !in ids :: key.user;
      var unlisted, users;
      unlisted, users, order := CollectUnlisted(ids);
      removed := removed + users;
      assert removed == RemovedUsers(Abs(), ids);
      RaiseBarriers(ids, removed);
      closed := Revoke(unlisted, 0, now);
    }

    method RaiseBarriers(ids: set<int>, removed: set<int>)
      modifies this
      ensures Abs() == Raised(old(Abs()), ids, removed)
    {
      session := session.(users := Some(ids));
      if removed != {} {
        counter := counter + 1;
        session := session.(barriers := session.barriers + map id | id in removed :: counter);
      }
    }

    method TakeSnapshot(now: int) returns (snapshot: Snapshot)
      modifies this
      ensures snapshot == S.TakeSnapshot(old(Abs()), now)
      ensures Abs() == AfterSnapshot(old(Abs()))
    {
      counter := counter + 1;
      snapshot := Snapshot(session.run, counter, set key | key in flights ::
                             flights[key].sequence, ListedSources(Abs(), now),
                           set lease | lease in retired :: retired[lease].item);
    }

    method ConfirmSnapshot(snapshot: Snapshot, user: int)
      modifies this
      ensures Abs() == S.ConfirmSnapshot(old(Abs()), snapshot, user)
    {
      if !session.ready || session.run != snapshot.run {
        return;
      }
      session := session.(synced := Max(session.synced, snapshot.sequence));
      var todo := retired.Keys;
      ghost var was := retired;
      while todo != {}
        invariant todo <= was.Keys
        invariant retired == map lease | lease in was
                  && (lease in todo || !Settles(snapshot.sequence, user, was[lease])) :: was[lease]
        invariant Abs() == old(Abs()).(retired := retired, session := session)
        invariant session == old(session).(synced := Max(old(session).synced, snapshot.sequence))
      {
        var lease :| lease in todo;
        todo := todo - {lease};
        if retired[lease].sequence <= snapshot.sequence && (user == 0 || retired[lease].item.user == user) {
          retired := retired - {lease};
        }
      }
    }

    method LoseSession(run: string) returns (lost: bool)
      modifies this
      ensures Abs() == S.LoseSession(old(Abs()), run)
      ensures lost == (old(session).run == run)
    {
      lost := session.run == run;
      if lost {
        session := session.(ready := false, run := "", synced := 0);
      }
    }

    /** `drawn` stands for the random name a new session takes. */
    method Begin(drawn: string) returns (allowed: bool)
      modifies this
      ensures allowed == CanBegin(old(Abs()))
      ensures Abs() == S.Begin(old(Abs()), drawn)
    {
      if session.closing || sources != map[] || flights != map[] {
        return false;
      }
      if session.run == "" {
        session := session.(run := drawn, barriers := map[]);
      }
      return true;
    }

    method BeginDone()
      modifies this
      ensures Abs() == S.BeginDone(old(Abs()))
    {
      session := session.(ready := !session.closing);
    }

    method Stop()
      modifies this
      ensures Abs() == S.Stop(old(Abs()))
    {
      session := session.(closing := true, ready := false);
    }
  }
}
