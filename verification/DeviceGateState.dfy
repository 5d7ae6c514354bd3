/**
 The device-lease coordinator's memory and what each of its critical sections does to it.

 Every function here is one section that the coordinator runs under its state lock, in lease-cache mode.
 A pointer to a source or to a permit is an identity drawn from `nextId`; a record that is no longer in
 `sources` is out of reach.  Times are milliseconds of one monotone local clock; the panel's own times
 (`confirmedAt`, `expiresAt`, `serverTime`) are only ever compared with each other.
 */
module DeviceGateState {
  import opened Common

  const LEASE_GRACE: int := 3_600_000
  const MINUTE: int := 60_000

  datatype Key = Key(user: int, ip: string)

  datatype Revocation = Revocation(run: string, confirmedSequence: nat, user: int, ip: string, lease: string) {
    function At(): Key { Key(user, ip) }
  }

  /** A lease as the panel states it.  `canonicalIp` says whether `ip` is a public address in normal form. */
  datatype Lease = Lease(user: int, ip: string, canonicalIp: bool, lease: string, confirmedAt: int, expiresAt: int,
                         confirmedSequence: nat) {
    function At(): Key { Key(user, ip) }
  }

  datatype Source = Source(id: nat, run: string, leaseSequence: nat, lease: string, connected: int, sequence: nat,
                           revoked: bool, permits: set<nat>, confirmedAt: int, expiresAt: int,
                           confirmedSequence: nat, omissionSequence: nat, deadline: int)

  datatype Permit = Permit(key: Key, source: nat)

  datatype Flight = Flight(sequence: nat, run: string, waiters: set<nat>, abandoned: bool)

  datatype RevokedLease = RevokedLease(until: int, barrier: nat, sequence: nat)

  datatype Retired = Retired(item: Revocation, sequence: nat)

  datatype Listed = Listed(user: int, ip: string, lease: string, connectSequence: nat, ageMs: int)

  /** The lists the wire format sorts by unique lease or number are sets here. */
  datatype Snapshot = Snapshot(run: string, sequence: nat, pending: set<nat>, sources: set<Listed>,
                               retired: set<Revocation>)

  datatype SyncReply = SyncReply(run: string, sequence: nat, serverTime: int, leases: seq<Lease>,
                                 revoked: seq<Revocation>, idle: seq<Revocation>)

  /** `users` is `None` until the panel sends a user list; `barriers` are the permission barriers of this run. */
  datatype Session = Session(run: string, ready: bool, closing: bool, users: Option<set<int>>,
                             barriers: map<int, nat>, synced: nat)

  /** `permits` holds the permits not released yet. */
  datatype State = State(session: Session, counter: nat, sources: map<Key, Source>, flights: map<Key, Flight>,
                         revoked: map<string, RevokedLease>, retired: map<string, Retired>,
                         permits: map<nat, Permit>, nextId: nat)

  const Initial: State := State(Session("", false, false, None, map[], 0), 0, map[], map[], map[], map[], map[], 0)

  // ---------------------------------------------------------------- leases

  predicate HexDigit(c: char) {
    '0' <= c <= '9' || 'a' <= c <= 'f' || 'A' <= c <= 'F'
  }

  predicate ValidLease(text: string) {
    |text| == 32 && forall i :: 0 <= i < 32 ==> HexDigit(text[i])
  }

  datatype LeaseError = Malformed | Expired

  /** The fields are complete and the times in order. */
  predicate WellFormed(item: Lease, serverTime: int) {
    && item.user > 0 && item.canonicalIp && ValidLease(item.lease)
    && 0 < item.confirmedAt <= serverTime && item.confirmedAt < item.expiresAt <= item.confirmedAt + LEASE_GRACE
  }

  /**
   The local deadline of a granted lease: what the panel leaves of it, counted from the moment the request was started.
   It is malformed, or already over, or lies ahead.
   */
  function LeaseDeadline(item: Lease, serverTime: int, started: int, now: int): (r: Result<int, LeaseError>)
    ensures r == Err(Malformed) <==> !WellFormed(item, serverTime)
    ensures r == Err(Expired) <==>
              WellFormed(item, serverTime)
              && (item.expiresAt <= serverTime || started + (item.expiresAt - serverTime) <= now)
    ensures r.Ok? ==>
              && item.user > 0 && ValidLease(item.lease)
              && now < r.value <= started + LEASE_GRACE
  {
    if item.user <= 0 || !item.canonicalIp || !ValidLease(item.lease) || item.confirmedAt <= 0
       || serverTime < item.confirmedAt || item.expiresAt <= item.confirmedAt
       || item.expiresAt - item.confirmedAt > LEASE_GRACE then
      Err(Malformed)
    else
      var remaining := item.expiresAt - serverTime;
      if remaining <= 0 then Err(Expired)
      else if now < started + remaining then Ok(started + remaining)
      else Err(Expired)
  }

  // ---------------------------------------------------------------- retirement

  function Retire(s: State, item: Revocation): State {
    var kept :=
      if item.run != "" then item
      else if item.lease in s.retired then s.retired[item.lease].item
      else item.(run := s.session.run);
    s.(counter := s.counter + 1, retired := s.retired[kept.lease := Retired(kept, s.counter + 1)])
  }

  function RetirementOf(key: Key, source: Source): Revocation {
    Revocation(source.run, source.leaseSequence, key.user, key.ip, source.lease)
  }

  function RemoveSource(s: State, key: Key): State
    requires key in s.sources
  {
    Retire(s.(sources := s.sources - {key}), RetirementOf(key, s.sources[key]))
  }

  // ---------------------------------------------------------------- revocation

  function Prune(s: State, now: int): State {
    s.(revoked := map lease | lease in s.revoked && now <= s.revoked[lease].until :: s.revoked[lease])
  }

  /** Whether a revocation is stale: already processed, or older than the lease it would revoke. */
  predicate Skips(s: State, item: Revocation, sequence: nat) {
    || item.user <= 0
    || !ValidLease(item.lease)
    || (sequence != 0 &&
        (|| (item.lease in s.revoked && sequence <= s.revoked[item.lease].sequence)
         || (item.At() in s.sources && s.sources[item.At()].lease == item.lease &&
             sequence < s.sources[item.At()].confirmedSequence)))
  }

  function RecordRevocation(s: State, item: Revocation, sequence: nat, now: int): State {
    var previous := if item.lease in s.revoked then s.revoked[item.lease].sequence else 0;
    s.(counter := s.counter + 1,
       revoked := s.revoked[item.lease :=
                              RevokedLease(now + LEASE_GRACE + MINUTE, s.counter + 1, Max(sequence, previous))])
  }

  /** Marks the source at `key` revoked; one without connections leaves at once. */
  function MarkRevoked(s: State, key: Key): State
    requires key in s.sources
  {
    var marked := s.(sources := s.sources[key := s.sources[key].(revoked := true)]);
    if s.sources[key].permits == {} then RemoveSource(marked, key) else marked
  }

  function RevokeItem(s: State, item: Revocation, sequence: nat, now: int): State {
    if Skips(s, item, sequence) then s else
      var recorded := RecordRevocation(s, item, sequence, now);
      if item.At() in s.sources && s.sources[item.At()].lease == item.lease then MarkRevoked(recorded, item.At())
      else Retire(recorded, item)
  }

  /** The permits a revocation asks to close. */
  function ClosedByItem(s: State, item: Revocation, sequence: nat): set<nat> {
    if !Skips(s, item, sequence) && item.At() in s.sources && s.sources[item.At()].lease == item.lease
    then s.sources[item.At()].permits
    else {}
  }

  function RevokeItems(s: State, items: seq<Revocation>, sequence: nat, now: int): State {
    if items == [] then s
    else RevokeItem(RevokeItems(s, items[..|items| - 1], sequence, now), items[|items| - 1], sequence, now)
  }

  function ClosedByItems(s: State, items: seq<Revocation>, sequence: nat, now: int): set<nat> {
    if items == [] then {}
    else
      ClosedByItems(s, items[..|items| - 1], sequence, now) +
      ClosedByItem(RevokeItems(s, items[..|items| - 1], sequence, now), items[|items| - 1], sequence)
  }

  function Revoke(s: State, items: seq<Revocation>, sequence: nat, now: int): State {
    RevokeItems(Prune(s, now), items, sequence, now)
  }

  function ApplyRevocations(s: State, items: seq<Revocation>, sequence: nat, run: string, now: int): State {
    if run != "" && s.session.run != run then s else Revoke(s, items, sequence, now)
  }

  // ---------------------------------------------------------------- installing leases

  /** Whether a reply of this sequence may still install the lease, before the current source is looked at. */
  predicate Admissible(s: State, item: Lease, sequence: nat) {
    && !s.session.closing && s.session.ready
    && (s.session.users.None? || item.user in s.session.users.value)
    && (item.user in s.session.barriers ==> s.session.barriers[item.user] < sequence)
    && 0 < sequence
    && (item.lease in s.revoked ==> s.revoked[item.lease].barrier < sequence <= item.confirmedSequence)
  }

  datatype InstallCase = Refused | Refreshed | Renewed | Replaced | Created

  function Classify(s: State, item: Lease, sequence: nat): InstallCase {
    if !Admissible(s, item, sequence) then Refused
    else if item.At() !in s.sources then Created
    else
      var source := s.sources[item.At()];
      if source.confirmedSequence > sequence || source.revoked then Refused
      else if source.lease != item.lease then (if source.permits != {} then Refused else Replaced)
      else if item.confirmedAt <= source.confirmedAt then Refreshed
      else Renewed
  }

  function Confirmed(source: Source, item: Lease, deadline: int, sequence: nat): Source {
    source.(confirmedAt := item.confirmedAt, expiresAt := item.expiresAt, confirmedSequence := sequence,
            leaseSequence := item.confirmedSequence, omissionSequence := sequence, deadline := deadline)
  }

  function Fresh(s: State, item: Lease): Source {
    Source(s.nextId, s.session.run, 0, item.lease, 0, 0, false, {}, 0, 0, 0, 0, 0)
  }

  function Put(s: State, item: Lease, source: Source): State {
    s.(sources := s.sources[item.At() := source], retired := s.retired - {item.lease})
  }

  function Install(s: State, item: Lease, deadline: int, sequence: nat): State {
    match Classify(s, item, sequence)
    case Refused => s
    case Refreshed =>
      var source := s.sources[item.At()];
      s.(sources := s.sources[item.At() :=
                                source.(confirmedSequence := sequence,
                                        leaseSequence := Max(source.leaseSequence, item.confirmedSequence),
                                        omissionSequence := Max(source.omissionSequence, sequence))])
    case Renewed => Put(s, item, Confirmed(s.sources[item.At()], item, deadline, sequence))
    case Replaced =>
      var removed := RemoveSource(s, item.At());
      Put(removed, item, Confirmed(Fresh(removed, item), item, deadline, sequence)).(nextId := s.nextId + 1)
    case Created => Put(s, item, Confirmed(Fresh(s, item), item, deadline, sequence)).(nextId := s.nextId + 1)
  }

  /** What `installLeaseLocked` answers: a repeated confirmation counts only while its deadline is ahead. */
  predicate Installed(s: State, item: Lease, sequence: nat, now: int) {
    match Classify(s, item, sequence)
    case Refused => false
    case Refreshed => now < s.sources[item.At()].deadline
    case _ => true
  }

  function InstallAll(s: State, items: seq<Lease>, deadlines: seq<int>, sequence: nat): State
    requires |items| == |deadlines|
  {
    if items == [] then s else
      var n := |items| - 1;
      Install(InstallAll(s, items[..n], deadlines[..n], sequence), items[n], deadlines[n], sequence)
  }

  /** The last section of an allowed admission: the grant outranks every snapshot sampled so far. */
  function Grant(s: State, item: Lease, deadline: int, sequence: nat, run: string, now: int): State {
    if s.session.run == run && Installed(s, item, sequence, now) then
      var t := Install(s, item, deadline, sequence);
      t.(counter := t.counter + 1,
         sources := t.sources[item.At() := t.sources[item.At()].(omissionSequence := t.counter + 1)])
    else if s.session.run == run then Install(s, item, deadline, sequence)
    else s
  }

  // ---------------------------------------------------------------- accepting a synchronised reply

  /** The last lease the reply states under each name. */
  function Present(items: seq<Lease>): (m: map<string, Lease>)
    ensures forall lease :: lease in m <==> exists i :: 0 <= i < |items| && items[i].lease == lease
    ensures forall lease :: lease in m ==> m[lease] in items && m[lease].lease == lease
  {
    if items == [] then map[]
    else
      var last := items[|items| - 1];
      var m := Present(items[..|items| - 1])[last.lease := last];
      assert forall i :: 0 <= i < |items| - 1 ==> items[..|items| - 1][i] == items[i];
      m
  }

  predicate IsOmitted(s: State, key: Key, leases: seq<Lease>, sequence: nat)
    requires key in s.sources
  {
    s.sources[key].omissionSequence <= sequence && s.sources[key].lease !in Present(leases)
  }

  /** The sources a reply leaves out, in the order the source table happens to be walked. */
  function Omitted(s: State, leases: seq<Lease>, sequence: nat, order: seq<Key>): seq<Revocation>
    requires forall key :: key in order ==> key in s.sources
  {
    if order == [] then [] else
      var key := order[|order| - 1];
      var before := Omitted(s, leases, sequence, order[..|order| - 1]);
      if IsOmitted(s, key, leases, sequence)
      then before + [Revocation("", 0, key.user, key.ip, s.sources[key].lease)]
      else before
  }

  /** The idle returns the reply asks for that nothing has overtaken. */
  function IdleReturn(s: State, item: Revocation, leases: seq<Lease>, sequence: nat): Option<Revocation> {
    var present := Present(leases);
    if item.lease !in present || present[item.lease].At() != item.At() || item.At() in s.flights then None
    else if item.At() !in s.sources then
      Some(item.(run := s.session.run, confirmedSequence := present[item.lease].confirmedSequence))
    else
      var source := s.sources[item.At()];
      if source.lease == item.lease && source.permits == {} && source.confirmedSequence <= sequence &&
         source.omissionSequence <= sequence then Some(item) else None
  }

  function IdleReturns(s: State, items: seq<Revocation>, leases: seq<Lease>, sequence: nat): seq<Revocation> {
    if items == [] then [] else
      var before := IdleReturns(s, items[..|items| - 1], leases, sequence);
      match IdleReturn(s, items[|items| - 1], leases, sequence)
      case None => before
      case Some(item) => before + [item]
  }

  predicate Different<T(==)>(order: seq<T>) {
    forall i, j :: 0 <= i < j < |order| ==> order[i] != order[j]
  }

  predicate Enumerates(order: seq<Key>, keys: set<Key>) {
    Elements(order) == keys && Different(order)
  }

  /** The state once the reply's leases are installed and the sources it leaves out are revoked. */
  function AcceptListed(s: State, reply: SyncReply, deadlines: seq<int>, sequence: nat, order: seq<Key>,
                        now: int): State
    requires |deadlines| == |reply.leases| && forall key :: key in order ==> key in s.sources
  {
    Revoke(InstallAll(s, reply.leases, deadlines, sequence), Omitted(s, reply.leases, sequence, order), sequence, now)
  }

  function Accept(s: State, reply: SyncReply, deadlines: seq<int>, sequence: nat, order: seq<Key>, now: int): State
    requires |deadlines| == |reply.leases| && forall key :: key in order ==> key in s.sources
  {
    var listed := AcceptListed(s, reply, deadlines, sequence, order, now);
    Revoke(listed, IdleReturns(listed, reply.idle, reply.leases, sequence), sequence, now)
  }

  /** The connections the reply closes, for a lease left out or an idle return that is no longer idle. */
  function ClosedOnAccept(s: State, reply: SyncReply, deadlines: seq<int>, sequence: nat, order: seq<Key>,
                          now: int): set<nat>
    requires |deadlines| == |reply.leases| && forall key :: key in order ==> key in s.sources
  {
    var installed := InstallAll(s, reply.leases, deadlines, sequence);
    var listed := AcceptListed(s, reply, deadlines, sequence, order, now);
    ClosedByItems(Prune(installed, now), Omitted(s, reply.leases, sequence, order), sequence, now) +
    ClosedByItems(Prune(listed, now), IdleReturns(listed, reply.idle, reply.leases, sequence), sequence, now)
  }

  // ---------------------------------------------------------------- permits and admissions

  function IssuePermit(s: State, key: Key, now: int): State
    requires key in s.sources
  {
    var source := s.sources[key];
    s.(counter := s.counter + 1, nextId := s.nextId + 1,
       permits := s.permits[s.nextId := Permit(key, source.id)],
       sources := s.sources[key := source.(sequence := s.counter + 1, connected := now,
                                           permits := source.permits + {s.nextId})])
  }

  predicate Usable(s: State, key: Key, now: int) {
    key in s.sources && !s.sources[key].revoked && now < s.sources[key].deadline
  }

  predicate Permitted(s: State, user: int) {
    s.session.users.None? || user in s.session.users.value
  }

  datatype AcquireCase = NotReady | NotPermitted | Reuse | Wait

  function AcquireOutcome(s: State, key: Key, stopped: bool, now: int): AcquireCase {
    if !s.session.ready || s.session.closing || stopped then NotReady
    else if !Permitted(s, key.user) then NotPermitted
    else if Usable(s, key, now) then Reuse
    else Wait
  }

  /** The first section of a connection's request: reuse a lease, or join the source's admission. */
  function Acquire(s: State, key: Key, waiter: nat, stopped: bool, now: int): State {
    match AcquireOutcome(s, key, stopped, now)
    case NotReady => s
    case NotPermitted => s
    case Reuse => IssuePermit(s, key, now)
    case Wait =>
      if key in s.flights then
        s.(flights := s.flights[key := s.flights[key].(waiters := s.flights[key].waiters + {waiter})])
      else
        s.(counter := s.counter + 1, flights := s.flights[key := Flight(s.counter + 1, s.session.run, {waiter}, false)])
  }

  /** A waiter gives up on the flight numbered `flight`; the last one to leave abandons it. */
  function LeaveFlight(s: State, key: Key, flight: nat, waiter: nat): State {
    if key !in s.flights || s.flights[key].sequence != flight then s else
      var left := s.flights[key].waiters - {waiter};
      s.(flights := s.flights[key := s.flights[key].(waiters := left,
                                                     abandoned := s.flights[key].abandoned || left == {})])
  }

  /** Whether an admission that the panel allowed with this lease may still hand out permits. */
  predicate AdmissionStands(s: State, key: Key, lease: string, stopped: bool, now: int) {
    && key in s.flights
    && Permitted(s, key.user)
    && s.session.ready && !s.session.closing && s.session.run == s.flights[key].run && !stopped
    && !s.flights[key].abandoned
    && Usable(s, key, now) && s.sources[key].lease == lease
  }

  function IssueEach(s: State, key: Key, waiters: seq<nat>, now: int): State
    requires key in s.sources
    ensures key in IssueEach(s, key, waiters, now).sources
  {
    if waiters == [] then s else IssuePermit(IssueEach(s, key, waiters[..|waiters| - 1], now), key, now)
  }

  /** The last section of an admission; `live` lists the waiters whose own context still runs. */
  function FinishAdmission(s: State, key: Key, lease: Option<string>, live: seq<nat>, stopped: bool, now: int): State {
    var issued :=
      if lease.Some? && AdmissionStands(s, key, lease.value, stopped, now) then IssueEach(s, key, live, now) else s;
    issued.(flights := issued.flights - {key})
  }

  function Release(s: State, permit: nat, now: int): State {
    if permit !in s.permits then s else
      var key := s.permits[permit].key;
      var dropped := s.(permits := s.permits - {permit});
      if key in s.sources && s.sources[key].id == s.permits[permit].source then
        var source := s.sources[key].(permits := s.sources[key].permits - {permit});
        var detached := dropped.(sources := s.sources[key := source]);
        if source.permits == {} && (source.revoked || s.session.closing || source.deadline <= now)
        then RemoveSource(detached, key)
        else detached
      else dropped
  }

  /** `closing` says that the permit itself has been told to close, which happens outside the lock. */
  predicate Connects(s: State, permit: nat, closing: bool, now: int) {
    !closing && permit in s.permits && Usable(s, s.permits[permit].key, now) &&
    s.sources[s.permits[permit].key].id == s.permits[permit].source
  }

  function NewConnection(s: State, permit: nat, closing: bool, now: int): State {
    if Connects(s, permit, closing, now) then
      var key := s.permits[permit].key;
      s.(counter := s.counter + 1,
         sources := s.sources[key := s.sources[key].(sequence := s.counter + 1, connected := now)])
    else s
  }

  /** An expiry timer firing for the source `id` it was armed for. */
  predicate RunsOut(s: State, key: Key, id: nat, deadline: int, now: int) {
    key in s.sources && s.sources[key].id == id && s.sources[key].deadline == deadline && deadline <= now
  }

  function Expire(s: State, key: Key, id: nat, deadline: int, now: int): State {
    if RunsOut(s, key, id, deadline, now) && s.sources[key].permits == {} then RemoveSource(s, key)
    else s
  }

  // ---------------------------------------------------------------- users, sessions, snapshots

  function RemovedUsers(s: State, ids: set<int>): set<int> {
    (if s.session.users.Some? then s.session.users.value else {}) - ids +
    (set key | key in s.flights && key.user !in ids :: key.user) +
    (set key | key in s.sources && key.user !in ids :: key.user)
  }

  function Unlisted(s: State, ids: set<int>, order: seq<Key>): seq<Revocation>
    requires forall key :: key in order ==> key in s.sources
  {
    if order == [] then [] else
      var key := order[|order| - 1];
      var before := Unlisted(s, ids, order[..|order| - 1]);
      if key.user in ids then before
      else before + [Revocation("", 0, key.user, key.ip, s.sources[key].lease)]
  }

  /** The new user list, with a barrier at the next number for each user it takes away. */
  function Raised(s: State, ids: set<int>, removed: set<int>): State {
    if removed == {} then s.(session := s.session.(users := Some(ids)))
    else
      s.(counter := s.counter + 1,
         session := s.session.(users := Some(ids),
                               barriers := s.session.barriers + map id | id in removed :: s.counter + 1))
  }

  function RaiseBarriers(s: State, ids: set<int>): State {
    Raised(s, ids, RemovedUsers(s, ids))
  }

  function SetUsers(s: State, ids: set<int>, order: seq<Key>, now: int): State
    requires forall key :: key in order ==> key in s.sources
  {
    Revoke(RaiseBarriers(s, ids), Unlisted(s, ids, order), 0, now)
  }

  /** The connections of the users taken away. */
  function ClosedOnRemoval(s: State, ids: set<int>, order: seq<Key>, now: int): set<nat>
    requires forall key :: key in order ==> key in s.sources
  {
    ClosedByItems(Prune(RaiseBarriers(s, ids), now), Unlisted(s, ids, order), 0, now)
  }

  function ListedSources(s: State, now: int): set<Listed> {
    set key | key in s.sources && s.sources[key].permits != {} ::
      Listed(key.user, key.ip, s.sources[key].lease, s.sources[key].sequence, Max(0, now - s.sources[key].connected))
  }

  function TakeSnapshot(s: State, now: int): Snapshot {
    Snapshot(s.session.run, s.counter + 1, set key | key in s.flights :: s.flights[key].sequence, ListedSources(s, now),
             set lease | lease in s.retired :: s.retired[lease].item)
  }

  function AfterSnapshot(s: State): State {
    s.(counter := s.counter + 1)
  }

  /** Whether an acknowledged snapshot (of all users, or of one admission's user) settles a retirement. */
  predicate Settles(sequence: nat, user: int, retired: Retired) {
    retired.sequence <= sequence && (user == 0 || retired.item.user == user)
  }

  function ConfirmSnapshot(s: State, snapshot: Snapshot, user: int): State {
    if !s.session.ready || s.session.run != snapshot.run then s
    else
      s.(session := s.session.(synced := Max(s.session.synced, snapshot.sequence)),
         retired := map lease | lease in s.retired && !Settles(snapshot.sequence, user, s.retired[lease]) ::
           s.retired[lease])
  }

  function LoseSession(s: State, run: string): State {
    if s.session.run != run then s else s.(session := s.session.(ready := false, run := "", synced := 0))
  }

  function CloseAll(s: State, order: seq<Key>): State
    requires forall key :: key in order ==> key in s.sources
    requires forall i, j :: 0 <= i < j < |order| ==> order[i] != order[j]
    ensures forall key :: key in s.sources && key !in order ==>
                            key in CloseAll(s, order).sources && CloseAll(s, order).sources[key] == s.sources[key]
  {
    if order == [] then s
    else MarkRevoked(CloseAll(s, order[..|order| - 1]), order[|order| - 1])
  }

  predicate CanBegin(s: State) {
    !s.session.closing && s.sources == map[] && s.flights == map[]
  }

  /** The first section of a session start; `drawn` is the random name a new session would take. */
  function Begin(s: State, drawn: string): State {
    if CanBegin(s) && s.session.run == "" then s.(session := s.session.(run := drawn, barriers := map[])) else s
  }

  function BeginDone(s: State): State {
    s.(session := s.session.(ready := !s.session.closing))
  }

  function Stop(s: State): State {
    s.(session := s.session.(closing := true, ready := false))
  }
}
