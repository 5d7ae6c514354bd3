/** The access-log recorder: batches of connection records that are sealed before anybody else sees them. */
module AccessLog {
  import opened Common

  const MAX_BATCH: nat := 256
  const MAX_RECORDS: nat := 32768
  const RETENTION: int := 7 * 24 * 3600
  const AHEAD: int := 300

  /** `at` is in seconds; `destination` is empty when no valid host name is known. */
  datatype Record = Record(node: int, user: int, at: int, destination: string, port: nat)

  datatype Batch = Batch(id: string, records: seq<Record>, sealed: bool)

  datatype Memory = Memory(queue: seq<Batch>, pending: Option<Batch>, count: int) {
    /** Everything held, oldest first. */
    function All(): seq<Batch> {
      (if pending.Some? then [pending.value] else []) + queue
    }
  }

  datatype Saved = Saved(pending: Option<Batch>, queue: seq<Batch>) {
    function All(): seq<Batch> {
      (if pending.Some? then [pending.value] else []) + queue
    }
  }

  const Empty: Memory := Memory([], None, 0)

  function Held(batches: seq<Batch>): nat {
    if batches == [] then 0 else Held(batches[..|batches| - 1]) + |batches[|batches| - 1].records|
  }

  lemma {:induction false} HeldConcat(a: seq<Batch>, b: seq<Batch>)
    ensures Held(a + b) == Held(a) + Held(b)
  {
    if b == [] {
      assert a + b == a;
    } else {
      assert (a + b)[..|a + b| - 1] == a + b[..|b| - 1];
      HeldConcat(a, b[..|b| - 1]);
    }
  }

  lemma HeldOne(b: Batch)
    ensures Held([b]) == |b.records|
  {
    assert [b][..0] == [];
  }

  // ---------------------------------------------------------------- adding

  /** The last batch of the queue still takes records. */
  predicate Open(queue: seq<Batch>) {
    queue != [] && !queue[|queue| - 1].sealed && |queue[|queue| - 1].records| < MAX_BATCH
  }

  /** `id` is the number drawn for a new batch, `None` when none could be drawn. */
  predicate Accepts(m: Memory, id: Option<string>) {
    m.count < MAX_RECORDS && (Open(m.queue) || id.Some?)
  }

  function Append(m: Memory, record: Record, id: Option<string>): Memory {
    if !Accepts(m, id) then m
    else if Open(m.queue) then
      var n := |m.queue| - 1;
      m.(queue := m.queue[..n] + [m.queue[n].(records := m.queue[n].records + [record])], count := m.count + 1)
    else m.(queue := m.queue + [Batch(id.value, [record], false)], count := m.count + 1)
  }

  // ---------------------------------------------------------------- sending

  predicate Fresh(batch: Batch, now: int) {
    exists i :: 0 <= i < |batch.records| && batch.records[i].at >= now - RETENTION
  }

  function FreshOnes(queue: seq<Batch>, now: int): seq<Batch> {
    if queue == [] then []
    else if Fresh(queue[0], now) then [queue[0]] + FreshOnes(queue[1..], now) else FreshOnes(queue[1..], now)
  }

  /** The state after `Next`: what it hands out is the new `pending`. */
  function NextOf(m: Memory, now: int): Memory {
    if m.pending.Some? && Fresh(m.pending.value, now) then m
    else
      var left := FreshOnes(m.queue, now);
      if left == [] then Memory([], None, 0)
      else Memory(left[1..], Some(left[0].(sealed := true)), Held(left))
  }

  function AckOf(m: Memory, id: string): Memory {
    if m.pending.Some? && m.pending.value.id == id
    then m.(pending := None, count := m.count - |m.pending.value.records|) else m
  }

  function SealAll(queue: seq<Batch>): (sealed: seq<Batch>)
    ensures |sealed| == |queue| && forall i :: 0 <= i < |queue| ==> sealed[i] == queue[i].(sealed := true)
  {
    seq(|queue|, i requires 0 <= i < |queue| => queue[i].(sealed := true))
  }

  function Sealed(m: Memory): Memory {
    m.(queue := SealAll(m.queue))
  }

  function SavedOf(m: Memory): Saved {
    Saved(m.pending, m.queue)
  }

  // ---------------------------------------------------------------- invariant

  predicate ValidRecord(record: Record) {
    record.node >= 0 && record.user > 0 && record.port > 0 && record.at > 0 && record.destination != ""
  }

  predicate ValidBatch(batch: Batch) {
    0 < |batch.records| <= MAX_BATCH && forall i :: 0 <= i < |batch.records| ==> ValidRecord(batch.records[i])
  }

  predicate Batches(batches: seq<Batch>) {
    && (forall i :: 0 <= i < |batches| ==> ValidBatch(batches[i]))
    && (forall i, j :: 0 <= i < j < |batches| ==> batches[i].id != batches[j].id)
  }

  /** `count` is what is held, within the limit; what may have been handed out is sealed. */
  predicate Inv(m: Memory) {
    && m.count == Held(m.All()) <= MAX_RECORDS && Batches(m.All())
    && (m.pending.Some? ==> m.pending.value.sealed)
  }

  lemma AppendCount(m: Memory, record: Record, id: Option<string>)
    ensures Held(Append(m, record, id).All()) == Held(m.All()) + (if Accepts(m, id) then 1 else 0)
  {
    if Accepts(m, id) {
      HeldConcat(HeadOf(m), m.queue);
      HeldConcat(HeadOf(m), Append(m, record, id).queue);
      if Open(m.queue) {
        var n := |m.queue| - 1;
        HeldGrown(m.queue[..n], m.queue[n], m.queue[n].(records := m.queue[n].records + [record]));
        assert m.queue[..n] + [m.queue[n]] == m.queue;
      } else {
        HeldLast(m.queue, Batch(id.value, [record], false));
      }
    }
  }

  lemma HeldLast(front: seq<Batch>, last: Batch)
    ensures Held(front + [last]) == Held(front) + |last.records|
  {
    assert (front + [last])[..|front|] == front;
  }

  lemma HeldGrown(front: seq<Batch>, last: Batch, grown: Batch)
    requires |grown.records| == |last.records| + 1
    ensures Held(front + [grown]) == Held(front + [last]) + 1
  {
    HeldLast(front, last);
    HeldLast(front, grown);
  }

  /** Sealing aside, the same batches. */
  predicate SameContents(a: seq<Batch>, b: seq<Batch>) {
    |a| == |b| && forall i :: 0 <= i < |a| ==> a[i].id == b[i].id && a[i].records == b[i].records
  }

  lemma {:induction false} SameContentsHeld(a: seq<Batch>, b: seq<Batch>)
    requires SameContents(a, b)
    ensures Held(a) == Held(b)
  {
    if a == [] {
    } else {
      SameContentsHeld(a[..|a| - 1], b[..|b| - 1]);
    }
  }

  lemma SameContentsBatches(a: seq<Batch>, b: seq<Batch>)
    requires SameContents(a, b) && Batches(a)
    ensures Batches(b)
  {
    forall i | 0 <= i < |b| ensures ValidBatch(b[i]) {
      assert ValidBatch(a[i]);
    }
    forall i, j | 0 <= i < j < |b| ensures b[i].id != b[j].id {
      assert a[i].id != a[j].id;
    }
  }

  lemma BatchesAppend(front: seq<Batch>, last: Batch)
    requires Batches(front) && ValidBatch(last) && forall b :: b in front ==> b.id != last.id
    ensures Batches(front + [last])
  {
    assert forall i :: 0 <= i < |front| ==> front[i] in front;
  }

  lemma BatchesSlice(batches: seq<Batch>, from: nat, to: nat)
    requires Batches(batches) && from <= to <= |batches|
    ensures Batches(batches[from..to])
  {
    assert forall i :: 0 <= i < to - from ==> batches[from..to][i] == batches[from + i];
  }

  function HeadOf(m: Memory): seq<Batch> {
    if m.pending.Some? then [m.pending.value] else []
  }

  /** The last batch, changed or new. */
  lemma LastReplaced(m: Memory, record: Record)
    requires Inv(m) && ValidRecord(record) && Open(m.queue)
    ensures Batches(Append(m, record, None).All()) || m.count >= MAX_RECORDS
  {
    if m.count < MAX_RECORDS {
      var all, n := m.All(), |m.All()| - 1;
      var last := all[n].(records := all[n].records + [record]);
      assert all[n] == m.queue[|m.queue| - 1] && ValidBatch(all[n]);
      BatchesSlice(all, 0, n);
      assert forall i :: 0 <= i < n ==> all[..n][i] == all[i];
      BatchesAppend(all[..n], last);
      assert Append(m, record, None).All() == all[..n] + [last];
    }
  }

  lemma LastAdded(m: Memory, record: Record, id: string)
    requires Inv(m) && ValidRecord(record) && !Open(m.queue) && forall b :: b in m.All() ==> b.id != id
    ensures Batches(Append(m, record, Some(id)).All())
  {
    var last := Batch(id, [record], false);
    BatchesAppend(m.All(), last);
    if Accepts(m, Some(id)) {
      assert Append(m, record, Some(id)).All() == m.All() + [last];
    }
  }

  lemma AppendKeeps(m: Memory, record: Record, id: Option<string>)
    requires Inv(m) && ValidRecord(record) && (id.Some? ==> forall b :: b in m.All() ==> b.id != id.value)
    ensures Inv(Append(m, record, id))
  {
    AppendCount(m, record, id);
    if Accepts(m, id) {
      if Open(m.queue) {
        LastReplaced(m, record);
      } else {
        LastAdded(m, record, id.value);
      }
    }
  }

  lemma {:induction false} FreshOnesAre(queue: seq<Batch>, now: int, b: Batch)
    ensures b in FreshOnes(queue, now) <==> b in queue && Fresh(b, now)
  {
    if queue == [] {
    } else {
      FreshOnesAre(queue[1..], now, b);
      assert b in queue <==> b == queue[0] || b in queue[1..];
    }
  }

  lemma {:induction false} FreshOnesKeep(queue: seq<Batch>, now: int)
    requires Batches(queue)
    ensures Batches(FreshOnes(queue, now)) && Held(FreshOnes(queue, now)) <= Held(queue)
  {
    if queue == [] {
    } else {
      FreshOnesKeep(queue[1..], now);
      assert queue == [queue[0]] + queue[1..];
      HeldConcat([queue[0]], queue[1..]);
      HeldConcat([queue[0]], FreshOnes(queue[1..], now));
      var rest := FreshOnes(queue[1..], now);
      forall j | 0 <= j < |rest| ensures rest[j].id != queue[0].id {
        FreshOnesAre(queue[1..], now, rest[j]);
        var k :| 0 <= k < |queue[1..]| && queue[1..][k] == rest[j];
        assert queue[k + 1] == rest[j];
      }
    }
  }

  lemma QueueKeeps(m: Memory)
    requires Inv(m)
    ensures Batches(m.queue) && Held(m.All()) == Held(HeadOf(m)) + Held(m.queue)
  {
    assert m.All() == HeadOf(m) + m.queue;
    HeldConcat(HeadOf(m), m.queue);
    BatchesSlice(m.All(), |HeadOf(m)|, |m.All()|);
    assert m.All()[|HeadOf(m)|..] == m.queue;
  }

  /** Taking the first of the fresh batches as the pending one. */
  lemma PromoteKeeps(left: seq<Batch>)
    requires left != [] && Batches(left) && Held(left) <= MAX_RECORDS
    ensures Inv(Memory(left[1..], Some(left[0].(sealed := true)), Held(left)))
  {
    var t := Memory(left[1..], Some(left[0].(sealed := true)), Held(left));
    assert SameContents(left, t.All());
    SameContentsHeld(left, t.All());
    SameContentsBatches(left, t.All());
  }

  lemma NextKeeps(m: Memory, now: int)
    requires Inv(m)
    ensures Inv(NextOf(m, now))
  {
    if !(m.pending.Some? && Fresh(m.pending.value, now)) {
      var left := FreshOnes(m.queue, now);
      QueueKeeps(m);
      FreshOnesKeep(m.queue, now);
      if left != [] {
        PromoteKeeps(left);
      }
    }
  }

  lemma AckKeeps(m: Memory, id: string)
    requires Inv(m)
    ensures Inv(AckOf(m, id))
  {
    if m.pending.Some? && m.pending.value.id == id {
      QueueKeeps(m);
      HeldOne(m.pending.value);
      assert AckOf(m, id).All() == m.queue;
    }
  }

  lemma SealKeeps(m: Memory)
    requires Inv(m)
    ensures Inv(Sealed(m)) && SameContents(m.All(), Sealed(m).All())
  {
    assert SameContents(m.All(), Sealed(m).All());
    SameContentsHeld(m.All(), Sealed(m).All());
    SameContentsBatches(m.All(), Sealed(m).All());
  }

  // ---------------------------------------------------------------- restoring

  /** A record a later process accepts: complete, and not dated in its future. */
  predicate Restorable(record: Record, now: int) {
    ValidRecord(record) && record.at <= now + AHEAD
  }

  predicate RestorableBatches(saved: Saved, now: int) {
    && Batches(saved.All()) && Held(saved.All()) <= MAX_RECORDS && |saved.All()| <= MAX_RECORDS
    && forall b, r :: b in saved.All() && r in b.records ==> Restorable(r, now)
  }

  function Restored(saved: Saved): Memory {
    Memory(SealAll(saved.queue), if saved.pending.Some? then Some(saved.pending.value.(sealed := true))
                                 else None, Held(saved.All()))
  }

  lemma {:induction false} HeldAtLeast(batches: seq<Batch>)
    requires forall i :: 0 <= i < |batches| ==> |batches[i].records| > 0
    ensures |batches| <= Held(batches)
  {
    if batches == [] {
    } else {
      HeldAtLeast(batches[..|batches| - 1]);
    }
  }

  predicate DatedBefore(batches: seq<Batch>, limit: int) {
    forall i :: 0 <= i < |batches| ==> forall j :: 0 <= j < |batches[i].records| ==> batches[i].records[j].at <= limit
  }

  lemma RestorableWhen(saved: Saved, now: int)
    requires Batches(saved.All()) && Held(saved.All()) <= MAX_RECORDS
    ensures RestorableBatches(saved, now) <==> DatedBefore(saved.All(), now + AHEAD)
  {
    HeldAtLeast(saved.All());
    if DatedBefore(saved.All(), now + AHEAD) {
      forall b, r | b in saved.All() && r in b.records ensures Restorable(r, now) {
        var i :| 0 <= i < |saved.All()| && saved.All()[i] == b;
        assert ValidBatch(saved.All()[i]);
      }
    }
    if RestorableBatches(saved, now) {
      forall i, j | 0 <= i < |saved.All()| && 0 <= j < |saved.All()[i].records|
        ensures saved.All()[i].records[j].at <= now + AHEAD
      {
        var b := saved.All()[i];
        var r := b.records[j];
        assert b in saved.All() && r in b.records;
        assert Restorable(r, now);
      }
    }
  }

  /**
   What is sealed and saved comes back unchanged, exactly when no record is dated further ahead of the new process's
   clock than it tolerates; otherwise nothing of the file is restored.
   */
  lemma RestoreUndoesSave(m: Memory, now: int)
    requires Inv(m)
    ensures RestorableBatches(SavedOf(Sealed(m)), now) <==> DatedBefore(m.All(), now + AHEAD)
    ensures Restored(SavedOf(Sealed(m))) == Sealed(m)
  {
    SealKeeps(m);
    RestorableWhen(SavedOf(Sealed(m)), now);
    assert SavedOf(Sealed(m)).All() == Sealed(m).All();
    assert SealAll(SealAll(m.queue)) == SealAll(m.queue);
    if m.pending.Some? {
      assert m.pending.value.(sealed := true) == m.pending.value;
    }
  }

  // ---------------------------------------------------------------- the recorder

  method AnyFresh(batch: Batch, now: int) returns (recent: bool)
    ensures recent == Fresh(batch, now)
  {
    for i := 0 to |batch.records|
      invariant forall k :: 0 <= k < i ==> batch.records[k].at < now - RETENTION
    {
      if batch.records[i].at >= now - RETENTION {
        return true;
      }
    }
    return false;
  }

  lemma RestoredKeeps(saved: Saved)
    requires Batches(saved.All()) && Held(saved.All()) <= MAX_RECORDS
    ensures Inv(Restored(saved))
  {
    assert SameContents(saved.All(), Restored(saved).All());
    SameContentsHeld(saved.All(), Restored(saved).All());
    SameContentsBatches(saved.All(), Restored(saved).All());
  }

  method CheckRecords(records: seq<Record>, now: int) returns (ok: bool)
    ensures ok <==> forall i :: 0 <= i < |records| ==> Restorable(records[i], now)
  {
    for i := 0 to |records|
      invariant forall k :: 0 <= k < i ==> Restorable(records[k], now)
    {
      if !Restorable(records[i], now) {
        return false;
      }
    }
    return true;
  }

  predicate RestorableBatch(batch: Batch, now: int) {
    0 < |batch.records| <= MAX_BATCH && forall i :: 0 <= i < |batch.records| ==> Restorable(batch.records[i], now)
  }

  predicate RestorableList(all: seq<Batch>, now: int) {
    && |all| <= MAX_RECORDS && Held(all) <= MAX_RECORDS
    && (forall i :: 0 <= i < |all| ==> RestorableBatch(all[i], now))
    && (forall i, j :: 0 <= i < j < |all| ==> all[i].id != all[j].id)
  }

  lemma RestorableParts(saved: Saved, now: int)
    ensures RestorableBatches(saved, now) <==> RestorableList(saved.All(), now)
  {
    var all := saved.All();
    if RestorableBatches(saved, now) {
      forall i | 0 <= i < |all| ensures RestorableBatch(all[i], now) {
        assert ValidBatch(all[i]) && all[i] in all;
        forall k | 0 <= k < |all[i].records| ensures Restorable(all[i].records[k], now) {
          assert all[i].records[k] in all[i].records;
        }
      }
    }
    if RestorableList(all, now) {
      forall i | 0 <= i < |all| ensures ValidBatch(all[i]) {
        assert RestorableBatch(all[i], now);
      }
    }
  }

  method CheckAll(all: seq<Batch>, now: int) returns (ok: bool)
    ensures ok == RestorableList(all, now)
  {
    if |all| > MAX_RECORDS {
      return false;
    }
    var seen: set<string>, held := {}, 0;
    for i := 0 to |all|
      invariant held == Held(all[..i])
      invariant forall k :: 0 <= k < i ==> RestorableBatch(all[k], now) && all[k].id in seen
      invariant forall id :: id in seen ==> exists k :: 0 <= k < i && all[k].id == id
      invariant forall j, k :: 0 <= j < k < i ==> all[j].id != all[k].id
    {
      if all[i].id in seen || |all[i].records| == 0 || |all[i].records| > MAX_BATCH {
        return false;
      }
      seen := seen + {all[i].id};
      held := held + |all[i].records|;
      assert all[..i + 1][..i] == all[..i];
      var valid := CheckRecords(all[i].records, now);
      if !valid {
        assert !RestorableBatch(all[i], now);
        return false;
      }
    }
    assert all[..|all|] == all;
    return held <= MAX_RECORDS;
  }

  lemma NextCount(m: Memory)
    requires Inv(m)
    ensures m.count == (if m.pending.Some? then |m.pending.value.records| else 0) + Held(m.queue)
  {
    QueueKeeps(m);
    if m.pending.Some? {
      HeldOne(m.pending.value);
    }
  }

  /** The batches with a record that is not too old, and how many records the others held. */
  method DropOld(queue: seq<Batch>, now: int) returns (valid: seq<Batch>, removed: nat)
    ensures valid == FreshOnes(queue, now) && removed == Held(queue) - Held(valid)
  {
    valid, removed := [], 0;
    assert queue[0..] == queue;
    for i := 0 to |queue|
      invariant valid + FreshOnes(queue[i..], now) == FreshOnes(queue, now)
      invariant removed + Held(valid) == Held(queue[..i])
    {
      var recent := AnyFresh(queue[i], now);
      assert queue[i..][1..] == queue[i + 1..];
      assert queue[..i + 1][..i] == queue[..i];
      HeldConcat(valid, [queue[i]]);
      HeldOne(queue[i]);
      if recent {
        valid := valid + [queue[i]];
      } else {
        removed := removed + |queue[i].records|;
      }
    }
    assert queue[..|queue|] == queue;
  }

  function WithRecord(batch: Batch, record: Record): Batch {
    batch.(records := batch.records + [record])
  }

  /** Starting a batch when needed, then adding to the last one. */
  lemma AppendParts(m: Memory, record: Record, id: Option<string>, queue: seq<Batch>) returns (grown: Memory)
    requires Accepts(m, id)
    requires queue == if Open(m.queue) then m.queue else m.queue + [Batch(id.value, [], false)]
    ensures grown == Append(m, record, id)
    ensures queue != [] && grown == Memory(queue[..|queue| - 1] + [WithRecord(queue[|queue| - 1], record)], m.pending,
                                           m.count + 1)
  {
    grown := Append(m, record, id);
    if !Open(m.queue) {
      assert queue[..|queue| - 1] == m.queue;
      assert [] + [record] == [record];
    }
  }

  class Recorder {
    const nodeId: int
    var enabled: bool
    var dropped: nat
    var queue: seq<Batch>
    var pending: Option<Batch>
    var count: int

    function Abs(): Memory
      reads this
    {
      Memory(queue, pending, count)
    }

    constructor (nodeId: int)
      ensures Abs() == Empty && !enabled && this.nodeId == nodeId
    {
      this.nodeId, enabled, dropped := nodeId, false, 0;
      queue, pending, count := [], None, 0;
    }

    /**
     `host` is the destination's normal form, empty when there is none; `id` the number drawn if a batch is started.
     */
    method AddForNode(node: int, user: int, host: string, port: nat, now: int, id: Option<string>)
      requires Inv(Abs())
      modifies this
      ensures Abs() == if old(enabled) && node >= 0 && user > 0 && port > 0 && host != ""
                       then Append(old(Abs()), Record(if node == 0 then nodeId else node, user, now, host, port), id)
                       else old(Abs())
      ensures dropped == if old(enabled) && node >= 0 && user > 0 && port > 0 && host != "" && !Accepts(old(Abs()), id)
                         then old(dropped) + 1 else old(dropped)
      ensures enabled == old(enabled)
    {
      if !enabled || node < 0 || user <= 0 || port == 0 || host == "" {
        return;
      }
      var owner := if node == 0 then nodeId else node;
      if count >= MAX_RECORDS {
        dropped := dropped + 1;
        return;
      }
      if queue == [] || queue[|queue| - 1].sealed || |queue[|queue| - 1].records| >= MAX_BATCH {
        if id.None? {
          dropped := dropped + 1;
          return;
        }
        queue := queue + [Batch(id.value, [], false)];
      }
      var record := Record(owner, user, now, host, port);
      ghost var grown := AppendParts(old(Abs()), record, id, queue);
      queue := queue[..|queue| - 1] + [WithRecord(queue[|queue| - 1], record)];
      count := count + 1;
    }

    /** The batch to send: the same one until it is acknowledged, unless it has grown too old. */
    method Next(now: int) returns (batch: Option<Batch>)
      requires Inv(Abs())
      modifies `queue, `pending, `count
      ensures Abs() == NextOf(old(Abs()), now) && batch == pending
    {
      NextCount(Abs());
      if pending.Some? {
        var recent := AnyFresh(pending.value, now);
        if recent {
          return pending;
        }
        count := count - |pending.value.records|;
        pending := None;
      }
      var valid, removed := DropOld(queue, now);
      count := count - removed;
      queue := valid;
      if |queue| == 0 {
        return None;
      }
      pending := Some(queue[0].(sealed := true));
      queue := queue[1..];
      return pending;
    }

    method Ack(id: string)
      modifies `pending, `count
      ensures Abs() == AckOf(old(Abs()), id)
    {
      if pending.Some? && pending.value.id == id {
        count := count - |pending.value.records|;
        pending := None;
      }
    }

    /** Seals everything queued and gives what is to be written, with the number of batches it allows to be sent. */
    method Checkpoint() returns (saved: Saved, batches: nat)
      modifies `queue
      ensures Abs() == Sealed(old(Abs())) && saved == SavedOf(Abs()) && batches == |saved.All()|
    {
      for i := 0 to |queue|
        invariant |queue| == |old(queue)|
        invariant forall k :: 0 <= k < |queue| ==>
                  queue[k] == if k < i then old(queue)[k].(sealed := true) else old(queue)[k]
      {
        queue := queue[i := queue[i].(sealed := true)];
      }
      assert queue == SealAll(old(queue));
      saved := Saved(pending, queue);
      batches := |queue| + if pending.Some? then 1 else 0;
    }

    /** Takes over a saved state, all of it or nothing. */
    method Restore(saved: Saved, now: int) returns (ok: bool)
      modifies `queue, `pending, `count
      ensures ok == RestorableBatches(saved, now)
      ensures Abs() == (if ok then Restored(saved) else old(Abs()))
      ensures ok ==> Inv(Abs())
    {
      RestorableParts(saved, now);
      ok := CheckAll(saved.All(), now);
      if !ok {
        return;
      }
      RestoredKeeps(saved);
      queue, pending, count := SealAll(saved.queue), Restored(saved).pending, Held(saved.All());
    }
  }
}
