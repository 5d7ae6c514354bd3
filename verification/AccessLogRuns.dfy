/**
 Whole runs of the access-log recorder: adding, sending, acknowledging, saving, crashing and restoring, whatever the
 clock does. Deliveries may be late, repeated or lost, and so may their acknowledgements. The receiver keeps the first
 batch of each number and ignores repetitions.
 */
module AccessLogRuns {
  import opened Common
  import opened AccessLog

  /**
   `accepted` lists every record ever taken into a queue, `starts` where each batch begins in it, `published` what has
   been handed out or written under each number. The receiver has taken the batches of `log`, the last of which ends at
   position `frontier`.
   */
  datatype Past = Past(accepted: seq<Record>, starts: map<string, nat>, published: map<string, seq<Record>>,
                       log: seq<string>, frontier: nat) {
    predicate Taken(id: string) { id in log }
  }

  /**
   `latest` is the latest time at which any process has asked for a batch, and `before` the latest at which a process
   before this one has. `offered` says that this process has asked for the pending batch, so that it may be on its way.
   A process that cannot restore the file is `halted`: it neither records nor sends, and leaves the file alone.
   */
  datatype World = World(m: Memory, file: Option<Saved>, past: Past, before: Option<int>, latest: Option<int>,
                         offered: bool, halted: bool)

  const Start: World := World(Empty, None, Past([], map[], map[], [], 0), None, None, false, false)

  /** `Strayed` is a copy of anything ever handed out or written that arrives at some later time. */
  datatype Event =
    | Added(record: Record, drawn: Option<string>)
    | Asked
    | Delivered
    | Strayed(id: string)
    | Acked(id: string)
    | Checkpointed(written: bool)
    | Restarted

  /** What may happen; the clock is the one of the machine, which somebody may set back. */
  predicate Possible(w: World, e: Event, now: int) {
    && (e.Added? ==> ValidRecord(e.record) && e.record.at == now && (e.drawn.Some? ==> e.drawn.value !in w.past.starts))
    && (e.Added? || e.Asked? || e.Checkpointed? ==> !w.halted)
    && (e.Delivered? ==> w.offered && w.m.pending.Some?)
    && (e.Strayed? ==> e.id in w.past.published)
    && (e.Acked? ==> w.past.Taken(e.id))
  }

  function Contents(batches: seq<Batch>): map<string, seq<Record>> {
    if batches == [] then map[]
    else Contents(batches[..|batches| - 1])[batches[|batches| - 1].id := batches[|batches| - 1].records]
  }

  function AfterAdd(past: Past, m: Memory, record: Record, id: Option<string>): Past {
    if !Accepts(m, id) then past
    else
      past.(accepted := past.accepted + [record],
            starts := if Open(m.queue) then past.starts else past.starts[id.value := |past.accepted|])
  }

  function Publish(past: Past, batches: seq<Batch>): Past {
    past.(published := past.published + Contents(batches))
  }

  /** The receiver takes the batch unless it has one of this number. */
  function Deliver(past: Past, id: string, records: seq<Record>): Past {
    if past.Taken(id) || id !in past.starts then past
    else past.(log := past.log + [id], frontier := past.starts[id] + |records|)
  }

  /** Whether a process starting now takes the file over; without a file it starts empty. */
  predicate Restores(file: Option<Saved>, now: int) {
    file.Some? ==> RestorableBatches(file.value, now)
  }

  function Rebooted(file: Option<Saved>, now: int): Memory {
    if file.Some? && Restores(file, now) then Restored(file.value) else Empty
  }

  function Written(m: Memory): Option<Saved> {
    if m.All() == [] then None else Some(SavedOf(m))
  }

  function Later(t: Option<int>, now: int): Option<int> {
    Some(if t.Some? then Max(t.value, now) else now)
  }

  function HandedOut(m: Memory): seq<Batch> {
    if m.pending.Some? then [m.pending.value] else []
  }

  function Next(w: World, e: Event, now: int): World
    requires Possible(w, e, now)
  {
    match e
    case Added(record, id) => w.(m := Append(w.m, record, id), past := AfterAdd(w.past, w.m, record, id))
    case Asked =>
      var m := NextOf(w.m, now);
      w.(m := m, past := Publish(w.past, HandedOut(m)), latest := Later(w.latest, now), offered := m.pending.Some?)
    case Delivered => w.(past := Deliver(w.past, w.m.pending.value.id, w.m.pending.value.records))
    case Strayed(id) => w.(past := Deliver(w.past, id, w.past.published[id]))
    case Acked(id) => w.(m := AckOf(w.m, id))
    case Checkpointed(written) =>
      var m := Sealed(w.m);
      w.(m := m, past := Publish(w.past, m.All()), file := if written then Written(m) else w.file)
    case Restarted =>
      w.(m := Rebooted(w.file, now), before := w.latest, offered := false, halted := !Restores(w.file, now))
  }

  // ---------------------------------------------------------------- the invariant of all runs

  function EndOf(past: Past, b: Batch): nat
    requires b.id in past.starts
  {
    past.starts[b.id] + |b.records|
  }

  /**
   A batch is a stretch of the accepted records, frozen once anybody has seen it; an unsealed one is still at the end.
   */
  predicate Placed(past: Past, b: Batch) {
    && b.id in past.starts && 0 < |b.records| && EndOf(past, b) <= |past.accepted|
    && b.records == past.accepted[past.starts[b.id]..EndOf(past, b)]
    && (b.id in past.published ==> b.sealed && b.records == past.published[b.id])
    && (!b.sealed && |b.records| < MAX_BATCH ==> EndOf(past, b) == |past.accepted|)
  }

  predicate AllPlaced(past: Past, batches: seq<Batch>) {
    && (forall i :: 0 <= i < |batches| ==> Placed(past, batches[i]))
    && (forall i, j :: 0 <= i < j < |batches| ==> EndOf(past, batches[i]) <= past.starts[batches[j].id])
  }

  /** A batch ends before every later one begins. */
  predicate Bounded(past: Past, b: Batch)
    requires b.id in past.starts
  {
    forall y :: y in past.starts && past.starts[b.id] < past.starts[y] ==> EndOf(past, b) <= past.starts[y]
  }

  predicate AllKept(past: Past, batches: seq<Batch>) {
    AllPlaced(past, batches) && forall i :: 0 <= i < |batches| ==> Bounded(past, batches[i])
  }

  /** The stretches of different numbers begin at different places, and what is published does not overlap. */
  predicate Stretches(past: Past) {
    && (forall id :: id in past.starts ==> past.starts[id] < |past.accepted|)
    && (forall x, y :: x in past.starts && y in past.starts && past.starts[x] == past.starts[y] ==> x == y)
    && (forall id :: id in past.published ==> PublishedPlaced(past, id))
  }

  predicate PublishedPlaced(past: Past, id: string)
    requires id in past.published
  {
    && id in past.starts
    && var from, length := past.starts[id], |past.published[id]|;
       && 0 < length && from + length <= |past.accepted|
       && past.published[id] == past.accepted[from..from + length]
       && forall y :: y in past.starts && from < past.starts[y] ==> from + length <= past.starts[y]
  }

  /** What is saved is frozen and known. */
  predicate FileFrozen(past: Past, file: Option<Saved>) {
    file.Some? ==>
      && Batches(file.value.All()) && Held(file.value.All()) <= MAX_RECORDS && AllPlaced(past, file.value.All())
      && forall i :: 0 <= i < |file.value.All()| ==>
           file.value.All()[i].sealed && file.value.All()[i].id in past.published
  }

  /** The receiver takes each number once, and only what was published. */
  predicate Took(past: Past) {
    && (forall i :: 0 <= i < |past.log| ==> past.log[i] in past.published)
    && (forall i, j :: 0 <= i < j < |past.log| ==> past.log[i] != past.log[j])
  }

  predicate Safe(w: World) {
    && Inv(w.m) && Stretches(w.past) && AllKept(w.past, w.m.All()) && FileFrozen(w.past, w.file) && Took(w.past)
    && (w.offered && w.m.pending.Some? ==> w.m.pending.value.id in w.past.published)
    && (w.halted ==> w.m == Empty && !w.offered)
  }

  // ---------------------------------------------------------------- adding

  predicate Closed(b: Batch) {
    b.sealed || |b.records| >= MAX_BATCH
  }

  /** More has been accepted; nothing else changed, except that numbers may have been drawn. */
  predicate Grows(past: Past, grown: Past) {
    && past.accepted <= grown.accepted && grown.published == past.published && grown.log == past.log
    && grown.frontier == past.frontier
    && forall id :: id in past.starts ==> id in grown.starts && grown.starts[id] == past.starts[id]
  }

  lemma ClosedStays(past: Past, grown: Past, b: Batch)
    requires Placed(past, b) && Closed(b) && Grows(past, grown)
    ensures Placed(grown, b)
  {
  }

  lemma OnlyLastOpen(past: Past, batches: seq<Batch>, i: nat)
    requires AllPlaced(past, batches) && i + 1 < |batches|
    ensures Closed(batches[i])
  {
    assert Placed(past, batches[i]) && Placed(past, batches[i + 1]);
  }

  lemma FileGrows(past: Past, grown: Past, file: Option<Saved>)
    requires FileFrozen(past, file) && Grows(past, grown)
    ensures FileFrozen(grown, file)
  {
    if file.Some? {
      var all := file.value.All();
      forall i | 0 <= i < |all| ensures Placed(grown, all[i]) {
        assert Placed(past, all[i]);
        ClosedStays(past, grown, all[i]);
      }
    }
  }

  /** All but the last batch, which may change. */
  lemma FrontStays(past: Past, grown: Past, batches: seq<Batch>, front: seq<Batch>)
    requires AllPlaced(past, batches) && Grows(past, grown) && front <= batches
    requires front == batches ==> forall i :: 0 <= i < |batches| ==> Closed(batches[i])
    ensures AllPlaced(grown, front)
  {
    forall i | 0 <= i < |front| ensures front[i] == batches[i] && Placed(grown, front[i]) {
      assert front[i] == batches[i] && Placed(past, batches[i]);
      if i + 1 < |batches| {
        OnlyLastOpen(past, batches, i);
      }
      ClosedStays(past, grown, batches[i]);
    }
  }

  lemma PlacedAppend(past: Past, front: seq<Batch>, last: Batch)
    requires AllPlaced(past, front) && Placed(past, last)
    requires forall i :: 0 <= i < |front| ==> EndOf(past, front[i]) <= past.starts[last.id]
    ensures AllPlaced(past, front + [last])
  {
  }

  lemma LongerLast(past: Past, grown: Past, batches: seq<Batch>, longer: Batch)
    requires AllPlaced(past, batches) && Grows(past, grown) && batches != []
    requires Placed(grown, longer) && longer.id == batches[|batches| - 1].id
    ensures AllPlaced(grown, batches[..|batches| - 1] + [longer])
  {
    var n := |batches| - 1;
    FrontStays(past, grown, batches, batches[..n]);
    forall i | 0 <= i < n ensures EndOf(grown, batches[..n][i]) <= grown.starts[longer.id] {
      assert Placed(past, batches[n]) && EndOf(past, batches[i]) <= past.starts[longer.id];
    }
    PlacedAppend(grown, batches[..n], longer);
  }

  lemma OneMore(past: Past, grown: Past, batches: seq<Batch>, batch: Batch)
    requires AllPlaced(past, batches) && Grows(past, grown)
    requires forall i :: 0 <= i < |batches| ==> Closed(batches[i])
    requires Placed(grown, batch) && grown.starts[batch.id] == |past.accepted|
    ensures AllPlaced(grown, batches + [batch])
  {
    FrontStays(past, grown, batches, batches);
    forall i | 0 <= i < |batches| ensures EndOf(grown, batches[i]) <= grown.starts[batch.id] {
      assert Placed(past, batches[i]);
    }
    PlacedAppend(grown, batches, batch);
  }

  lemma BoundedAppend(past: Past, front: seq<Batch>, last: Batch)
    requires AllPlaced(past, front + [last]) && last.id in past.starts && Bounded(past, last)
    requires forall i :: 0 <= i < |front| ==> front[i].id in past.starts && Bounded(past, front[i])
    ensures AllKept(past, front + [last])
  {
  }

  /** The last batch of the queue is still open: nothing begins behind it, and it takes in the record. */
  lemma LongerKept(past: Past, m: Memory, record: Record, drawn: Option<string>, last: Batch)
    requires Stretches(past) && Accepts(m, drawn) && Open(m.queue) && last == m.queue[|m.queue| - 1]
    requires Placed(past, last) && Bounded(past, last)
    ensures var grown, longer := AfterAdd(past, m, record, drawn), last.(records := last.records + [record]);
            Placed(grown, longer) && Bounded(grown, longer)
  {
    forall y | y in past.starts ensures past.starts[y] <= past.starts[last.id] {
      assert past.starts[y] < |past.accepted| && EndOf(past, last) == |past.accepted|;
    }
  }

  lemma FrontBounded(past: Past, grown: Past, batches: seq<Batch>, n: nat)
    requires AllKept(past, batches) && n <= |batches|
    requires forall id :: id in past.starts ==> id in grown.starts && grown.starts[id] == past.starts[id]
    requires forall y :: y in grown.starts && y !in past.starts ==> |past.accepted| <= grown.starts[y]
    ensures forall i :: 0 <= i < n ==> batches[..n][i].id in grown.starts && Bounded(grown, batches[..n][i])
  {
    forall i | 0 <= i < n ensures batches[..n][i].id in grown.starts && Bounded(grown, batches[..n][i]) {
      assert batches[..n][i] == batches[i] && Placed(past, batches[i]) && Bounded(past, batches[i]);
    }
  }

  lemma LastGrows(m: Memory, record: Record, drawn: Option<string>)
    requires Accepts(m, drawn) && Open(m.queue)
    ensures var n, last := |m.All()| - 1, m.queue[|m.queue| - 1];
            && n >= 0 && m.All()[n] == last
            && Append(m, record, drawn).All() == m.All()[..n] + [last.(records := last.records + [record])]
  {
  }

  lemma OneStarts(m: Memory, record: Record, drawn: Option<string>)
    requires Accepts(m, drawn) && !Open(m.queue)
    ensures Append(m, record, drawn).All() == m.All() + [Batch(drawn.value, [record], false)]
  {
  }

  lemma AddKeepsStarts(past: Past, m: Memory, record: Record, drawn: Option<string>)
    requires Accepts(m, drawn) && (!Open(m.queue) ==> drawn.value !in past.starts)
    ensures var grown := AfterAdd(past, m, record, drawn);
            && Grows(past, grown)
            && (forall y :: y in grown.starts && y !in past.starts ==> |past.accepted| <= grown.starts[y])
  {
  }

  lemma ExtendsLast(past: Past, m: Memory, record: Record, drawn: Option<string>)
    requires Inv(m) && Stretches(past) && AllKept(past, m.All()) && Accepts(m, drawn) && Open(m.queue)
    ensures AllKept(AfterAdd(past, m, record, drawn), Append(m, record, drawn).All())
  {
    var all, grown, n := m.All(), AfterAdd(past, m, record, drawn), |m.All()| - 1;
    LastGrows(m, record, drawn);
    AddKeepsStarts(past, m, record, drawn);
    assert Placed(past, all[n]) && Bounded(past, all[n]);
    LongerKept(past, m, record, drawn, all[n]);
    var longer := all[n].(records := all[n].records + [record]);
    LongerLast(past, grown, all, longer);
    FrontBounded(past, grown, all, n);
    BoundedAppend(grown, all[..n], longer);
  }

  lemma AllClosed(past: Past, m: Memory)
    requires Inv(m) && AllPlaced(past, m.All()) && !Open(m.queue)
    ensures forall i :: 0 <= i < |m.All()| ==> Closed(m.All()[i])
  {
    forall i | 0 <= i < |m.All()| ensures Closed(m.All()[i]) {
      if i + 1 < |m.All()| {
        OnlyLastOpen(past, m.All(), i);
      }
    }
  }

  lemma NewKept(past: Past, m: Memory, record: Record, drawn: Option<string>)
    requires Stretches(past) && Accepts(m, drawn) && !Open(m.queue) && drawn.value !in past.starts
    requires drawn.value !in past.published
    ensures var grown, batch := AfterAdd(past, m, record, drawn), Batch(drawn.value, [record], false);
            Placed(grown, batch) && Bounded(grown, batch) && grown.starts[batch.id] == |past.accepted|
  {
  }

  lemma StartsNew(past: Past, m: Memory, record: Record, drawn: Option<string>)
    requires Inv(m) && Stretches(past) && AllKept(past, m.All()) && Accepts(m, drawn) && !Open(m.queue)
    requires drawn.value !in past.starts
    ensures AllKept(AfterAdd(past, m, record, drawn), Append(m, record, drawn).All())
  {
    var all, grown := m.All(), AfterAdd(past, m, record, drawn);
    var batch := Batch(drawn.value, [record], false);
    OneStarts(m, record, drawn);
    AddKeepsStarts(past, m, record, drawn);
    AllClosed(past, m);
    NewKept(past, m, record, drawn);
    OneMore(past, grown, all, batch);
    FrontBounded(past, grown, all, |all|);
    assert all[..|all|] == all;
    BoundedAppend(grown, all, batch);
  }

  lemma PublishedGrows(past: Past, grown: Past, id: string)
    requires Grows(past, grown) && id in past.published && PublishedPlaced(past, id)
    requires forall y :: y in grown.starts && y !in past.starts ==> |past.accepted| <= grown.starts[y]
    ensures PublishedPlaced(grown, id)
  {
  }

  lemma StretchesGrow(past: Past, m: Memory, record: Record, drawn: Option<string>)
    requires Stretches(past) && Accepts(m, drawn) && (drawn.Some? ==> drawn.value !in past.starts)
    ensures Stretches(AfterAdd(past, m, record, drawn)) && Grows(past, AfterAdd(past, m, record, drawn))
  {
    var grown := AfterAdd(past, m, record, drawn);
    assert Grows(past, grown);
    forall id | id in grown.published ensures PublishedPlaced(grown, id) {
      PublishedGrows(past, grown, id);
    }
  }

  lemma IdsDrawn(past: Past, batches: seq<Batch>)
    requires AllPlaced(past, batches)
    ensures forall b :: b in batches ==> b.id in past.starts && Placed(past, b)
  {
    forall b | b in batches ensures b.id in past.starts && Placed(past, b) {
      var i :| 0 <= i < |batches| && batches[i] == b;
    }
  }

  lemma AddedSafe(w: World, record: Record, drawn: Option<string>, now: int)
    requires Safe(w) && Possible(w, Added(record, drawn), now)
    ensures Safe(Next(w, Added(record, drawn), now))
  {
    if Accepts(w.m, drawn) {
      IdsDrawn(w.past, w.m.All());
      AppendKeeps(w.m, record, drawn);
      StretchesGrow(w.past, w.m, record, drawn);
      FileGrows(w.past, AfterAdd(w.past, w.m, record, drawn), w.file);
      if Open(w.m.queue) {
        ExtendsLast(w.past, w.m, record, drawn);
      } else {
        StartsNew(w.past, w.m, record, drawn);
      }
    }
  }

  // ---------------------------------------------------------------- handing out and writing

  lemma {:induction false} ContentsAre(batches: seq<Batch>)
    requires forall i, j :: 0 <= i < j < |batches| ==> batches[i].id != batches[j].id
    ensures forall id :: id in Contents(batches) <==> exists i :: 0 <= i < |batches| && batches[i].id == id
    ensures forall i :: 0 <= i < |batches| ==>
              batches[i].id in Contents(batches) && Contents(batches)[batches[i].id] == batches[i].records
  {
    if batches == [] {
    } else {
      ContentsAre(batches[..|batches| - 1]);
    }
  }

  /** What was published stays as it was; the batches published now are added. */
  predicate Publishes(past: Past, now: Past, batches: seq<Batch>) {
    && now.accepted == past.accepted && now.starts == past.starts && now.log == past.log
    && now.frontier == past.frontier
    && (forall id :: id in past.published ==> id in now.published && now.published[id] == past.published[id])
    && (forall id :: id in now.published ==>
          id in past.published || exists i :: 0 <= i < |batches| && batches[i].id == id)
    && (forall i :: 0 <= i < |batches| ==>
          batches[i].id in now.published && now.published[batches[i].id] == batches[i].records)
  }

  lemma PublishPublishes(past: Past, batches: seq<Batch>)
    requires AllPlaced(past, batches) && forall i, j :: 0 <= i < j < |batches| ==> batches[i].id != batches[j].id
    ensures Publishes(past, Publish(past, batches), batches)
  {
    ContentsAre(batches);
    forall id | id in past.published && id in Contents(batches) ensures Contents(batches)[id] == past.published[id] {
      var i :| 0 <= i < |batches| && batches[i].id == id;
      assert Placed(past, batches[i]);
    }
  }

  lemma PlacedPublished(past: Past, now: Past, batches: seq<Batch>, b: Batch)
    requires Publishes(past, now, batches) && Placed(past, b)
    requires forall i :: 0 <= i < |batches| && batches[i].id == b.id ==> b.sealed && batches[i].records == b.records
    ensures Placed(now, b)
  {
  }

  lemma KeptPublished(past: Past, now: Past, batches: seq<Batch>, all: seq<Batch>)
    requires Publishes(past, now, batches) && AllKept(past, all)
    requires forall i, k :: 0 <= i < |batches| && 0 <= k < |all| && batches[i].id == all[k].id ==>
              all[k].sealed && batches[i].records == all[k].records
    ensures AllKept(now, all)
  {
    forall k | 0 <= k < |all| ensures Placed(now, all[k]) && Bounded(now, all[k]) {
      assert Placed(past, all[k]) && Bounded(past, all[k]);
      PlacedPublished(past, now, batches, all[k]);
    }
  }

  lemma PublishedStays(past: Past, now: Past, id: string)
    requires now.accepted == past.accepted && now.starts == past.starts
    requires id in past.published && id in now.published && now.published[id] == past.published[id]
    requires PublishedPlaced(past, id)
    ensures PublishedPlaced(now, id)
  {
  }

  lemma BatchPublished(past: Past, now: Past, b: Batch)
    requires now.accepted == past.accepted && now.starts == past.starts && Placed(past, b) && Bounded(past, b)
    requires b.id in now.published && now.published[b.id] == b.records
    ensures PublishedPlaced(now, b.id)
  {
  }

  lemma StretchesPublished(past: Past, now: Past, batches: seq<Batch>)
    requires Publishes(past, now, batches) && Stretches(past) && AllKept(past, batches)
    ensures Stretches(now)
  {
    forall id | id in now.published ensures PublishedPlaced(now, id) {
      if id in past.published {
        PublishedStays(past, now, id);
      } else {
        var i :| 0 <= i < |batches| && batches[i].id == id;
        BatchPublished(past, now, batches[i]);
      }
    }
  }

  lemma FilePublished(past: Past, now: Past, batches: seq<Batch>, file: Option<Saved>)
    requires Publishes(past, now, batches) && FileFrozen(past, file)
    ensures FileFrozen(now, file)
  {
    if file.Some? {
      var all := file.value.All();
      forall i | 0 <= i < |all| ensures Placed(now, all[i]) {
        assert Placed(past, all[i]);
      }
    }
  }

  lemma TookPublished(past: Past, now: Past, batches: seq<Batch>)
    requires Publishes(past, now, batches) && Took(past)
    ensures Took(now)
  {
  }

  lemma {:induction false} FreshKept(past: Past, queue: seq<Batch>, now: int)
    requires AllKept(past, queue)
    ensures AllKept(past, FreshOnes(queue, now))
  {
    if queue == [] {
    } else {
      var tail := queue[1..];
      TailKept(past, queue);
      FreshKept(past, tail, now);
      var rest := FreshOnes(tail, now);
      if Fresh(queue[0], now) {
        forall j | 0 <= j < |rest| ensures EndOf(past, queue[0]) <= past.starts[rest[j].id] {
          FreshOnesAre(tail, now, rest[j]);
          var k :| 0 <= k < |tail| && tail[k] == rest[j];
          assert EndOf(past, queue[0]) <= past.starts[queue[k + 1].id];
        }
        FirstKept(past, queue[0], rest);
      }
    }
  }

  lemma FirstKept(past: Past, first: Batch, rest: seq<Batch>)
    requires Placed(past, first) && Bounded(past, first) && AllKept(past, rest)
    requires forall j :: 0 <= j < |rest| ==> EndOf(past, first) <= past.starts[rest[j].id]
    ensures AllKept(past, [first] + rest)
  {
    var whole := [first] + rest;
    forall i | 0 <= i < |whole| ensures Placed(past, whole[i]) && Bounded(past, whole[i]) {
      assert i > 0 ==> whole[i] == rest[i - 1];
    }
  }

  lemma TailKept(past: Past, all: seq<Batch>)
    requires AllKept(past, all) && all != []
    ensures AllKept(past, all[1..])
  {
    var tail := all[1..];
    forall i | 0 <= i < |tail| ensures Placed(past, tail[i]) && Bounded(past, tail[i]) {
      assert tail[i] == all[i + 1];
    }
    forall i, j | 0 <= i < j < |tail| ensures EndOf(past, tail[i]) <= past.starts[tail[j].id] {
      assert tail[i] == all[i + 1] && tail[j] == all[j + 1];
    }
  }

  lemma QueueKept(past: Past, m: Memory)
    requires AllKept(past, m.All())
    ensures AllKept(past, m.queue)
  {
    if m.pending.Some? {
      TailKept(past, m.All());
      assert m.All()[1..] == m.queue;
    } else {
      assert m.All() == m.queue;
    }
  }

  /** Each batch the same, or sealed. */
  predicate SomeSealed(a: seq<Batch>, b: seq<Batch>) {
    |a| == |b| && forall i :: 0 <= i < |a| ==> b[i] == a[i] || b[i] == a[i].(sealed := true)
  }

  lemma SealedKept(past: Past, a: seq<Batch>, b: seq<Batch>)
    requires SomeSealed(a, b) && AllKept(past, a)
    ensures AllKept(past, b)
  {
    forall i | 0 <= i < |b| ensures Placed(past, b[i]) && Bounded(past, b[i]) {
      assert Placed(past, a[i]) && Bounded(past, a[i]);
    }
    forall i, j | 0 <= i < j < |b| ensures EndOf(past, b[i]) <= past.starts[b[j].id] {
      assert EndOf(past, a[i]) <= past.starts[a[j].id];
    }
  }

  lemma DistinctIds(past: Past, all: seq<Batch>)
    requires AllPlaced(past, all)
    ensures forall i, j :: 0 <= i < j < |all| ==> all[i].id != all[j].id
  {
    forall i, j | 0 <= i < j < |all| ensures all[i].id != all[j].id {
      assert Placed(past, all[i]) && EndOf(past, all[i]) <= past.starts[all[j].id];
    }
  }

  lemma OneKept(past: Past, b: Batch)
    requires Placed(past, b) && Bounded(past, b)
    ensures AllKept(past, [b])
  {
  }

  /** Publishing the first of some batches, which is sealed. */
  lemma PublishFirst(past: Past, all: seq<Batch>)
    requires all != [] && Stretches(past) && AllKept(past, all) && all[0].sealed
    ensures var now := Publish(past, [all[0]]);
            Publishes(past, now, [all[0]]) && AllKept(now, all) && Stretches(now)
  {
    var first, now := [all[0]], Publish(past, [all[0]]);
    OneKept(past, all[0]);
    PublishPublishes(past, first);
    DistinctIds(past, all);
    KeptPublished(past, now, first, all);
    StretchesPublished(past, now, first);
  }

  lemma FirstSealedKept(past: Past, left: seq<Batch>)
    requires left != [] && AllKept(past, left)
    ensures AllKept(past, [left[0].(sealed := true)] + left[1..])
  {
    SealedKept(past, left, [left[0].(sealed := true)] + left[1..]);
  }

  /** What asking leaves in memory, before it is published. */
  lemma NextKept(past: Past, m: Memory, now: int)
    requires Inv(m) && AllKept(past, m.All())
    ensures AllKept(past, NextOf(m, now).All())
  {
    if !(m.pending.Some? && Fresh(m.pending.value, now)) {
      var left := FreshOnes(m.queue, now);
      QueueKept(past, m);
      FreshKept(past, m.queue, now);
      if left != [] {
        FirstSealedKept(past, left);
      } else {
        assert NextOf(m, now).All() == [];
      }
    }
  }

  lemma NothingPublished(past: Past)
    ensures Publishes(past, Publish(past, []), [])
  {
    ContentsAre([]);
  }

  /** Handing out publishes the pending batch, or nothing. */
  lemma HandOut(past: Past, m: Memory)
    requires Inv(m) && Stretches(past) && AllKept(past, m.All())
    ensures var now := Publish(past, HandedOut(m));
            Publishes(past, now, HandedOut(m)) && AllKept(now, m.All()) && Stretches(now)
  {
    if m.pending.Some? {
      assert m.All()[0] == m.pending.value;
      PublishFirst(past, m.All());
    } else {
      NothingPublished(past);
      KeptPublished(past, Publish(past, []), [], m.All());
      StretchesPublished(past, Publish(past, []), []);
    }
  }

  lemma AskedSafe(w: World, now: int)
    requires Safe(w) && Possible(w, Asked, now)
    ensures Safe(Next(w, Asked, now))
  {
    var m := NextOf(w.m, now);
    NextKeeps(w.m, now);
    NextKept(w.past, w.m, now);
    HandOut(w.past, m);
    FilePublished(w.past, Publish(w.past, HandedOut(m)), HandedOut(m), w.file);
    TookPublished(w.past, Publish(w.past, HandedOut(m)), HandedOut(m));
  }

  // ---------------------------------------------------------------- delivery and acknowledgement

  /** Taking something in changes neither the records nor what is published. */
  predicate OnlyTakes(past: Past, now: Past) {
    now.accepted == past.accepted && now.starts == past.starts && now.published == past.published
  }

  lemma TakenKept(past: Past, now: Past, all: seq<Batch>)
    requires OnlyTakes(past, now) && AllKept(past, all)
    ensures AllKept(now, all)
  {
    forall i | 0 <= i < |all| ensures Placed(now, all[i]) && Bounded(now, all[i]) {
      assert Placed(past, all[i]) && Bounded(past, all[i]);
    }
  }

  lemma TakenStretches(past: Past, now: Past)
    requires OnlyTakes(past, now) && Stretches(past)
    ensures Stretches(now)
  {
    forall id | id in now.published ensures PublishedPlaced(now, id) {
      PublishedStays(past, now, id);
    }
  }

  lemma TakenFile(past: Past, now: Past, file: Option<Saved>)
    requires OnlyTakes(past, now) && FileFrozen(past, file)
    ensures FileFrozen(now, file)
  {
    if file.Some? {
      forall i | 0 <= i < |file.value.All()| ensures Placed(now, file.value.All()[i]) {
        assert Placed(past, file.value.All()[i]);
      }
    }
  }

  lemma TakesOnce(past: Past, id: string, records: seq<Record>)
    requires Took(past) && id in past.published
    ensures Took(Deliver(past, id, records)) && OnlyTakes(past, Deliver(past, id, records))
  {
  }

  lemma ArrivedSafe(w: World, id: string, records: seq<Record>)
    requires Safe(w) && id in w.past.published
    ensures Safe(w.(past := Deliver(w.past, id, records)))
  {
    TakesOnce(w.past, id, records);
    var now := Deliver(w.past, id, records);
    TakenKept(w.past, now, w.m.All());
    TakenStretches(w.past, now);
    TakenFile(w.past, now, w.file);
  }

  lemma AckedSafe(w: World, id: string)
    requires Safe(w)
    ensures Safe(w.(m := AckOf(w.m, id)))
  {
    AckKeeps(w.m, id);
    if w.m.pending.Some? && w.m.pending.value.id == id {
      TailKept(w.past, w.m.All());
      assert AckOf(w.m, id).All() == w.m.All()[1..];
    }
  }

  // ---------------------------------------------------------------- saving and restarting

  lemma SealedAll(m: Memory)
    requires Inv(m)
    ensures SomeSealed(m.All(), Sealed(m).All()) && forall i :: 0 <= i < |m.All()| ==> Sealed(m).All()[i].sealed
  {
  }

  lemma PublishAll(past: Past, all: seq<Batch>)
    requires Stretches(past) && AllKept(past, all) && forall i :: 0 <= i < |all| ==> all[i].sealed
    ensures var now := Publish(past, all); Publishes(past, now, all) && AllKept(now, all) && Stretches(now)
  {
    DistinctIds(past, all);
    PublishPublishes(past, all);
    forall i, k | 0 <= i < |all| && 0 <= k < |all| && all[i].id == all[k].id ensures all[i] == all[k] {
    }
    KeptPublished(past, Publish(past, all), all, all);
    StretchesPublished(past, Publish(past, all), all);
  }

  lemma SealingPublishes(past: Past, m: Memory)
    requires Inv(m) && Stretches(past) && AllKept(past, m.All())
    ensures var t := Sealed(m); var now := Publish(past, t.All());
            && Publishes(past, now, t.All()) && AllKept(past, t.All()) && AllKept(now, t.All()) && Stretches(now)
            && FileFrozen(now, Written(t))
  {
    var t := Sealed(m);
    SealedAll(m);
    SealKeeps(m);
    SealedKept(past, m.All(), t.All());
    PublishAll(past, t.All());
    assert SavedOf(t).All() == t.All();
  }

  lemma CheckpointedSafe(w: World, written: bool, now: int)
    requires Safe(w) && Possible(w, Checkpointed(written), now)
    ensures Safe(Next(w, Checkpointed(written), now))
  {
    var m := Sealed(w.m);
    SealKeeps(w.m);
    SealingPublishes(w.past, w.m);
    FilePublished(w.past, Publish(w.past, m.All()), m.All(), w.file);
    TookPublished(w.past, Publish(w.past, m.All()), m.All());
  }

  /** A file that is taken over comes back as it was written. */
  lemma FileReturns(past: Past, saved: Saved)
    requires FileFrozen(past, Some(saved))
    ensures Restored(saved).All() == saved.All() && Inv(Restored(saved))
  {
    var all, h := saved.All(), if saved.pending.Some? then 1 else 0;
    forall i | 0 <= i < |saved.queue| ensures saved.queue[i] == saved.queue[i].(sealed := true) {
      assert saved.queue[i] == all[h + i];
    }
    if saved.pending.Some? {
      assert saved.pending.value == all[0];
    }
    RestoredKeeps(saved);
    assert SealAll(saved.queue) == saved.queue;
  }

  /** What is saved lies as it was published, and so ends before later batches begin. */
  lemma FileKept(past: Past, saved: Saved)
    requires FileFrozen(past, Some(saved)) && Stretches(past)
    ensures AllKept(past, saved.All())
  {
    forall i | 0 <= i < |saved.All()| ensures Bounded(past, saved.All()[i]) {
      assert Placed(past, saved.All()[i]) && PublishedPlaced(past, saved.All()[i].id);
    }
  }

  lemma RestartedSafe(w: World, now: int)
    requires Safe(w)
    ensures Safe(Next(w, Restarted, now))
  {
    if w.file.Some? && Restores(w.file, now) {
      FileReturns(w.past, w.file.value);
      FileKept(w.past, w.file.value);
    } else {
      assert Empty.All() == [] && Inv(Empty);
    }
  }

  lemma StepKeepsSafe(w: World, e: Event, now: int)
    requires Safe(w) && Possible(w, e, now)
    ensures Safe(Next(w, e, now))
  {
    match e
    case Added(record, drawn) => AddedSafe(w, record, drawn, now);
    case Asked => AskedSafe(w, now);
    case Delivered => ArrivedSafe(w, w.m.pending.value.id, w.m.pending.value.records);
    case Strayed(id) => ArrivedSafe(w, id, w.past.published[id]);
    case Acked(id) => AckedSafe(w, id);
    case Checkpointed(written) => CheckpointedSafe(w, written, now);
    case Restarted => RestartedSafe(w, now);
  }

  // ---------------------------------------------------------------- over whole runs

  datatype Timed = Timed(event: Event, now: int)

  function After(trace: seq<Timed>): Option<World> {
    if trace == [] then Some(Start)
    else
      var last := trace[|trace| - 1];
      match After(trace[..|trace| - 1])
      case None => None
      case Some(w) => if Possible(w, last.event, last.now) then Some(Next(w, last.event, last.now)) else None
  }

  lemma {:induction false} EveryRunIsSafe(trace: seq<Timed>)
    requires After(trace).Some?
    ensures Safe(After(trace).value)
  {
    if trace == [] {
      assert Empty.All() == [];
    } else {
      var last := trace[|trace| - 1];
      EveryRunIsSafe(trace[..|trace| - 1]);
      StepKeepsSafe(After(trace[..|trace| - 1]).value, last.event, last.now);
    }
  }

  /** In every run, `count` is what is held and never exceeds the limit. */
  lemma CountIsHeld(trace: seq<Timed>)
    requires After(trace).Some?
    ensures After(trace).value.m.count == Held(After(trace).value.m.All()) <= MAX_RECORDS
  {
    EveryRunIsSafe(trace);
  }

  /** No step takes back what is published. */
  lemma StepKeepsPublished(w: World, e: Event, now: int)
    requires Safe(w) && Possible(w, e, now)
    ensures var v := Next(w, e, now);
            forall id :: id in w.past.published ==>
              id in v.past.published && v.past.published[id] == w.past.published[id]
  {
    if e.Asked? {
      NextKeeps(w.m, now);
      NextKept(w.past, w.m, now);
      HandOut(w.past, NextOf(w.m, now));
    } else if e.Checkpointed? {
      SealingPublishes(w.past, w.m);
    }
  }

  /** What was once handed out or written under a number stays what this number carries, across every step. */
  lemma NumbersKeepTheirRecords(trace: seq<Timed>, e: Event, now: int, id: string)
    requires After(trace).Some? && Possible(After(trace).value, e, now) && id in After(trace).value.past.published
    ensures var w, v := After(trace).value, Next(After(trace).value, e, now);
            && id in v.past.published && v.past.published[id] == w.past.published[id]
            && (forall b :: b in v.m.All() && b.id == id ==> b.records == w.past.published[id])
            && (v.file.Some? ==>
                  forall b :: b in v.file.value.All() && b.id == id ==> b.records == w.past.published[id])
  {
    var w, v := After(trace).value, Next(After(trace).value, e, now);
    EveryRunIsSafe(trace);
    StepKeepsSafe(w, e, now);
    StepKeepsPublished(w, e, now);
    IdsDrawn(v.past, v.m.All());
    if v.file.Some? {
      IdsDrawn(v.past, v.file.value.All());
    }
  }

  // ---------------------------------------------------------------- what the receiver holds

  function Stretch(from: nat, length: nat): (positions: seq<nat>)
    ensures |positions| == length && forall k :: 0 <= k < length ==> positions[k] == from + k
  {
    seq(length, k requires 0 <= k < length => from + k)
  }

  /** The positions in the accepted records of what the receiver took, in the order it took them. */
  function Positions(past: Past, log: seq<string>): seq<nat>
    requires forall i :: 0 <= i < |log| ==> log[i] in past.published && log[i] in past.starts
  {
    if log == [] then []
    else
      var last := log[|log| - 1];
      Positions(past, log[..|log| - 1]) + Stretch(past.starts[last], |past.published[last]|)
  }

  function Records(past: Past, log: seq<string>): seq<Record>
    requires forall i :: 0 <= i < |log| ==> log[i] in past.published
  {
    if log == [] then [] else Records(past, log[..|log| - 1]) + past.published[log[|log| - 1]]
  }

  /** Positions of these records, all of them different. */
  predicate Finds(past: Past, positions: seq<nat>, records: seq<Record>) {
    && |positions| == |records|
    && (forall k :: 0 <= k < |positions| ==>
          positions[k] < |past.accepted| && records[k] == past.accepted[positions[k]])
    && (forall k, l :: 0 <= k < l < |positions| ==> positions[k] != positions[l])
  }

  /** Every position belongs to one of these batches. */
  predicate Among(past: Past, positions: seq<nat>, log: seq<string>)
    requires forall i :: 0 <= i < |log| ==> log[i] in past.published && log[i] in past.starts
  {
    forall k :: 0 <= k < |positions| ==>
      exists i :: 0 <= i < |log| &&
        past.starts[log[i]] <= positions[k] < past.starts[log[i]] + |past.published[log[i]]|
  }

  lemma Apart(past: Past, x: string, y: string)
    requires Stretches(past) && x in past.published && y in past.published && x != y
    ensures x in past.starts && y in past.starts
    ensures || past.starts[x] + |past.published[x]| <= past.starts[y]
            || past.starts[y] + |past.published[y]| <= past.starts[x]
  {
    assert PublishedPlaced(past, x) && PublishedPlaced(past, y);
  }

  lemma FindsMore(past: Past, positions: seq<nat>, records: seq<Record>, from: nat, taken: seq<Record>)
    requires Finds(past, positions, records) && from + |taken| <= |past.accepted|
    requires taken == past.accepted[from..from + |taken|]
    requires forall k :: 0 <= k < |positions| ==> positions[k] < from || from + |taken| <= positions[k]
    ensures Finds(past, positions + Stretch(from, |taken|), records + taken)
  {
  }

  lemma AmongMore(past: Past, positions: seq<nat>, log: seq<string>, id: string)
    requires forall i :: 0 <= i < |log| ==> log[i] in past.published && log[i] in past.starts
    requires id in past.published && id in past.starts && Among(past, positions, log)
    ensures Among(past, positions + Stretch(past.starts[id], |past.published[id]|), log + [id])
  {
    var more, whole := positions + Stretch(past.starts[id], |past.published[id]|), log + [id];
    forall k | 0 <= k < |more|
      ensures exists i :: 0 <= i < |whole| &&
                past.starts[whole[i]] <= more[k] < past.starts[whole[i]] + |past.published[whole[i]]|
    {
      if k < |positions| {
        var i :| 0 <= i < |log| && past.starts[log[i]] <= positions[k] < past.starts[log[i]] + |past.published[log[i]]|;
        assert whole[i] == log[i];
      } else {
        assert whole[|log|] == id;
      }
    }
  }

  /** Nothing found so far lies in the stretch of another batch. */
  lemma KeepsApart(past: Past, positions: seq<nat>, log: seq<string>, id: string)
    requires Stretches(past) && Took(past.(log := log + [id]))
    requires forall i :: 0 <= i < |log| ==> log[i] in past.published && log[i] in past.starts
    requires Among(past, positions, log) && id in past.published && id in past.starts
    ensures forall k :: 0 <= k < |positions| ==>
              positions[k] < past.starts[id] || past.starts[id] + |past.published[id]| <= positions[k]
  {
    forall k | 0 <= k < |positions|
      ensures positions[k] < past.starts[id] || past.starts[id] + |past.published[id]| <= positions[k]
    {
      var i :| 0 <= i < |log| && past.starts[log[i]] <= positions[k] < past.starts[log[i]] + |past.published[log[i]]|;
      assert (log + [id])[i] == log[i] && (log + [id])[|log|] == id;
      Apart(past, log[i], id);
    }
  }

  lemma TakenStart(past: Past, log: seq<string>)
    requires Stretches(past) && Took(past.(log := log))
    ensures forall i :: 0 <= i < |log| ==> log[i] in past.published && log[i] in past.starts
  {
    forall i | 0 <= i < |log| ensures log[i] in past.published && log[i] in past.starts {
      assert PublishedPlaced(past, log[i]);
    }
  }

  lemma TookFront(past: Past, front: seq<string>, id: string)
    requires Took(past.(log := front + [id]))
    ensures Took(past.(log := front)) && id in past.published
  {
    var log := front + [id];
    assert log[|front|] == id && forall i :: 0 <= i < |front| ==> log[i] == front[i];
  }

  lemma {:induction false} PositionsDiffer(past: Past, log: seq<string>)
    requires Stretches(past) && Took(past.(log := log))
    ensures forall i :: 0 <= i < |log| ==> log[i] in past.published && log[i] in past.starts
    ensures Finds(past, Positions(past, log), Records(past, log)) && Among(past, Positions(past, log), log)
  {
    TakenStart(past, log);
    if log == [] {
    } else {
      var front, id := log[..|log| - 1], log[|log| - 1];
      assert front + [id] == log && PublishedPlaced(past, id);
      TookFront(past, front, id);
      PositionsDiffer(past, front);
      KeepsApart(past, Positions(past, front), front, id);
      FindsMore(past, Positions(past, front), Records(past, front), past.starts[id], past.published[id]);
      AmongMore(past, Positions(past, front), front, id);
    }
  }

  /**
   In every run, whatever the clock does and however late or often batches arrive, the receiver holds each accepted
   record at most once.
   */
  lemma EachRecordAtMostOnce(trace: seq<Timed>)
    requires After(trace).Some?
    ensures var past := After(trace).value.past;
            && (forall i :: 0 <= i < |past.log| ==> past.log[i] in past.published && past.log[i] in past.starts)
            && Finds(past, Positions(past, past.log), Records(past, past.log))
  {
    EveryRunIsSafe(trace);
    var past := After(trace).value.past;
    assert past.(log := past.log) == past;
    PositionsDiffer(past, past.log);
  }
}
