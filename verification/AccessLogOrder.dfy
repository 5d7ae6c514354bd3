/**
 When the receiver holds the records in the order they were accepted: as long as no process asks for a batch at an
 earlier time than a process before it did, and no copy strays in of a batch that was never received.
 */
module AccessLogOrder {
  import opened Common
  import opened AccessLog
  import opened AccessLogRuns

  // ---------------------------------------------------------------- the invariant of orderly runs

  predicate TooOld(b: Batch, t: Option<int>) {
    t.Some? && !Fresh(b, t.value)
  }

  /**
   The receiver has it, or nothing later; otherwise it was too old to be sent when a process before this one asked.
   */
  predicate Ahead(past: Past, b: Batch, t: Option<int>) {
    && b.id in past.starts
    && (past.Taken(b.id) || past.frontier <= past.starts[b.id] || (b.sealed && TooOld(b, t)))
  }

  predicate AllAhead(past: Past, batches: seq<Batch>, t: Option<int>) {
    forall i :: 0 <= i < |batches| ==> Ahead(past, batches[i], t)
  }

  predicate Has(m: Memory, id: string) {
    exists c :: c in m.All() && c.id == id
  }

  /**
   A saved batch that the receiver does not have is in memory or too old to be sent; a halted process leaves it where it
   was.
   */
  predicate Accounted(past: Past, m: Memory, halted: bool, b: Batch, t: Option<int>) {
    past.Taken(b.id) || TooOld(b, t) || Has(m, b.id) || (halted && Ahead(past, b, t))
  }

  predicate FileAccounted(past: Past, m: Memory, halted: bool, file: Option<Saved>, t: Option<int>) {
    file.Some? ==> forall i :: 0 <= i < |file.value.All()| ==> Accounted(past, m, halted, file.value.All()[i], t)
  }

  /** The receiver's batches lie one behind the other. */
  predicate InOrder(past: Past) {
    && past.frontier <= |past.accepted|
    && (forall i :: 0 <= i < |past.log| ==>
          && past.log[i] in past.published && past.log[i] in past.starts
          && past.starts[past.log[i]] + |past.published[past.log[i]]| <= past.frontier
          && past.published[past.log[i]]
             == past.accepted[past.starts[past.log[i]]..past.starts[past.log[i]] + |past.published[past.log[i]]|])
    && (forall i, j :: 0 <= i < j < |past.log| ==>
          past.starts[past.log[i]] + |past.published[past.log[i]]| <= past.starts[past.log[j]])
  }

  predicate Offering(w: World) {
    w.offered && w.m.pending.Some? ==>
      && w.m.pending.value.id in w.past.starts
      && (w.past.Taken(w.m.pending.value.id) || w.past.frontier <= w.past.starts[w.m.pending.value.id])
  }

  predicate NotAfter(a: Option<int>, b: Option<int>) {
    a.Some? ==> b.Some? && a.value <= b.value
  }

  predicate Ordered(w: World) {
    && Safe(w) && AllAhead(w.past, w.m.All(), w.before)
    && FileAccounted(w.past, w.m, w.halted, w.file, w.latest)
    && InOrder(w.past) && Offering(w) && NotAfter(w.before, w.latest)
  }

  /** This process does not ask earlier than one before it did, and copies are of what the receiver has. */
  predicate Orderly(w: World, e: Event, now: int) {
    (e.Asked? ==> NotAfter(w.before, Some(now))) && (e.Strayed? ==> w.past.Taken(e.id))
  }

  // ---------------------------------------------------------------- growing old

  lemma OlderStays(b: Batch, t: Option<int>, u: Option<int>)
    requires NotAfter(t, u) && TooOld(b, t)
    ensures TooOld(b, u)
  {
  }

  /** A frozen batch in memory and in the file is the same batch. */
  lemma SameFrozen(past: Past, b: Batch, c: Batch)
    requires Placed(past, b) && Placed(past, c) && b.id == c.id && b.id in past.published
    ensures c.records == b.records && forall t :: Fresh(c, t) == Fresh(b, t)
  {
  }

  // ---------------------------------------------------------------- adding

  lemma GrownAhead(past: Past, grown: Past, b: Batch, c: Batch, t: Option<int>)
    requires Grows(past, grown) && Ahead(past, b, t) && (c == b || (c.id == b.id && !b.sealed))
    ensures Ahead(grown, c, t)
  {
  }

  lemma AddedAhead(past: Past, m: Memory, record: Record, drawn: Option<string>, t: Option<int>)
    requires AllAhead(past, m.All(), t) && Accepts(m, drawn) && past.frontier <= |past.accepted|
    requires !Open(m.queue) ==> drawn.value !in past.starts
    ensures AllAhead(AfterAdd(past, m, record, drawn), Append(m, record, drawn).All(), t)
  {
    var grown, all := AfterAdd(past, m, record, drawn), Append(m, record, drawn).All();
    AddKeepsStarts(past, m, record, drawn);
    if Open(m.queue) {
      LastGrows(m, record, drawn);
    } else {
      OneStarts(m, record, drawn);
    }
    forall i | 0 <= i < |all| ensures Ahead(grown, all[i], t) {
      if i < |m.All()| {
        assert Ahead(past, m.All()[i], t);
        GrownAhead(past, grown, m.All()[i], all[i], t);
      }
    }
  }

  lemma SameIds(m: Memory, record: Record, drawn: Option<string>, id: string)
    requires Has(m, id)
    ensures Has(Append(m, record, drawn), id)
  {
    var t := Append(m, record, drawn);
    var i :| 0 <= i < |m.All()| && m.All()[i].id == id;
    assert t.All()[i] in t.All() && t.All()[i].id == id;
  }

  lemma InOrderGrows(past: Past, grown: Past)
    requires InOrder(past) && Grows(past, grown)
    ensures InOrder(grown)
  {
  }

  lemma AddedFile(w: World, record: Record, drawn: Option<string>)
    requires FileAccounted(w.past, w.m, false, w.file, w.latest) && Grows(w.past, AfterAdd(w.past, w.m, record, drawn))
    ensures FileAccounted(AfterAdd(w.past, w.m, record, drawn), Append(w.m, record, drawn), false, w.file, w.latest)
  {
    if w.file.Some? {
      var all, grown := w.file.value.All(), AfterAdd(w.past, w.m, record, drawn);
      forall i | 0 <= i < |all| ensures Accounted(grown, Append(w.m, record, drawn), false, all[i], w.latest) {
        assert Accounted(w.past, w.m, false, all[i], w.latest);
        if Has(w.m, all[i].id) {
          SameIds(w.m, record, drawn, all[i].id);
        }
      }
    }
  }

  lemma AddedOrdered(w: World, record: Record, drawn: Option<string>, now: int)
    requires Ordered(w) && Possible(w, Added(record, drawn), now)
    ensures Ordered(Next(w, Added(record, drawn), now))
  {
    AddedSafe(w, record, drawn, now);
    if Accepts(w.m, drawn) {
      AddKeepsStarts(w.past, w.m, record, drawn);
      AddedAhead(w.past, w.m, record, drawn, w.before);
      AddedFile(w, record, drawn);
      InOrderGrows(w.past, AfterAdd(w.past, w.m, record, drawn));
    }
  }

  // ---------------------------------------------------------------- asking

  lemma {:induction false} FreshAhead(past: Past, queue: seq<Batch>, now: int, t: Option<int>)
    requires AllAhead(past, queue, t)
    ensures AllAhead(past, FreshOnes(queue, now), t)
  {
    if queue == [] {
    } else {
      var tail := queue[1..];
      assert forall i :: 0 <= i < |tail| ==> tail[i] == queue[i + 1];
      FreshAhead(past, tail, now, t);
      assert Ahead(past, queue[0], t);
    }
  }

  lemma QueueAhead(past: Past, m: Memory, t: Option<int>)
    requires AllAhead(past, m.All(), t)
    ensures AllAhead(past, m.queue, t)
  {
    var h := |HandedOut(m)|;
    forall i | 0 <= i < |m.queue| ensures Ahead(past, m.queue[i], t) {
      assert m.queue[i] == m.All()[h + i];
    }
  }

  /** What is handed out is fresh, and so not too old for any process before. */
  lemma NextAhead(past: Past, m: Memory, now: int, t: Option<int>)
    requires AllAhead(past, m.All(), t) && NotAfter(t, Some(now))
    ensures AllAhead(past, NextOf(m, now).All(), t)
    ensures NextOf(m, now).pending.Some? ==>
              var p := NextOf(m, now).pending.value;
              p.id in past.starts && (past.Taken(p.id) || past.frontier <= past.starts[p.id])
  {
    if m.pending.Some? && Fresh(m.pending.value, now) {
      assert m.All()[0] == m.pending.value && Ahead(past, m.All()[0], t);
    } else {
      var left := FreshOnes(m.queue, now);
      QueueAhead(past, m, t);
      FreshAhead(past, m.queue, now, t);
      if left != [] {
        FreshOnesAre(m.queue, now, left[0]);
        assert Ahead(past, left[0], t);
        FirstAhead(past, left, t);
      } else {
        assert NextOf(m, now).All() == [];
      }
    }
  }

  lemma FirstAhead(past: Past, left: seq<Batch>, t: Option<int>)
    requires left != [] && AllAhead(past, left, t)
    ensures AllAhead(past, [left[0].(sealed := true)] + left[1..], t)
  {
    var all := [left[0].(sealed := true)] + left[1..];
    forall i | 0 <= i < |all| ensures Ahead(past, all[i], t) {
      assert Ahead(past, left[i], t);
    }
  }

  lemma PublishedAhead(past: Past, now: Past, batches: seq<Batch>, all: seq<Batch>, t: Option<int>)
    requires Publishes(past, now, batches) && AllAhead(past, all, t)
    ensures AllAhead(now, all, t)
  {
    forall i | 0 <= i < |all| ensures Ahead(now, all[i], t) {
      assert Ahead(past, all[i], t);
    }
  }

  lemma InOrderPublished(past: Past, now: Past, batches: seq<Batch>)
    requires Publishes(past, now, batches) && InOrder(past)
    ensures InOrder(now)
  {
  }

  /** Asking drops nothing that is fresh. */
  lemma FreshStays(m: Memory, now: int, c: Batch)
    requires c in m.All() && Fresh(c, now)
    ensures Has(NextOf(m, now), c.id)
  {
    var t := NextOf(m, now);
    if m.pending.Some? && Fresh(m.pending.value, now) {
      assert t == m;
    } else {
      assert c in m.queue;
      var left := FreshOnes(m.queue, now);
      FreshOnesAre(m.queue, now, c);
      var i :| 0 <= i < |left| && left[i] == c;
      assert t.All()[i].id == c.id && t.All()[i] in t.All();
    }
  }

  lemma AskedFile(w: World, now: int)
    requires Safe(w) && !w.halted && FileAccounted(w.past, w.m, false, w.file, w.latest)
    ensures FileAccounted(w.past, NextOf(w.m, now), false, w.file, Later(w.latest, now))
  {
    if w.file.Some? {
      var all := w.file.value.All();
      forall i | 0 <= i < |all| ensures Accounted(w.past, NextOf(w.m, now), false, all[i], Later(w.latest, now)) {
        assert Accounted(w.past, w.m, false, all[i], w.latest) && Placed(w.past, all[i]);
        if TooOld(all[i], w.latest) {
          OlderStays(all[i], w.latest, Later(w.latest, now));
        } else if Has(w.m, all[i].id) {
          var c :| c in w.m.All() && c.id == all[i].id;
          IdsDrawn(w.past, w.m.All());
          SameFrozen(w.past, all[i], c);
          if Fresh(c, now) {
            FreshStays(w.m, now, c);
          } else {
            OlderStays(all[i], Some(now), Later(w.latest, now));
          }
        }
      }
    }
  }

  lemma AccountedPublished(past: Past, now: Past, batches: seq<Batch>, m: Memory, file: Option<Saved>, t: Option<int>)
    requires Publishes(past, now, batches) && FileAccounted(past, m, false, file, t)
    ensures FileAccounted(now, m, false, file, t)
  {
    if file.Some? {
      forall i | 0 <= i < |file.value.All()| ensures Accounted(now, m, false, file.value.All()[i], t) {
        assert Accounted(past, m, false, file.value.All()[i], t);
      }
    }
  }

  lemma AskedOrdered(w: World, now: int)
    requires Ordered(w) && Possible(w, Asked, now) && Orderly(w, Asked, now)
    ensures Ordered(Next(w, Asked, now))
  {
    var m := NextOf(w.m, now);
    var given, shown := HandedOut(m), Publish(w.past, HandedOut(m));
    AskedSafe(w, now);
    NextKeeps(w.m, now);
    NextKept(w.past, w.m, now);
    HandOut(w.past, m);
    NextAhead(w.past, w.m, now, w.before);
    PublishedAhead(w.past, shown, given, m.All(), w.before);
    AskedFile(w, now);
    AccountedPublished(w.past, shown, given, m, w.file, Later(w.latest, now));
    InOrderPublished(w.past, shown, given);
  }

  // ---------------------------------------------------------------- delivery and acknowledgement

  /** A first delivery moves the frontier to the end of the batch; what waits behind it is ahead of that. */
  lemma DeliveredAhead(past: Past, all: seq<Batch>, t: Option<int>)
    requires AllAhead(past, all, t) && AllPlaced(past, all) && all != [] && !past.Taken(all[0].id)
    ensures AllAhead(Deliver(past, all[0].id, all[0].records), all, t)
  {
    var now := Deliver(past, all[0].id, all[0].records);
    assert Placed(past, all[0]);
    forall i | 0 <= i < |all| ensures Ahead(now, all[i], t) {
      assert Ahead(past, all[i], t);
      assert i > 0 ==> EndOf(past, all[0]) <= past.starts[all[i].id];
    }
  }

  lemma DeliveredInOrder(past: Past, b: Batch)
    requires InOrder(past) && Placed(past, b) && b.id in past.published && past.frontier <= past.starts[b.id]
    requires !past.Taken(b.id)
    ensures InOrder(Deliver(past, b.id, b.records))
  {
    var now := Deliver(past, b.id, b.records);
    forall i, j | 0 <= i < j < |now.log|
      ensures now.starts[now.log[i]] + |now.published[now.log[i]]| <= now.starts[now.log[j]]
    {
      assert now.log[i] == past.log[i];
    }
  }

  lemma DeliveredFile(past: Past, m: Memory, file: Option<Saved>, b: Batch, t: Option<int>)
    requires FileAccounted(past, m, false, file, t)
    ensures FileAccounted(Deliver(past, b.id, b.records), m, false, file, t)
  {
    if file.Some? {
      var all, now := file.value.All(), Deliver(past, b.id, b.records);
      forall i | 0 <= i < |all| ensures Accounted(now, m, false, all[i], t) {
        assert Accounted(past, m, false, all[i], t);
      }
    }
  }

  lemma DeliveredOrdered(w: World, now: int)
    requires Ordered(w) && Possible(w, Delivered, now)
    ensures Ordered(Next(w, Delivered, now))
  {
    var p := w.m.pending.value;
    ArrivedSafe(w, p.id, p.records);
    assert w.m.All()[0] == p && Placed(w.past, w.m.All()[0]);
    if !w.past.Taken(p.id) {
      DeliveredAhead(w.past, w.m.All(), w.before);
      DeliveredInOrder(w.past, p);
      DeliveredFile(w.past, w.m, w.file, p, w.latest);
    }
  }

  lemma AckedFile(past: Past, m: Memory, id: string, halted: bool, file: Option<Saved>, t: Option<int>)
    requires FileAccounted(past, m, halted, file, t) && past.Taken(id)
    ensures FileAccounted(past, AckOf(m, id), halted, file, t)
  {
    if file.Some? {
      forall i | 0 <= i < |file.value.All()| ensures Accounted(past, AckOf(m, id), halted, file.value.All()[i], t) {
        var b := file.value.All()[i];
        assert Accounted(past, m, halted, b, t);
        if Has(m, b.id) && b.id != id {
          var c :| c in m.All() && c.id == b.id;
          assert c in AckOf(m, id).All();
        }
      }
    }
  }

  lemma AckedOrdered(w: World, id: string, now: int)
    requires Ordered(w) && Possible(w, Acked(id), now)
    ensures Ordered(Next(w, Acked(id), now))
  {
    AckedSafe(w, id);
    AckedFile(w.past, w.m, id, w.halted, w.file, w.latest);
    if w.m.pending.Some? && w.m.pending.value.id == id {
      QueueAhead(w.past, w.m, w.before);
      assert AckOf(w.m, id).All() == w.m.queue;
    }
  }

  // ---------------------------------------------------------------- saving and restarting

  lemma SealedAhead(past: Past, a: seq<Batch>, b: seq<Batch>, t: Option<int>)
    requires SomeSealed(a, b) && AllAhead(past, a, t)
    ensures AllAhead(past, b, t)
  {
    forall i | 0 <= i < |b| ensures Ahead(past, b[i], t) {
      assert Ahead(past, a[i], t);
    }
  }

  lemma SealedHas(m: Memory, id: string)
    requires Has(m, id)
    ensures Has(Sealed(m), id)
  {
    var i :| 0 <= i < |m.All()| && m.All()[i].id == id;
    assert Sealed(m).All()[i].id == id && Sealed(m).All()[i] in Sealed(m).All();
  }

  lemma SealedFile(past: Past, m: Memory, file: Option<Saved>, t: Option<int>)
    requires FileAccounted(past, m, false, file, t)
    ensures FileAccounted(past, Sealed(m), false, file, t)
            && FileAccounted(past, Sealed(m), false, Written(Sealed(m)), t)
  {
    if file.Some? {
      forall i | 0 <= i < |file.value.All()| ensures Accounted(past, Sealed(m), false, file.value.All()[i], t) {
        assert Accounted(past, m, false, file.value.All()[i], t);
        if Has(m, file.value.All()[i].id) {
          SealedHas(m, file.value.All()[i].id);
        }
      }
    }
    var all := Sealed(m).All();
    assert SavedOf(Sealed(m)).All() == all;
    forall i | 0 <= i < |all| ensures Accounted(past, Sealed(m), false, all[i], t) {
      assert all[i] in all;
    }
  }

  /** What sealing and publishing everything held means for the order. */
  lemma CheckpointedParts(w: World, m: Memory, shown: Past)
    requires Ordered(w) && !w.halted && m == Sealed(w.m) && shown == Publish(w.past, m.All())
    ensures AllAhead(shown, m.All(), w.before) && InOrder(shown)
    ensures FileAccounted(shown, m, false, w.file, w.latest) && FileAccounted(shown, m, false, Written(m), w.latest)
  {
    SealedAll(w.m);
    SealingPublishes(w.past, w.m);
    SealedAhead(w.past, w.m.All(), m.All(), w.before);
    PublishedAhead(w.past, shown, m.All(), m.All(), w.before);
    SealedFile(w.past, w.m, w.file, w.latest);
    AccountedPublished(w.past, shown, m.All(), m, w.file, w.latest);
    AccountedPublished(w.past, shown, m.All(), m, Written(m), w.latest);
    InOrderPublished(w.past, shown, m.All());
  }

  lemma CheckpointedOrdered(w: World, written: bool, now: int)
    requires Ordered(w) && Possible(w, Checkpointed(written), now)
    ensures Ordered(Next(w, Checkpointed(written), now))
  {
    var m := Sealed(w.m);
    CheckpointedSafe(w, written, now);
    CheckpointedParts(w, m, Publish(w.past, m.All()));
  }

  /** Wherever a saved batch is accounted for, it is ahead for the processes to come. */
  lemma SavedAhead(w: World, b: Batch)
    requires Ordered(w) && Placed(w.past, b) && b.sealed && b.id in w.past.published
    requires Accounted(w.past, w.m, w.halted, b, w.latest)
    ensures Ahead(w.past, b, w.latest)
  {
    if !w.past.Taken(b.id) && !TooOld(b, w.latest) && Has(w.m, b.id) {
      var c :| c in w.m.All() && c.id == b.id;
      var i :| 0 <= i < |w.m.All()| && w.m.All()[i] == c;
      assert Placed(w.past, w.m.All()[i]) && Ahead(w.past, w.m.All()[i], w.before);
      SameFrozen(w.past, b, c);
      if TooOld(c, w.before) {
        OlderStays(b, w.before, w.latest);
      }
    }
  }

  lemma FileAhead(w: World)
    requires Ordered(w) && w.file.Some?
    ensures AllAhead(w.past, w.file.value.All(), w.latest)
  {
    var all := w.file.value.All();
    forall i | 0 <= i < |all| ensures Ahead(w.past, all[i], w.latest) {
      assert Placed(w.past, all[i]) && Accounted(w.past, w.m, w.halted, all[i], w.latest);
      SavedAhead(w, all[i]);
    }
  }

  lemma HasAll(m: Memory)
    ensures forall i :: 0 <= i < |m.All()| ==> Has(m, m.All()[i].id)
  {
    forall i | 0 <= i < |m.All()| ensures Has(m, m.All()[i].id) {
      assert m.All()[i] in m.All();
    }
  }

  /** A file that is taken over: every batch is in memory and ahead. */
  lemma RestoredOrdered(w: World, now: int)
    requires Ordered(w) && w.file.Some? && Restores(w.file, now)
    ensures AllAhead(w.past, Restored(w.file.value).All(), w.latest)
    ensures FileAccounted(w.past, Restored(w.file.value), false, w.file, w.latest)
  {
    FileAhead(w);
    FileReturns(w.past, w.file.value);
    HasAll(Restored(w.file.value));
  }

  /** A file that cannot be taken over is left as it is. */
  lemma HaltedOrdered(w: World)
    requires Ordered(w)
    ensures FileAccounted(w.past, Empty, true, w.file, w.latest)
  {
    if w.file.Some? {
      FileAhead(w);
      var all := w.file.value.All();
      forall i | 0 <= i < |all| ensures Accounted(w.past, Empty, true, all[i], w.latest) {
        assert Ahead(w.past, all[i], w.latest);
      }
    }
  }

  function Resumed(w: World, m: Memory, halted: bool): World {
    w.(m := m, before := w.latest, offered := false, halted := halted)
  }

  lemma ResumedOrdered(w: World, m: Memory, halted: bool)
    requires Ordered(w) && Safe(Resumed(w, m, halted)) && AllAhead(w.past, m.All(), w.latest)
    requires FileAccounted(w.past, m, halted, w.file, w.latest)
    ensures Ordered(Resumed(w, m, halted))
  {
  }

  lemma RestartedOrdered(w: World, now: int)
    requires Ordered(w)
    ensures Ordered(Next(w, Restarted, now))
  {
    RestartedSafe(w, now);
    var m := Rebooted(w.file, now);
    assert Next(w, Restarted, now) == Resumed(w, m, !Restores(w.file, now));
    if w.file.Some? && Restores(w.file, now) {
      RestoredOrdered(w, now);
    } else {
      HaltedOrdered(w);
      assert Empty.All() == [];
    }
    ResumedOrdered(w, m, !Restores(w.file, now));
  }

  lemma StepKeepsOrdered(w: World, e: Event, now: int)
    requires Ordered(w) && Possible(w, e, now) && Orderly(w, e, now)
    ensures Ordered(Next(w, e, now))
  {
    match e
    case Added(record, drawn) => AddedOrdered(w, record, drawn, now);
    case Asked => AskedOrdered(w, now);
    case Delivered => DeliveredOrdered(w, now);
    case Strayed(id) =>
    case Acked(id) => AckedOrdered(w, id, now);
    case Checkpointed(written) => CheckpointedOrdered(w, written, now);
    case Restarted => RestartedOrdered(w, now);
  }

  // ---------------------------------------------------------------- over whole runs

  /** No process asks at an earlier time than a process before it did; within a process the clock may do anything. */
  predicate AsksForward(trace: seq<Timed>) {
    forall i, k, j :: 0 <= i < k < j < |trace| && trace[i].event.Asked? && trace[k].event.Restarted?
                      && trace[j].event.Asked? ==>
      trace[i].now <= trace[j].now
  }

  /** Copies stray in only of batches that the receiver has. */
  predicate NoSurprise(trace: seq<Timed>) {
    forall i :: 0 <= i < |trace| && trace[i].event.Strayed? && After(trace[..i]).Some? ==>
      After(trace[..i]).value.past.Taken(trace[i].event.id)
  }

  predicate AskedAt(trace: seq<Timed>, i: int, t: int) {
    0 <= i < |trace| && trace[i].event.Asked? && trace[i].now == t
  }

  predicate RestartedAt(trace: seq<Timed>, k: int) {
    0 <= k < |trace| && trace[k].event.Restarted?
  }

  /** Both times that the world keeps were times of asking, `before` ahead of a restart. */
  lemma {:induction false} TimesOfAsking(trace: seq<Timed>)
    requires After(trace).Some?
    ensures After(trace).value.latest.Some? ==> exists i :: AskedAt(trace, i, After(trace).value.latest.value)
    ensures After(trace).value.before.Some? ==>
              exists i, k :: AskedAt(trace, i, After(trace).value.before.value) && i < k && RestartedAt(trace, k)
  {
    if trace == [] {
    } else {
      var n := |trace| - 1;
      var front, v, w := trace[..n], After(trace[..n]).value, After(trace).value;
      TimesOfAsking(front);
      if v.latest.Some? {
        var i :| AskedAt(front, i, v.latest.value);
        assert AskedAt(trace, i, v.latest.value);
        if trace[n].event.Restarted? {
          assert RestartedAt(trace, n);
        }
      }
      if trace[n].event.Asked? {
        assert AskedAt(trace, n, trace[n].now);
      }
      if v.before.Some? {
        var i, k :| AskedAt(front, i, v.before.value) && i < k && RestartedAt(front, k);
        assert AskedAt(trace, i, v.before.value) && RestartedAt(trace, k);
      }
    }
  }

  lemma LastIsOrderly(trace: seq<Timed>)
    requires trace != [] && After(trace).Some? && AsksForward(trace) && NoSurprise(trace)
    ensures After(trace[..|trace| - 1]).Some?
    ensures Orderly(After(trace[..|trace| - 1]).value, trace[|trace| - 1].event, trace[|trace| - 1].now)
  {
    var n := |trace| - 1;
    var front, w := trace[..n], After(trace[..n]).value;
    TimesOfAsking(front);
    if trace[n].event.Asked? && w.before.Some? {
      var i, k :| AskedAt(front, i, w.before.value) && i < k && RestartedAt(front, k);
      assert trace[i] == front[i] && trace[k] == front[k];
    }
  }

  lemma FrontOrderly(trace: seq<Timed>)
    requires trace != [] && AsksForward(trace) && NoSurprise(trace)
    ensures AsksForward(trace[..|trace| - 1]) && NoSurprise(trace[..|trace| - 1])
  {
    var front := trace[..|trace| - 1];
    forall i | 0 <= i < |front| ensures front[..i] == trace[..i] && front[i] == trace[i] {
    }
  }

  lemma {:induction false} EveryRunIsOrdered(trace: seq<Timed>)
    requires After(trace).Some? && AsksForward(trace) && NoSurprise(trace)
    ensures Ordered(After(trace).value)
  {
    if trace == [] {
      assert Empty.All() == [];
    } else {
      var last := trace[|trace| - 1];
      FrontOrderly(trace);
      LastIsOrderly(trace);
      EveryRunIsOrdered(trace[..|trace| - 1]);
      StepKeepsOrdered(After(trace[..|trace| - 1]).value, last.event, last.now);
    }
  }

  // ---------------------------------------------------------------- what the receiver holds

  /** Ascending positions of these records, all before `end`. */
  predicate Locates(past: Past, positions: seq<nat>, records: seq<Record>, end: nat) {
    && |positions| == |records| && end <= |past.accepted|
    && (forall k :: 0 <= k < |positions| ==> positions[k] < end && records[k] == past.accepted[positions[k]])
    && (forall k, l :: 0 <= k < l < |positions| ==> positions[k] < positions[l])
  }

  lemma LocatesMore(past: Past, positions: seq<nat>, records: seq<Record>, end: nat, from: nat, taken: seq<Record>)
    requires Locates(past, positions, records, end) && end <= from && from + |taken| <= |past.accepted|
    requires taken == past.accepted[from..from + |taken|]
    ensures Locates(past, positions + Stretch(from, |taken|), records + taken, from + |taken|)
  {
  }

  lemma LocatesLater(past: Past, positions: seq<nat>, records: seq<Record>, end: nat, later: nat)
    requires Locates(past, positions, records, end) && end <= later <= |past.accepted|
    ensures Locates(past, positions, records, later)
  {
  }

  function EndOfLog(past: Past, log: seq<string>): nat
    requires forall i :: 0 <= i < |log| ==> log[i] in past.published && log[i] in past.starts
  {
    if log == [] then 0 else past.starts[log[|log| - 1]] + |past.published[log[|log| - 1]]|
  }

  lemma InOrderFront(past: Past, front: seq<string>, id: string)
    requires InOrder(past.(log := front + [id]))
    ensures InOrder(past.(log := front)) && id in past.published && id in past.starts
    ensures EndOfLog(past, front) <= past.starts[id] && past.starts[id] + |past.published[id]| <= |past.accepted|
    ensures past.published[id] == past.accepted[past.starts[id]..past.starts[id] + |past.published[id]|]
  {
    var log := front + [id];
    assert log[|front|] == id && forall i :: 0 <= i < |front| ==> log[i] == front[i];
    assert front != [] ==> log[|front| - 1] == front[|front| - 1];
  }

  lemma {:induction false} PositionsAscend(past: Past, log: seq<string>)
    requires InOrder(past.(log := log))
    ensures Locates(past, Positions(past, log), Records(past, log), EndOfLog(past, log))
  {
    if log == [] {
    } else {
      var front, id := log[..|log| - 1], log[|log| - 1];
      assert front + [id] == log;
      InOrderFront(past, front, id);
      PositionsAscend(past, front);
      LocatesMore(past, Positions(past, front), Records(past, front), EndOfLog(past, front), past.starts[id],
                  past.published[id]);
    }
  }

  /**
   In every run in which no process asks earlier than one before it and no copy strays in of what was never received,
   the receiver holds each accepted record at most once, and in the order they were accepted.
   */
  lemma EachRecordOnceInOrder(trace: seq<Timed>)
    requires After(trace).Some? && AsksForward(trace) && NoSurprise(trace)
    ensures var past := After(trace).value.past;
            && (forall i :: 0 <= i < |past.log| ==> past.log[i] in past.published && past.log[i] in past.starts)
            && Locates(past, Positions(past, past.log), Records(past, past.log), |past.accepted|)
  {
    EveryRunIsOrdered(trace);
    var past := After(trace).value.past;
    PositionsAscend(past, past.log);
    LocatesLater(past, Positions(past, past.log), Records(past, past.log), EndOfLog(past, past.log), |past.accepted|);
  }

  // ---------------------------------------------------------------- when the clock is set back

  predicate NoStray(trace: seq<Timed>) {
    forall i :: 0 <= i < |trace| ==> !trace[i].event.Strayed?
  }

  predicate NoRestart(trace: seq<Timed>) {
    forall i :: 0 <= i < |trace| ==> !trace[i].event.Restarted?
  }

  lemma NoStrayNoSurprise(trace: seq<Timed>)
    requires NoStray(trace)
    ensures NoSurprise(trace)
  {
  }

  lemma AfterMore(trace: seq<Timed>, e: Event, now: int)
    requires After(trace).Some? && Possible(After(trace).value, e, now)
    ensures After(trace + [Timed(e, now)]) == Some(Next(After(trace).value, e, now))
    ensures NoStray(trace) && !e.Strayed? ==> NoStray(trace + [Timed(e, now)])
    ensures NoRestart(trace) && !e.Restarted? ==> NoRestart(trace + [Timed(e, now)])
  {
    assert (trace + [Timed(e, now)])[..|trace|] == trace;
  }

  lemma TakenFirst(record: Record, id: string) returns (trace: seq<Timed>)
    requires ValidRecord(record)
    ensures After(trace).Some? && NoStray(trace) && NoRestart(trace)
    ensures var w := After(trace).value;
            !w.halted && w.m == Memory([Batch(id, [record], false)], None, 1) &&
            w.past == Past([record], map[id := 0], map[], [], 0)
  {
    AfterMore([], Added(record, Some(id)), record.at);
    trace := [] + [Timed(Added(record, Some(id)), record.at)];
  }

  /** A record is taken in, and saved in a batch of its own. */
  lemma SavedFirst(record: Record, id: string) returns (trace: seq<Timed>)
    requires ValidRecord(record)
    ensures After(trace).Some? && NoStray(trace) && NoRestart(trace)
    ensures var w, batch := After(trace).value, Batch(id, [record], true);
            && !w.halted && w.m == Memory([batch], None, 1) && w.file == Some(Saved(None, [batch]))
            && w.past == Past([record], map[id := 0], map[id := [record]], [], 0)
  {
    trace := TakenFirst(record, id);
    var w, batch := After(trace).value, Batch(id, [record], true);
    AfterMore(trace, Checkpointed(true), record.at);
    trace := trace + [Timed(Checkpointed(true), record.at)];
    assert SealAll(w.m.queue) == [batch];
    assert Sealed(w.m).All() == [batch];
    assert Contents([batch]) == map[id := [record]];
  }

  /** Grown too old, waiting or handed out, the batch is dropped, and a later record is taken in. */
  lemma DroppedForLater(before: seq<Timed>, record: Record, id: string, later: Record, next: string)
    returns (trace: seq<Timed>)
    requires After(before).Some? && NoStray(before) && ValidRecord(later) && id != next
             && record.at + RETENTION < later.at
    requires var w := After(before).value;
             && (w.m == Memory([Batch(id, [record], true)], None, 1)
                 || w.m == Memory([], Some(Batch(id, [record], true)), 1))
             && !w.halted && next !in w.past.starts
    ensures After(trace).Some? && NoStray(trace) && (NoRestart(before) ==> NoRestart(trace))
    ensures var w, v := After(before).value, After(trace).value;
            && !v.halted && v.file == w.file && v.m == Memory([Batch(next, [later], false)], None, 1)
            && v.past == w.past.(accepted := w.past.accepted + [later],
                                 starts := w.past.starts[next := |w.past.accepted|])
  {
    AfterMore(before, Asked, later.at);
    trace := before + [Timed(Asked, later.at)];
    assert FreshOnes([Batch(id, [record], true)], later.at) == [];
    assert After(trace).value.m == Empty;
    AfterMore(trace, Added(later, Some(next)), later.at);
    trace := trace + [Timed(Added(later, Some(next)), later.at)];
  }

  lemma OneFresh(batch: Batch, now: int)
    requires |batch.records| == 1 && batch.records[0].at >= now - RETENTION
    ensures Fresh(batch, now) && FreshOnes([batch], now) == [batch]
  {
    assert FreshOnes([batch][1..], now) == [];
  }

  /** The only batch waiting is handed out. */
  lemma AskedFor(before: seq<Timed>, batch: Batch, now: int) returns (trace: seq<Timed>)
    requires After(before).Some? && NoStray(before) && |batch.records| == 1 && batch.records[0].at >= now - RETENTION
    requires !After(before).value.halted && After(before).value.m == Memory([batch], None, 1)
    ensures After(trace).Some? && NoStray(trace) && (NoRestart(before) ==> NoRestart(trace))
    ensures var w, v, sealed := After(before).value, After(trace).value, batch.(sealed := true);
            && !v.halted && v.offered && v.file == w.file && v.m == Memory([], Some(sealed), 1)
            && v.past == Publish(w.past, [sealed])
  {
    OneFresh(batch, now);
    AfterMore(before, Asked, now);
    trace := before + [Timed(Asked, now)];
    assert Held([batch]) == 1 by {
      HeldOne(batch);
    }
    assert [batch][1..] == [];
  }

  /** The only batch waiting is handed out and delivered. */
  lemma HandedOver(before: seq<Timed>, batch: Batch, now: int) returns (trace: seq<Timed>)
    requires After(before).Some? && NoStray(before) && |batch.records| == 1 && batch.records[0].at >= now - RETENTION
    requires var w := After(before).value;
             !w.halted && w.m == Memory([batch], None, 1) && batch.id in w.past.starts && !w.past.Taken(batch.id)
    ensures After(trace).Some? && NoStray(trace) && (NoRestart(before) ==> NoRestart(trace))
    ensures var w, v := After(before).value, After(trace).value;
            && !v.halted && v.file == w.file && v.past.accepted == w.past.accepted && v.past.starts == w.past.starts
            && v.past.log == w.past.log + [batch.id]
            && v.past.published == Publish(w.past, [batch.(sealed := true)]).published
  {
    trace := AskedFor(before, batch, now);
    AfterMore(trace, Delivered, now);
    trace := trace + [Timed(Delivered, now)];
  }

  /** After a restart with the clock set back, the file's batch is not too old any more. */
  lemma RestoredAgain(before: seq<Timed>, record: Record, id: string) returns (trace: seq<Timed>)
    requires After(before).Some? && NoStray(before) && ValidRecord(record)
    requires After(before).value.file == Some(Saved(None, [Batch(id, [record], true)]))
    ensures After(trace).Some? && NoStray(trace)
    ensures !After(trace).value.halted && After(trace).value.m == Memory([Batch(id, [record], true)], None, 1)
    ensures After(trace).value.past == After(before).value.past
  {
    var saved := Saved(None, [Batch(id, [record], true)]);
    RestorableSingle(record, id);
    AfterMore(before, Restarted, record.at);
    trace := before + [Timed(Restarted, record.at)];
  }

  lemma RestorableSingle(record: Record, id: string)
    requires ValidRecord(record)
    ensures var saved := Saved(None, [Batch(id, [record], true)]);
            RestorableBatches(saved, record.at) && Restored(saved) == Memory(saved.queue, None, 1)
  {
    var saved := Saved(None, [Batch(id, [record], true)]);
    assert saved.All() == saved.queue;
    HeldOne(saved.queue[0]);
    RestorableWhen(saved, record.at);
    assert SealAll(saved.queue) == saved.queue;
  }

  lemma LogInOrder(past: Past, i: nat, j: nat)
    requires InOrder(past) && i < j < |past.log|
    ensures past.log[i] in past.starts && past.log[j] in past.starts
            && past.starts[past.log[i]] <= past.starts[past.log[j]]
  {
  }

  /**
   Why the clock matters for the order: a run in which the clock is set back before a restart, and the receiver takes a
   batch behind one that was accepted after it.
   */
  lemma ClockBackReorders(record: Record, id: string, later: Record, next: string) returns (trace: seq<Timed>)
    requires ValidRecord(record) && ValidRecord(later) && id != next && record.at + RETENTION < later.at
    ensures After(trace).Some? && NoStray(trace) && !AsksForward(trace)
    ensures var past := After(trace).value.past;
            past.log == [next, id] && past.starts == map[id := 0, next := 1]
  {
    trace := SavedFirst(record, id);
    trace := DroppedForLater(trace, record, id, later, next);
    trace := HandedOver(trace, Batch(next, [later], false), later.at);
    trace := RestoredAgain(trace, record, id);
    trace := HandedOver(trace, Batch(id, [record], true), record.at);
    if AsksForward(trace) {
      NoStrayNoSurprise(trace);
      EveryRunIsOrdered(trace);
      LogInOrder(After(trace).value.past, 0, 1);
      assert false;
    }
  }

  /** A batch is handed out and does not arrive; it grows too old, and the next one is taken. */
  lemma TakenAfterLost(record: Record, id: string, later: Record, next: string) returns (trace: seq<Timed>)
    requires ValidRecord(record) && ValidRecord(later) && id != next && record.at + RETENTION < later.at
    ensures After(trace).Some? && NoStray(trace) && NoRestart(trace)
    ensures var past := After(trace).value.past;
            past.log == [next] && past.starts == map[id := 0, next := 1] && id in past.published
  {
    trace := SavedFirst(record, id);
    trace := AskedFor(trace, Batch(id, [record], true), record.at);
    trace := DroppedForLater(trace, record, id, later, next);
    trace := HandedOver(trace, Batch(next, [later], false), later.at);
  }

  /**
   Why copies matter for the order: a run without restarts in which a batch that was handed out grows too old, the next
   one is taken, and the first one, long under way, still arrives.
   */
  lemma LateCopyReorders(record: Record, id: string, later: Record, next: string) returns (trace: seq<Timed>)
    requires ValidRecord(record) && ValidRecord(later) && id != next && record.at + RETENTION < later.at
    ensures After(trace).Some? && NoRestart(trace) && AsksForward(trace) && !NoSurprise(trace)
    ensures var past := After(trace).value.past;
            past.log == [next, id] && past.starts == map[id := 0, next := 1]
  {
    var before := TakenAfterLost(record, id, later, next);
    AfterMore(before, Strayed(id), later.at);
    trace := before + [Timed(Strayed(id), later.at)];
    assert trace[..|before|] == before && trace[|before|].event == Strayed(id);
  }
}
