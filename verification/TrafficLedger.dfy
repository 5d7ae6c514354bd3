/** Where every metered byte comes from: totals against readings, over whole runs, and readings against real traffic. */
module TrafficLedger {
  import opened Common
  import opened TrafficMeter

  // ---------------------------------------------------------------- the books

  /** The sum of what successive readings have counted. */
  ghost function Gained(readings: seq<Reading>): Bytes {
    if |readings| < 2 then Nothing
    else Gained(readings[..|readings| - 1]).Plus(Increment(readings[|readings| - 2], readings[|readings| - 1]))
  }

  /**
   Beside the meter: the total it opened its epoch with, the totals of the periods it has closed, what panel echoes
   raised totals by, and the readings used since the zero point was last set. `before` is what earlier zero points led
   to, and `clipped` says that a total has reached the largest number the meter can hold.
   */
  datatype Book = Book(opening: Bytes, closed: Bytes, raised: Bytes, before: Bytes, readings: seq<Reading>,
                       clipped: bool)

  const Blank: Book := Book(Nothing, Nothing, Nothing, Nothing, [], false)

  datatype World = World(m: Memory, book: Book, disk: Option<(Stored, Book)>)

  datatype Event =
    | Applied(policy: Policy, now: int, saved: bool)
    | Ticked(now: int, period: (int, int), reading: Option<Reading>, saved: bool)
    | Rebooted(blank: Stored)

  ghost function Cleared(book: Book): Book {
    book.(before := book.before.Plus(Gained(book.readings)), readings := [])
  }

  ghost function RollBook(book: Book, m: Memory, now: int): Book {
    if now < m.state.policy.periodEnd then book
    else
      var closing := book.(closed := book.closed.Plus(m.state.sample.total));
      if m.lost then Cleared(closing) else closing
  }

  predicate Consumes(m: Memory, reading: Option<Reading>) {
    m.state.policy.mode != Proxy && !m.lost && Readable(reading)
  }

  ghost function MeasureBook(book: Book, m: Memory, reading: Option<Reading>): Book {
    if !Consumes(m, reading) then book
    else
      var sum := m.state.sample.total.Plus(Increment(m.state.previous, reading.value));
      book.(readings := book.readings + [reading.value],
            clipped := book.clipped || (m.state.previous.boot != "" && sum != Clip(sum)))
  }

  ghost function TickBook(book: Book, m: Memory, now: int, period: (int, int), reading: Option<Reading>): Book {
    if !m.loaded then book else MeasureBook(RollBook(book, m, now), RollOver(m, now, period), reading)
  }

  function Difference(more: Bytes, less: Bytes): Bytes {
    Bytes(if more.rx >= less.rx then more.rx - less.rx else 0, if more.tx >= less.tx then more.tx - less.tx else 0)
  }

  ghost function AdoptBook(book: Book, m: Memory, q: Policy): Book {
    var p, t := Adjusted(q, m.state.policy), SameEpoch(m, q);
    var later := p.periodStart > m.state.policy.periodStart;
    var turned := if later then book.(closed := book.closed.Plus(m.state.sample.total)) else book;
    var kept := if (later && m.lost) || p.interfaces != m.state.policy.interfaces then Cleared(turned) else turned;
    kept.(raised := kept.raised.Plus(Difference(t.state.sample.total, if later then Nothing else m.state.sample.total)))
  }

  ghost function ApplyBook(book: Book, m: Memory, p: Policy): Book {
    if Ignored(m, p) then book
    else if !m.loaded || p.epoch != m.state.policy.epoch then Blank.(opening := p.total)
    else AdoptBook(book, m, p)
  }

  /** A process starting on the file: everything since the last successful write is forgotten, books included. */
  ghost function Reborn(w: World, blank: Stored): World {
    match w.disk
    case None => w.(m := Memory(blank, false, false, false, None), book := Blank)
    case Some(d) =>
      w.(m := Memory(d.0, d.0.policy.epoch > 0, d.0.policy.epoch == 0 || d.0.sample.fault == StateLost, false, None),
         book := d.1)
  }

  ghost function Next(w: World, e: Event): World {
    match e
    case Applied(p, now, saved) =>
      if Ignored(w.m, p) then w
      else
        var t, book := ApplyOf(w.m, p, now, saved), ApplyBook(w.book, w.m, p);
        World(t, book, if saved then Some((t.state, book)) else w.disk)
    case Ticked(now, period, reading, saved) =>
      if !w.m.loaded then w
      else
        var t, book := TickOf(w.m, now, period, reading, saved), TickBook(w.book, w.m, now, period, reading);
        World(t, book, if saved then Some((t.state, book)) else w.disk)
    case Rebooted(blank) => Reborn(w, blank)
  }

  // ---------------------------------------------------------------- they balance

  ghost predicate Balanced(state: Stored, book: Book) {
    && state.previous == (if book.readings == [] then NoReading else book.readings[|book.readings| - 1])
    && (forall i :: 0 <= i < |book.readings| ==> book.readings[i].boot != "")
    && (!book.clipped ==>
          book.closed.Plus(state.sample.total)
          == book.opening.Plus(book.raised).Plus(book.before).Plus(Gained(book.readings)))
  }

  ghost predicate Good(w: World) {
    && (w.m.loaded ==> Balanced(w.m.state, w.book))
    && (w.disk.Some? ==> w.disk.value.0.policy.epoch > 0 && Balanced(w.disk.value.0, w.disk.value.1))
    && (w.m.loaded ==> w.m.state.policy.epoch > 0 && w.m.state.sample.periodStart == w.m.state.policy.periodStart)
    && (w.disk.Some? ==> w.disk.value.0.sample.periodStart == w.disk.value.0.policy.periodStart)
  }

  lemma RollBalances(m: Memory, book: Book, now: int, period: (int, int))
    requires Balanced(m.state, book)
    ensures Balanced(RollOver(m, now, period).state, RollBook(book, m, now))
  {
  }

  lemma MeasureBalances(m: Memory, book: Book, reading: Option<Reading>)
    requires Balanced(m.state, book)
    ensures Balanced(Measured(m, reading).state, MeasureBook(book, m, reading))
  {
    if Consumes(m, reading) {
      ConsumeBalances(m, book, reading.value);
    } else {
      UnmeasuredSame(m, reading);
    }
  }

  /** In proxy mode, after a loss or without a reading, neither total nor zero point moves. */
  lemma UnmeasuredSame(m: Memory, reading: Option<Reading>)
    requires !Consumes(m, reading)
    ensures Measured(m, reading).state.sample.total == m.state.sample.total
    ensures Measured(m, reading).state.previous == m.state.previous
            && Measured(m, reading).state.policy == m.state.policy
  {
    if m.state.policy.mode == Proxy {
    } else if m.lost {
    } else {
      assert !Readable(reading);
    }
  }

  lemma GainedMore(readings: seq<Reading>, reading: Reading)
    ensures Gained(readings + [reading])
         == if readings == [] then Nothing else Gained(readings).Plus(Increment(readings[|readings| - 1], reading))
  {
    var more := readings + [reading];
    assert more[..|more| - 1] == readings;
    assert readings != [] ==> more[|more| - 2] == readings[|readings| - 1];
  }

  lemma ConsumeBalances(m: Memory, book: Book, reading: Reading)
    requires Balanced(m.state, book) && Consumes(m, Some(reading))
    ensures Balanced(Measured(m, Some(reading)).state, MeasureBook(book, m, Some(reading)))
  {
    GainedMore(book.readings, reading);
    var t := Measured(m, Some(reading)).state;
    assert t.previous == reading;
    var sum := m.state.sample.total.Plus(Increment(m.state.previous, reading));
    if book.readings == [] {
      assert t.sample.total == m.state.sample.total;
    } else {
      assert t.sample.total == Clip(sum);
    }
  }

  lemma TickBalances(m: Memory, book: Book, now: int, period: (int, int), reading: Option<Reading>, saved: bool)
    requires m.loaded && Balanced(m.state, book)
    ensures Balanced(TickOf(m, now, period, reading, saved).state, TickBook(book, m, now, period, reading))
  {
    RollBalances(m, book, now, period);
    MeasureBalances(RollOver(m, now, period), RollBook(book, m, now), reading);
  }

  lemma AdoptBalances(m: Memory, book: Book, p: Policy)
    requires m.loaded && Balanced(m.state, book) && m.state.sample.periodStart == m.state.policy.periodStart
    ensures Balanced(SameEpoch(m, p).state, AdoptBook(book, m, p))
    ensures SameEpoch(m, p).state.sample.periodStart == SameEpoch(m, p).state.policy.periodStart
  {
  }

  lemma AppliedKeepsGood(w: World, p: Policy, now: int, saved: bool)
    requires Good(w)
    ensures Good(Next(w, Applied(p, now, saved)))
  {
    if ValidPolicy(p) && w.m.loaded && w.m.state.policy.revision <= p.revision && p.epoch == w.m.state.policy.epoch {
      AdoptBalances(w.m, w.book, p);
    }
  }

  lemma TickedKeepsGood(w: World, now: int, period: (int, int), reading: Option<Reading>, saved: bool)
    requires Good(w)
    ensures Good(Next(w, Ticked(now, period, reading, saved)))
  {
    if w.m.loaded {
      TickBalances(w.m, w.book, now, period, reading, saved);
    }
  }

  lemma StepKeepsGood(w: World, e: Event)
    requires Good(w)
    ensures Good(Next(w, e))
  {
    match e
    case Applied(p, now, saved) => AppliedKeepsGood(w, p, now, saved);
    case Ticked(now, period, reading, saved) => TickedKeepsGood(w, now, period, reading, saved);
    case Rebooted(blank) =>
  }

  /** What a series of events makes of a world. */
  ghost function Run(w: World, trace: seq<Event>): World {
    if trace == [] then w else Next(Run(w, trace[..|trace| - 1]), trace[|trace| - 1])
  }

  function FirstStart(blank: Stored): World {
    World(Memory(blank, false, false, false, None), Blank, None)
  }

  ghost function After(trace: seq<Event>, blank: Stored): World {
    Run(FirstStart(blank), trace)
  }

  lemma {:induction false} EveryRunIsGood(trace: seq<Event>, blank: Stored)
    ensures Good(After(trace, blank))
  {
    if trace == [] {
    } else {
      EveryRunIsGood(trace[..|trace| - 1], blank);
      StepKeepsGood(After(trace[..|trace| - 1], blank), trace[|trace| - 1]);
    }
  }

  /**
   In every run, whatever reads failed, wherever periods ended and however often the process restarted, what all periods
   of the epoch have recorded is what the epoch opened with, plus what panel echoes added, plus what successive readings
   counted, as long as no total has hit the limit of the meter's numbers.
   */
  lemma EveryRunBalances(trace: seq<Event>, blank: Stored)
    requires After(trace, blank).m.loaded && !After(trace, blank).book.clipped
    ensures After(trace, blank).book.closed.Plus(After(trace, blank).m.state.sample.total)
         == After(trace, blank).book.opening.Plus(After(trace, blank).book.raised).Plus(After(trace, blank).book.before)
              .Plus(Gained(After(trace, blank).book.readings))
  {
    EveryRunIsGood(trace, blank);
  }

  /** An echo of no more than what is recorded raises nothing. */
  lemma EchoRaisesNothing(m: Memory, book: Book, p: Policy)
    requires m.loaded && m.state.sample.periodStart == m.state.policy.periodStart
    requires if p.periodStart > m.state.policy.periodStart then p.total == Nothing
             else p.periodStart == m.state.policy.periodStart ==> p.total.Below(m.state.sample.total)
    ensures AdoptBook(book, m, p).raised == book.raised
  {
  }

  /** An echo of no more than is recorded: nothing for a new period, and not more than its total for the current one. */
  predicate EchoWithin(m: Memory, e: Event) {
    e.Applied? && !Ignored(m, e.policy) && m.loaded && e.policy.epoch == m.state.policy.epoch ==>
      if e.policy.periodStart > m.state.policy.periodStart then e.policy.total == Nothing
      else e.policy.periodStart == m.state.policy.periodStart ==> e.policy.total.Below(m.state.sample.total)
  }

  /** The interfaces watched stay the same throughout an epoch. */
  predicate SameInterfaces(m: Memory, e: Event) {
    e.Applied? && !Ignored(m, e.policy) && m.loaded && e.policy.epoch == m.state.policy.epoch ==>
      e.policy.interfaces == m.state.policy.interfaces
  }

  ghost predicate EveryEchoWithin(trace: seq<Event>, blank: Stored) {
    forall i :: 0 <= i < |trace| ==> EchoWithin(After(trace[..i], blank).m, trace[i])
  }

  ghost predicate InterfacesFixed(trace: seq<Event>, blank: Stored) {
    forall i :: 0 <= i < |trace| ==> SameInterfaces(After(trace[..i], blank).m, trace[i])
  }

  lemma Prefixes(trace: seq<Event>, blank: Stored)
    requires trace != []
    ensures EveryEchoWithin(trace, blank) ==>
              EveryEchoWithin(trace[..|trace| - 1], blank)
              && EchoWithin(After(trace[..|trace| - 1], blank).m, trace[|trace| - 1])
    ensures InterfacesFixed(trace, blank) ==>
              InterfacesFixed(trace[..|trace| - 1], blank)
              && SameInterfaces(After(trace[..|trace| - 1], blank).m, trace[|trace| - 1])
  {
    var front := trace[..|trace| - 1];
    forall i | 0 <= i < |front| ensures front[..i] == trace[..i] && front[i] == trace[i] {
    }
  }

  /** Nothing has been raised, neither in memory nor in what a restart would find. */
  ghost predicate NothingRaised(w: World) {
    && (w.m.loaded ==> w.book.raised == Nothing)
    && (w.disk.Some? ==> w.disk.value.1.raised == Nothing)
  }

  lemma StepRaisesNothing(w: World, e: Event)
    requires Good(w) && NothingRaised(w) && EchoWithin(w.m, e)
    ensures NothingRaised(Next(w, e))
  {
    if e.Applied? && !Ignored(w.m, e.policy) && w.m.loaded && e.policy.epoch == w.m.state.policy.epoch {
      EchoRaisesNothing(w.m, w.book, e.policy);
    }
  }

  lemma {:induction false} EchoesRaiseNothing(trace: seq<Event>, blank: Stored)
    requires EveryEchoWithin(trace, blank)
    ensures NothingRaised(After(trace, blank))
  {
    if trace == [] {
    } else {
      var front := trace[..|trace| - 1];
      Prefixes(trace, blank);
      EchoesRaiseNothing(front, blank);
      EveryRunIsGood(front, blank);
      StepRaisesNothing(After(front, blank), trace[|trace| - 1]);
    }
  }

  /** After a loss nothing is measured, so there is nothing that clearing the zero point could leave behind. */
  predicate LossMeasuresNothing(state: Stored, lost: bool, book: Book) {
    && book.before == Nothing
    && (lost || state.sample.fault == StateLost ==> book.readings == [])
  }

  ghost predicate OneZeroPoint(w: World) {
    && (w.m.loaded ==> LossMeasuresNothing(w.m.state, w.m.lost, w.book)
                       && (w.m.state.sample.fault == StateLost ==> w.m.lost))
    && (w.disk.Some? ==> LossMeasuresNothing(w.disk.value.0, false, w.disk.value.1))
  }

  lemma ApplyKeepsZeroPoint(w: World, p: Policy, now: int, saved: bool)
    requires Good(w) && OneZeroPoint(w) && SameInterfaces(w.m, Applied(p, now, saved))
    ensures OneZeroPoint(Next(w, Applied(p, now, saved)))
  {
    if !Ignored(w.m, p) && w.m.loaded && p.epoch == w.m.state.policy.epoch {
      SameEpochLoss(w.m, p);
      AdoptBookReadings(w.m, w.book, p);
      AdoptKeepsZeroPoint(w.m, w.book, p, SameEpoch(w.m, p), AdoptBook(w.book, w.m, p));
    }
  }

  predicate ZeroPointHolds(m: Memory, book: Book) {
    LossMeasuresNothing(m.state, m.lost, book) && (m.state.sample.fault == StateLost ==> m.lost)
  }

  /** A policy that starts a later period than the one in force. */
  predicate StartsPeriod(m: Memory, p: Policy) {
    p.periodStart > m.state.policy.periodStart
  }

  lemma AdjustedKeeps(p: Policy, was: Policy)
    ensures Adjusted(p, was).interfaces == p.interfaces && Adjusted(p, was).epoch == p.epoch
    ensures Adjusted(p, was).periodStart == Max(p.periodStart, was.periodStart)
  {
  }

  lemma SwitchedFault(s: Sample, p: Policy, was: Policy)
    ensures Switched(s, p, was).fault == NoFault || Switched(s, p, was).fault == s.fault
  {
  }

  lemma EchoedFault(s: Sample, p: Policy)
    ensures Echoed(s, p).fault == s.fault
  {
  }

  /** A new period ends a loss; within the period the loss stays, and no policy brings one about. */
  lemma SameEpochLoss(m: Memory, p: Policy)
    ensures SameEpoch(m, p).lost == (m.lost && !StartsPeriod(m, p))
    ensures SameEpoch(m, p).state.sample.fault == StateLost ==>
              !StartsPeriod(m, p) && m.state.sample.fault == StateLost
  {
    var was := m.state.policy;
    var q := Adjusted(p, was);
    AdjustedKeeps(p, was);
    var s := if StartsPeriod(m, p) then EmptySample(q.epoch, q.periodStart) else m.state.sample;
    SwitchedFault(s, q, was);
    EchoedFault(Switched(s, q, was), q);
    assert SameEpoch(m, p).state.sample == Echoed(Switched(s, q, was), q);
  }

  lemma ClearedOfNothing(book: Book)
    requires book.readings == []
    ensures Cleared(book).before == book.before && Cleared(book).readings == []
  {
    assert Gained([]) == Nothing;
  }

  /** With the same interfaces and no loss, or none that a new period ends, the zero point stays. */
  lemma AdoptKeepsReadings(m: Memory, book: Book, p: Policy)
    requires p.interfaces == m.state.policy.interfaces && !(StartsPeriod(m, p) && m.lost)
    ensures AdoptBook(book, m, p).readings == book.readings && AdoptBook(book, m, p).before == book.before
  {
    AdjustedKeeps(p, m.state.policy);
  }

  /** A new period that ends a loss clears readings that are not there. */
  lemma AdoptClearsNothing(m: Memory, book: Book, p: Policy)
    requires StartsPeriod(m, p) && m.lost && book.readings == []
    ensures AdoptBook(book, m, p).readings == [] && AdoptBook(book, m, p).before == book.before
  {
    AdjustedKeeps(p, m.state.policy);
    ClearedOfNothing(book.(closed := book.closed.Plus(m.state.sample.total)));
  }

  lemma AdoptBookReadings(m: Memory, book: Book, p: Policy)
    requires p.interfaces == m.state.policy.interfaces && (m.lost ==> book.readings == [])
    ensures AdoptBook(book, m, p).readings == book.readings && AdoptBook(book, m, p).before == book.before
  {
    if StartsPeriod(m, p) && m.lost {
      AdoptClearsNothing(m, book, p);
    } else {
      AdoptKeepsReadings(m, book, p);
    }
  }

  /** A loss that goes on, or none, with the readings as they were. */
  lemma AdoptKeepsZeroPoint(m: Memory, book: Book, p: Policy, t: Memory, next: Book)
    requires ZeroPointHolds(m, book)
    requires t.lost == (m.lost && !StartsPeriod(m, p)) && next.before == book.before && next.readings == book.readings
    requires t.state.sample.fault == StateLost ==> !StartsPeriod(m, p) && m.state.sample.fault == StateLost
    ensures ZeroPointHolds(t, next)
  {
  }

  lemma RollKeepsZeroPoint(m: Memory, book: Book, now: int, period: (int, int))
    requires ZeroPointHolds(m, book)
    ensures ZeroPointHolds(RollOver(m, now, period), RollBook(book, m, now))
  {
    assert Gained([]) == Nothing;
  }

  lemma MeasureKeepsZeroPoint(m: Memory, book: Book, reading: Option<Reading>)
    requires ZeroPointHolds(m, book)
    ensures ZeroPointHolds(Measured(m, reading), MeasureBook(book, m, reading))
  {
    if m.state.policy.mode == Proxy || m.lost || !Readable(reading) {
      assert MeasureBook(book, m, reading) == book;
    } else {
      assert Measured(m, reading).state.sample.fault == NoFault;
    }
  }

  lemma TickKeepsZeroPoint(w: World, now: int, period: (int, int), reading: Option<Reading>, saved: bool)
    requires OneZeroPoint(w)
    ensures OneZeroPoint(Next(w, Ticked(now, period, reading, saved)))
  {
    if w.m.loaded {
      RollKeepsZeroPoint(w.m, w.book, now, period);
      MeasureKeepsZeroPoint(RollOver(w.m, now, period), RollBook(w.book, w.m, now), reading);
    }
  }

  lemma {:induction false} FixedInterfacesOneZeroPoint(trace: seq<Event>, blank: Stored)
    requires InterfacesFixed(trace, blank)
    ensures OneZeroPoint(After(trace, blank))
  {
    if trace == [] {
    } else {
      var front, e := trace[..|trace| - 1], trace[|trace| - 1];
      Prefixes(trace, blank);
      FixedInterfacesOneZeroPoint(front, blank);
      EveryRunIsGood(front, blank);
      match e
      case Applied(p, now, saved) => ApplyKeepsZeroPoint(After(front, blank), p, now, saved);
      case Ticked(now, period, reading, saved) => TickKeepsZeroPoint(After(front, blank), now, period, reading, saved);
      case Rebooted(_) =>
    }
  }

  /**
   With a fixed set of interfaces and no echo beyond what is recorded, the bytes recorded in all periods of the epoch
   are what it opened with plus the sum of the increments since the first reading, however many reads and writes failed,
   wherever periods rolled over and however often the process restarted.
   */
  lemma EveryByteIsCounted(trace: seq<Event>, blank: Stored)
    requires EveryEchoWithin(trace, blank) && InterfacesFixed(trace, blank)
    requires After(trace, blank).m.loaded && !After(trace, blank).book.clipped
    ensures var w := After(trace, blank);
            w.book.closed.Plus(w.m.state.sample.total) == w.book.opening.Plus(Gained(w.book.readings))
  {
    EveryRunIsGood(trace, blank);
    EchoesRaiseNothing(trace, blank);
    FixedInterfacesOneZeroPoint(trace, blank);
  }

  // ---------------------------------------------------------------- totals and blocking within a period

  predicate InRange(b: Bytes) {
    b.Below(Bytes(MAX_BYTES, MAX_BYTES))
  }

  /** Within a period no sample lowers a total. */
  lemma TotalsNeverFall(m: Memory, now: int, period: (int, int), reading: Option<Reading>, saved: bool)
    requires InRange(m.state.sample.total) && now < m.state.policy.periodEnd
    ensures var t := TickOf(m, now, period, reading, saved);
            && m.state.sample.total.Below(t.state.sample.total) && InRange(t.state.sample.total)
            && t.state.policy == m.state.policy && t.loaded == m.loaded
  {
    MeasuredInRange(m, reading);
  }

  predicate QuotaUsed(state: Stored) {
    state.policy.mode != Proxy && state.policy.limit > 0 && Used(state.policy, state.sample) >= state.policy.limit
  }

  predicate UsedUp(m: Memory) {
    m.loaded && QuotaUsed(m.state)
  }

  lemma UsedGrows(p: Policy, s: Sample, t: Sample)
    requires s.total.Below(t.total)
    ensures Used(p, s) <= Used(p, t)
  {
  }

  lemma MoreBaseline(p: Policy, q: Policy, s: Sample)
    requires p.mode == q.mode && p.baseline <= q.baseline
    ensures Used(p, s) <= Used(q, s)
  {
  }

  /** What is written is what is in memory, if the last save succeeded; and no total is beyond the meter's numbers. */
  ghost predicate Kept(w: World) {
    && (w.m.loaded && !w.m.writeFailed ==> w.disk == Some((w.m.state, w.book)))
    && (w.m.loaded ==> InRange(w.m.state.sample.total) && w.m.state.policy.epoch > 0)
    && (w.m.loaded ==> w.m.state.sample.periodStart == w.m.state.policy.periodStart)
    && (w.disk.Some? ==> w.disk.value.0.policy.epoch > 0 && InRange(w.disk.value.0.sample.total))
    && (w.disk.Some? ==> w.disk.value.0.sample.periodStart == w.disk.value.0.policy.periodStart)
  }

  /** Panel totals are numbers the meter can hold. */
  predicate Representable(e: Event) {
    e.Applied? ==> InRange(e.policy.total)
  }

  lemma TickKeepsKept(w: World, now: int, period: (int, int), reading: Option<Reading>, saved: bool)
    requires Kept(w) && w.m.loaded
    ensures Kept(Next(w, Ticked(now, period, reading, saved)))
  {
    MeasuredInRange(RollOver(w.m, now, period), reading);
  }

  lemma MeasuredInRange(m: Memory, reading: Option<Reading>)
    requires InRange(m.state.sample.total)
    ensures var t := Measured(m, reading).state;
            && InRange(t.sample.total) && t.policy == m.state.policy
            && t.sample.periodStart == m.state.sample.periodStart
            && m.state.sample.total.Below(t.sample.total)
  {
    if !Consumes(m, reading) {
      UnmeasuredSame(m, reading);
    }
  }

  lemma StepKeepsKept(w: World, e: Event)
    requires Kept(w) && Representable(e)
    ensures Kept(Next(w, e))
  {
    match e
    case Applied(p, now, saved) =>
    case Ticked(now, period, reading, saved) =>
      if w.m.loaded {
        TickKeepsKept(w, now, period, reading, saved);
      }
    case Rebooted(_) =>
  }

  lemma {:induction false} EveryRunIsKept(trace: seq<Event>, blank: Stored)
    requires forall i :: 0 <= i < |trace| ==> Representable(trace[i])
    ensures Kept(After(trace, blank))
  {
    if trace == [] {
    } else {
      EveryRunIsKept(trace[..|trace| - 1], blank);
      StepKeepsKept(After(trace[..|trace| - 1], blank), trace[|trace| - 1]);
    }
  }

  /** A policy of the epoch that neither starts a period nor reckons the quota in the server's favour. */
  predicate SameQuota(was: Policy, p: Policy) {
    && p.epoch == was.epoch && p.periodStart <= was.periodStart && p.limit == was.limit && p.mode == was.mode
    && (p.periodStart == was.periodStart ==> p.baseline >= was.baseline)
  }

  /** The event leaves period, epoch and quota as they are, and is no restart after a failed save. */
  predicate WithinPeriod(w: World, e: Event) {
    match e
    case Applied(p, _, _) => Ignored(w.m, p) || SameQuota(w.m.state.policy, p)
    case Ticked(now, _, _, _) => now < w.m.state.policy.periodEnd
    case Rebooted(_) => !w.m.writeFailed
  }

  ghost predicate AllWithinPeriod(w: World, rest: seq<Event>) {
    forall i :: 0 <= i < |rest| ==> Representable(rest[i]) && WithinPeriod(Run(w, rest[..i]), rest[i])
  }

  /** The same period of the same epoch, and totals that have not fallen. */
  predicate Onward(a: Memory, b: Memory) {
    && b.loaded && a.state.policy.epoch == b.state.policy.epoch
    && a.state.policy.periodStart == b.state.policy.periodStart
    && a.state.sample.total.Below(b.state.sample.total)
    && a.state.policy.limit == b.state.policy.limit && a.state.policy.mode == b.state.policy.mode
    && a.state.policy.baseline <= b.state.policy.baseline
  }

  lemma ApplyGoesOnward(m: Memory, p: Policy, now: int, saved: bool)
    requires m.loaded && SameQuota(m.state.policy, p) && m.state.sample.periodStart == m.state.policy.periodStart
    ensures Onward(m, ApplyOf(m, p, now, saved))
  {
  }

  lemma StepGoesOnward(w: World, e: Event)
    requires Kept(w) && w.m.loaded && WithinPeriod(w, e)
    ensures Onward(w.m, Next(w, e).m)
  {
    match e
    case Applied(p, now, saved) =>
      if !Ignored(w.m, p) {
        ApplyGoesOnward(w.m, p, now, saved);
      }
    case Ticked(now, period, reading, saved) => TotalsNeverFall(w.m, now, period, reading, saved);
    case Rebooted(_) =>
  }

  lemma {:induction false} RunGoesOnward(w: World, rest: seq<Event>)
    requires Kept(w) && w.m.loaded && AllWithinPeriod(w, rest)
    ensures Kept(Run(w, rest)) && Onward(w.m, Run(w, rest).m)
  {
    if rest == [] {
    } else {
      var front, e := rest[..|rest| - 1], rest[|rest| - 1];
      assert forall i :: 0 <= i < |front| ==> front[..i] == rest[..i] && front[i] == rest[i];
      RunGoesOnward(w, front);
      assert WithinPeriod(Run(w, front), e) && Representable(e);
      StepGoesOnward(Run(w, front), e);
      StepKeepsKept(Run(w, front), e);
    }
  }

  /**
   From any point of any run: while the period, the epoch and the way the quota is reckoned stay the same, totals never
   fall, and a quota that is used up stays used up and blocks, through samples, policies and restarts, provided that the
   last save before each restart succeeded.
   */
  lemma BlockHoldsOverRuns(trace: seq<Event>, blank: Stored, rest: seq<Event>, later: int)
    requires forall i :: 0 <= i < |trace| ==> Representable(trace[i])
    requires After(trace, blank).m.loaded && AllWithinPeriod(After(trace, blank), rest)
    ensures var m, t := After(trace, blank).m, Run(After(trace, blank), rest).m;
            Onward(m, t) && (UsedUp(m) ==> UsedUp(t) && Blocked(t, later))
  {
    EveryRunIsKept(trace, blank);
    RunGoesOnward(After(trace, blank), rest);
    var m, t := After(trace, blank).m, Run(After(trace, blank), rest).m;
    UsedGrows(m.state.policy, m.state.sample, t.state.sample);
    MoreBaseline(m.state.policy, t.state.policy, t.state.sample);
  }

  /**
   Whether a restart keeps a quota used up is decided by the file alone, which is the state if the last save succeeded.
   */
  lemma RestartKeepsBlockWhenWritten(trace: seq<Event>, blank: Stored, other: Stored)
    requires (forall i :: 0 <= i < |trace| ==> Representable(trace[i])) && UsedUp(After(trace, blank).m)
    ensures var w := After(trace, blank);
            && (UsedUp(Next(w, Rebooted(other)).m) <==> w.disk.Some? && QuotaUsed(w.disk.value.0))
            && (!w.m.writeFailed ==> UsedUp(Next(w, Rebooted(other)).m))
  {
    EveryRunIsKept(trace, blank);
  }

  lemma RunMore(w: World, trace: seq<Event>, e: Event)
    ensures Run(w, trace + [e]) == Next(Run(w, trace), e)
  {
    assert (trace + [e])[..|trace|] == trace;
  }

  /** A policy that starts counting from nothing, with a quota on what is sent. */
  predicate Quota(q: Policy) {
    && ValidPolicy(q) && q.mode == Outbound && q.active && !q.initialized && q.limit > 0 && q.baseline == 0
    && q.total == Nothing
    && q.periodStart <= 0 && 2 < q.periodEnd
  }

  function Sent(bytes: nat): Reading {
    Reading("b", map["eth0" := Counter("i", Bytes(0, bytes))])
  }

  lemma SentSince(base: nat, bytes: nat)
    requires base <= bytes
    ensures Increment(Sent(base), Sent(bytes)) == Bytes(0, bytes - base)
    ensures Readable(Some(Sent(base)))
  {
    assert Sent(bytes).counters.Keys == {"eth0"} && {"eth0"} - {"eth0"} == {};
    GainOverAny(Sent(base), Sent(bytes), {"eth0"}, "eth0");
    assert "eth0" in Sent(base).counters;
  }

  /** Counting, but nothing yet. */
  predicate Waits(w: World, q: Policy) {
    && w.m.loaded && !w.m.lost && !w.m.writeFailed && w.m.state.policy == q && w.m.state.sample.total == Nothing
    && w.disk == Some((w.m.state, w.book))
  }

  predicate Counts(w: World, q: Policy, base: nat) {
    Waits(w, q) && w.m.state.previous == Sent(base) && w.m.state.sample.initialized && w.m.state.sample.fault == NoFault
  }

  /** The quota's policy arrives and is written. */
  lemma PolicyArrives(blank: Stored, q: Policy)
    requires Quota(q)
    ensures var w := Next(FirstStart(blank), Applied(q, 0, true)); Waits(w, q) && w.m.state.previous == NoReading
  {
  }

  lemma MeasuredFirst(m: Memory, reading: Reading)
    requires Consumes(m, Some(reading)) && m.state.previous.boot == ""
    ensures var t := Measured(m, Some(reading));
            && t.state.policy == m.state.policy && t.state.sample.total == m.state.sample.total
            && t.state.previous == reading
            && t.state.sample.initialized && t.state.sample.fault == NoFault && t.loaded == m.loaded && t.lost == m.lost
  {
  }

  /** The first sample sets the zero point and is written. */
  lemma FirstSample(w: World, q: Policy, base: nat)
    requires Quota(q) && Waits(w, q) && w.m.state.previous == NoReading
    ensures Counts(Next(w, Ticked(1, (0, 0), Some(Sent(base)), true)), q, base)
  {
    SentSince(base, base);
    MeasuredFirst(w.m, Sent(base));
    assert RollOver(w.m, 1, (0, 0)) == w.m;
    var measured := Measured(w.m, Some(Sent(base)));
    assert TickOf(w.m, 1, (0, 0), Some(Sent(base)), true) == AfterSave(measured, true);
    assert AfterSave(measured, true) == measured.(writeFailed := false);
  }

  lemma MeasuredGrows(m: Memory, reading: Reading)
    requires Consumes(m, Some(reading)) && m.state.previous.boot != ""
    ensures var t := Measured(m, Some(reading)).state;
            t.policy == m.state.policy
            && t.sample.total == Clip(m.state.sample.total.Plus(Increment(m.state.previous, reading)))
  {
  }

  /** The second sample: the whole quota, and a save that fails. */
  lemma Overrun(w: World, q: Policy, base: nat, bytes: nat)
    requires Quota(q) && Counts(w, q, base) && base + q.limit <= bytes && bytes - base <= MAX_BYTES
    ensures var t := Next(w, Ticked(2, (0, 0), Some(Sent(bytes)), false));
            t.disk == w.disk && UsedUp(t.m) && Blocked(t.m, 2)
  {
    SentSince(base, bytes);
    SentSince(bytes, bytes);
    MeasuredGrows(w.m, Sent(bytes));
    assert RollOver(w.m, 2, (0, 0)) == w.m;
    assert Measured(w.m, Some(Sent(bytes))).state.sample.total == Bytes(0, bytes - base);
  }

  lemma RestartForgets(w: World, q: Policy, base: nat, t: World, blank: Stored)
    requires Quota(q) && Counts(w, q, base) && t.disk == w.disk
    ensures !Blocked(Next(t, Rebooted(blank)).m, 2)
  {
    assert Used(q, w.m.state.sample) == 0;
  }

  /**
   The case left out, as a run: a quota is used up by a sample whose save fails, and blocks; a restart on the older file
   lets traffic through again.
   */
  lemma RestartOnOlderFileUnblocks(blank: Stored, q: Policy, base: nat, bytes: nat) returns (trace: seq<Event>)
    requires Quota(q) && base + q.limit <= bytes && bytes - base <= MAX_BYTES
    ensures UsedUp(After(trace, blank).m) && Blocked(After(trace, blank).m, 2)
    ensures !Blocked(After(trace + [Rebooted(blank)], blank).m, 2)
  {
    var start, none: seq<Event> := FirstStart(blank), [];
    var applied, first := none + [Applied(q, 0, true)], Ticked(1, (0, 0), Some(Sent(base)), true);
    RunMore(start, none, Applied(q, 0, true));
    PolicyArrives(blank, q);
    RunMore(start, applied, first);
    FirstSample(After(applied, blank), q, base);
    var counting := applied + [first];
    var overrun := Ticked(2, (0, 0), Some(Sent(bytes)), false);
    RunMore(start, counting, overrun);
    Overrun(After(counting, blank), q, base, bytes);
    trace := counting + [overrun];
    RunMore(start, trace, Rebooted(blank));
    RestartForgets(After(counting, blank), q, base, After(trace, blank), blank);
  }

  // ---------------------------------------------------------------- readings and real traffic

  function Part(b: Bytes, received: bool): nat {
    if received then b.rx else b.tx
  }

  /**
   Real traffic of an interface, in one direction: all of it up to each reading, and up to its last restart before.
   */
  datatype Truth = Truth(sent: (int, string) -> nat, started: (int, string) -> nat)

  /** The counter shows the traffic since the interface last restarted. */
  ghost predicate Shows(truth: Truth, i: int, reading: Reading, received: bool) {
    forall name :: name in reading.counters ==>
      && truth.started(i, name) <= truth.sent(i, name)
      && Part(reading.counters[name].bytes, received) == truth.sent(i, name) - truth.started(i, name)
  }

  /** From one reading to the next, traffic only grows, and an interface either restarted in between or did not. */
  ghost predicate Evolves(truth: Truth, i: int, names: set<string>) {
    forall name :: name in names ==>
      && truth.sent(i, name) <= truth.sent(i + 1, name)
      && (truth.started(i + 1, name) == truth.started(i, name) || truth.sent(i, name) <= truth.started(i + 1, name))
  }

  ghost function Sum(f: string -> nat, names: set<string>): nat {
    if names == {} then 0
    else
      var name :| name in names;
      Sum(f, names - {name}) + f(name)
  }

  lemma {:induction false} SumAny(f: string -> nat, names: set<string>, name: string)
    requires name in names
    ensures Sum(f, names) == Sum(f, names - {name}) + f(name)
  {
    var picked :| picked in names && Sum(f, names) == Sum(f, names - {picked}) + f(picked);
    if picked != name {
      var rest := names - {picked} - {name};
      assert rest == names - {name} - {picked};
      SumAny(f, names - {picked}, name);
      SumAny(f, names - {name}, picked);
    }
  }

  function Grown(truth: Truth, i: int): string -> nat {
    name => if truth.sent(i + 1, name) >= truth.sent(i, name) then truth.sent(i + 1, name) - truth.sent(i, name) else 0
  }

  /**
   Every restart shows: the counter is another one, or stands lower than before; and nothing was sent unseen before it.
   */
  ghost predicate NothingMissed(truth: Truth, i: int, previous: Reading, current: Reading, received: bool) {
    forall name :: name in current.counters && truth.started(i + 1, name) != truth.started(i, name) ==>
      && truth.started(i + 1, name) == truth.sent(i, name)
      && (Restarted(previous, current, name) ||
          Part(current.counters[name].bytes, received) < Part(previous.counters[name].bytes, received) ||
          truth.sent(i, name) == truth.started(i, name))
  }

  /** An interface that looks restarted was. */
  ghost predicate OnlyRestarts(truth: Truth, i: int, previous: Reading, current: Reading) {
    forall name :: name in current.counters && Restarted(previous, current, name) ==>
              truth.sent(i, name) <= truth.started(i + 1, name)
  }

  lemma GainIsReal(truth: Truth, i: int, previous: Reading, current: Reading, name: string, received: bool)
    requires name in current.counters && previous.counters.Keys == current.counters.Keys
    requires Shows(truth, i, previous, received) && Shows(truth, i + 1, current, received)
             && Evolves(truth, i, current.counters.Keys)
    requires OnlyRestarts(truth, i, previous, current)
    ensures Part(Gain(previous, current, name), received) <= Grown(truth, i)(name)
    ensures NothingMissed(truth, i, previous, current, received) ==>
              Part(Gain(previous, current, name), received) == Grown(truth, i)(name)
  {
  }

  lemma {:induction false} IncrementIsReal(truth: Truth, i: int, previous: Reading, current: Reading,
                                           names: set<string>, received: bool)
    requires names <= current.counters.Keys && previous.counters.Keys == current.counters.Keys
    requires Shows(truth, i, previous, received) && Shows(truth, i + 1, current, received)
             && Evolves(truth, i, current.counters.Keys)
    requires OnlyRestarts(truth, i, previous, current)
    ensures Part(GainOver(previous, current, names), received) <= Sum(Grown(truth, i), names)
    ensures NothingMissed(truth, i, previous, current, received) ==>
              Part(GainOver(previous, current, names), received) == Sum(Grown(truth, i), names)
  {
    if names == {} {
    } else {
      var name :| name in names;
      GainOverAny(previous, current, names, name);
      SumAny(Grown(truth, i), names, name);
      IncrementIsReal(truth, i, previous, current, names - {name}, received);
      GainIsReal(truth, i, previous, current, name, received);
    }
  }

  lemma {:induction false} SumAdds(f: string -> nat, g: string -> nat, h: string -> nat, names: set<string>)
    requires forall name :: name in names ==> h(name) == f(name) + g(name)
    ensures Sum(h, names) == Sum(f, names) + Sum(g, names)
  {
    if names == {} {
    } else {
      var name :| name in names;
      SumAny(f, names, name);
      SumAny(g, names, name);
      SumAny(h, names, name);
      SumAdds(f, g, h, names - {name});
    }
  }

  /** A fixed set of interfaces, read again and again. */
  ghost predicate Watched(truth: Truth, readings: seq<Reading>, names: set<string>, received: bool) {
    && (forall i :: 0 <= i < |readings| ==>
          readings[i].boot != "" && readings[i].counters.Keys == names && Shows(truth, i, readings[i], received))
    && (forall i :: 0 <= i < |readings| - 1 ==>
          Evolves(truth, i, names) && OnlyRestarts(truth, i, readings[i], readings[i + 1]))
  }

  function Since(truth: Truth, n: int): string -> nat {
    name => if truth.sent(n, name) >= truth.sent(0, name) then truth.sent(n, name) - truth.sent(0, name) else 0
  }

  lemma {:induction false} SentGrows(truth: Truth, readings: seq<Reading>, names: set<string>, received: bool, n: nat)
    requires Watched(truth, readings, names, received) && n < |readings|
    ensures forall name :: name in names ==> truth.sent(0, name) <= truth.sent(n, name)
  {
    if n == 0 {
    } else {
      SentGrows(truth, readings, names, received, n - 1);
      assert Evolves(truth, n - 1, names);
    }
  }

  lemma SinceGrows(truth: Truth, readings: seq<Reading>, names: set<string>, received: bool, n: nat)
    requires Watched(truth, readings, names, received) && 0 < n < |readings|
    ensures Sum(Since(truth, n), names) == Sum(Since(truth, n - 1), names) + Sum(Grown(truth, n - 1), names)
  {
    SentGrows(truth, readings, names, received, n - 1);
    assert Evolves(truth, n - 1, names);
    SumAdds(Since(truth, n - 1), Grown(truth, n - 1), Since(truth, n), names);
  }

  lemma FrontWatched(truth: Truth, readings: seq<Reading>, names: set<string>, received: bool)
    requires readings != [] && Watched(truth, readings, names, received)
    ensures Watched(truth, readings[..|readings| - 1], names, received)
  {
    var front := readings[..|readings| - 1];
    forall i | 0 <= i < |front| - 1 ensures Evolves(truth, i, names) && OnlyRestarts(truth, i, front[i], front[i + 1]) {
      assert OnlyRestarts(truth, i, readings[i], readings[i + 1]);
    }
  }

  ghost predicate AllSeen(truth: Truth, readings: seq<Reading>, received: bool) {
    forall i :: 0 <= i < |readings| - 1 ==> NothingMissed(truth, i, readings[i], readings[i + 1], received)
  }

  /**
   What successive readings count never exceeds what the interfaces really carried since the first of them, and is
   exactly that when every restart is seen and loses nothing.
   */
  lemma {:induction false} ReadingsNeverOvercount(truth: Truth, readings: seq<Reading>, names: set<string>,
                                                  received: bool)
    requires |readings| > 0 && Watched(truth, readings, names, received)
    ensures Part(Gained(readings), received) <= Sum(Since(truth, |readings| - 1), names)
    ensures AllSeen(truth, readings, received) ==>
              Part(Gained(readings), received) == Sum(Since(truth, |readings| - 1), names)
  {
    if |readings| == 1 {
      NothingSince(truth, names);
    } else {
      FrontWatched(truth, readings, names, received);
      ReadingsNeverOvercount(truth, readings[..|readings| - 1], names, received);
      CountOneMore(truth, readings, names, received);
    }
  }

  lemma NothingSince(truth: Truth, names: set<string>)
    ensures Sum(Since(truth, 0), names) == 0
  {
    SumAdds(Since(truth, 0), Since(truth, 0), Since(truth, 0), names);
  }

  lemma CountOneMore(truth: Truth, readings: seq<Reading>, names: set<string>, received: bool)
    requires |readings| > 1 && Watched(truth, readings, names, received)
    ensures var n := |readings| - 1;
            var counted, carried := Part(Gained(readings), received), Sum(Since(truth, n), names);
            var was, before := Part(Gained(readings[..n]), received), Sum(Since(truth, n - 1), names);
            && (was <= before ==> counted <= carried)
            && (AllSeen(truth, readings, received) ==>
                  AllSeen(truth, readings[..n], received) && (was == before ==> counted == carried))
  {
    LastIncrementIsReal(truth, readings, names, received);
    SinceGrows(truth, readings, names, received, |readings| - 1);
    if AllSeen(truth, readings, received) {
      FrontSeen(truth, readings, received);
    }
  }

  lemma FrontSeen(truth: Truth, readings: seq<Reading>, received: bool)
    requires readings != [] && AllSeen(truth, readings, received)
    ensures AllSeen(truth, readings[..|readings| - 1], received)
  {
    var front := readings[..|readings| - 1];
    forall i | 0 <= i < |front| - 1 ensures NothingMissed(truth, i, front[i], front[i + 1], received) {
      assert NothingMissed(truth, i, readings[i], readings[i + 1], received);
    }
  }

  lemma LastIncrementIsReal(truth: Truth, readings: seq<Reading>, names: set<string>, received: bool)
    requires |readings| > 1 && Watched(truth, readings, names, received)
    ensures var n := |readings| - 1;
            var more := Part(Gained(readings), received) - Part(Gained(readings[..n]), received);
            && more <= Sum(Grown(truth, n - 1), names)
            && (AllSeen(truth, readings, received) ==> more == Sum(Grown(truth, n - 1), names))
  {
    var n := |readings| - 1;
    assert readings[n - 1].counters.Keys == names && readings[n].counters.Keys == names;
    assert readings[n].boot != "" && Evolves(truth, n - 1, names)
           && OnlyRestarts(truth, n - 1, readings[n - 1], readings[n]);
    IncrementIsReal(truth, n - 1, readings[n - 1], readings[n], names, received);
  }

  /**
   In every run with a fixed set of interfaces and no echo beyond what is recorded: what all periods of the epoch
   recorded beyond what it opened with never exceeds what the interfaces really carried since the first reading, and is
   exactly that when every restart of an interface is seen and loses nothing.
   */
  lemma RecordedIsReal(trace: seq<Event>, blank: Stored, truth: Truth, names: set<string>, received: bool)
    requires EveryEchoWithin(trace, blank) && InterfacesFixed(trace, blank)
    requires After(trace, blank).m.loaded && !After(trace, blank).book.clipped
    requires var readings := After(trace, blank).book.readings;
             |readings| > 0 && Watched(truth, readings, names, received)
    ensures var w := After(trace, blank);
            var recorded := Part(w.book.closed.Plus(w.m.state.sample.total), received) - Part(w.book.opening, received);
            var carried := Sum(Since(truth, |w.book.readings| - 1), names);
            && 0 <= recorded <= carried
            && (AllSeen(truth, w.book.readings, received) ==> recorded == carried)
  {
    var w := After(trace, blank);
    EveryByteIsCounted(trace, blank);
    ReadingsNeverOvercount(truth, w.book.readings, names, received);
    assert Part(w.book.closed.Plus(w.m.state.sample.total), received)
        == Part(w.book.opening, received) + Part(Gained(w.book.readings), received);
  }
}
