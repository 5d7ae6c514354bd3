/** The server's traffic quota: counters read from its interfaces, accumulated per billing period. */
module TrafficMeter {
  import opened Common

  const MAX_BYTES: nat := 9007199254740991
  const CONFIRMATION_TIMEOUT: int := 180

  datatype Mode = Outbound | Both | Proxy

  datatype Policy = Policy(limit: nat, mode: Mode, resetDay: int, zoneKnown: bool, interfaces: seq<string>,
                           revision: nat,
                           epoch: nat, periodStart: int, periodEnd: int, total: Bytes, proxy: Bytes, baseline: nat,
                           sequence: nat, initialized: bool, active: bool)

  datatype Bytes = Bytes(rx: nat, tx: nat) {
    function Plus(other: Bytes): Bytes { Bytes(rx + other.rx, tx + other.tx) }

    function AtLeast(other: Bytes): Bytes { Bytes(Max(rx, other.rx), Max(tx, other.tx)) }

    predicate Below(other: Bytes) { rx <= other.rx && tx <= other.tx }
  }

  const Nothing: Bytes := Bytes(0, 0)

  datatype Counter = Counter(identity: string, bytes: Bytes)

  /** An empty `boot` stands for no reading. */
  datatype Reading = Reading(boot: string, counters: map<string, Counter>)

  const NoReading: Reading := Reading("", map[])

  datatype Fault = NoFault | StateLost | Unavailable | WriteFailed

  datatype Sample = Sample(epoch: nat, periodStart: int, sequence: nat, total: Bytes, initialized: bool, fault: Fault,
                           interfaces: set<string>)

  function EmptySample(epoch: nat, periodStart: int): Sample {
    Sample(epoch, periodStart, 0, Nothing, false, NoFault, {})
  }

  /** What is written to disk. */
  datatype Stored = Stored(policy: Policy, sample: Sample, previous: Reading)

  datatype Memory = Memory(state: Stored, loaded: bool, lost: bool, writeFailed: bool, confirmedAt: Option<int>)

  // ---------------------------------------------------------------- counting

  function Add(a: nat, b: nat): (r: nat)
    ensures r == Min(a + b, MAX_BYTES)
  {
    if a >= MAX_BYTES || b >= MAX_BYTES - a then MAX_BYTES else a + b
  }

  function Delta(current: nat, previous: nat, reset: bool): nat {
    if reset || current < previous then current else current - previous
  }

  /** The interface was not there before, or is another one, or the machine was restarted. */
  predicate Restarted(previous: Reading, current: Reading, name: string)
    requires name in current.counters
  {
    name !in previous.counters || current.boot != previous.boot
    || current.counters[name].identity != previous.counters[name].identity
  }

  /** What one interface has counted since the previous reading. */
  function Gain(previous: Reading, current: Reading, name: string): Bytes
    requires name in current.counters
  {
    var now := current.counters[name].bytes;
    if Restarted(previous, current, name) then now
    else
      var was := previous.counters[name].bytes;
      Bytes(Delta(now.rx, was.rx, false), Delta(now.tx, was.tx, false))
  }

  /** The sum over some of the interfaces, whatever their order. */
  ghost function GainOver(previous: Reading, current: Reading, names: set<string>): Bytes
    requires names <= current.counters.Keys
  {
    if names == {} then Nothing
    else
      var name :| name in names;
      GainOver(previous, current, names - {name}).Plus(Gain(previous, current, name))
  }

  lemma PlusSwaps(a: Bytes, b: Bytes, c: Bytes)
    ensures a.Plus(b).Plus(c) == a.Plus(c).Plus(b)
  {
  }

  lemma {:induction false} GainOverAny(previous: Reading, current: Reading, names: set<string>, name: string)
    requires names <= current.counters.Keys && name in names
    ensures GainOver(previous, current, names)
            == GainOver(previous, current, names - {name}).Plus(Gain(previous, current, name))
  {
    var picked :| picked in names
    && GainOver(previous, current, names)
    == GainOver(previous, current, names - {picked}).Plus(Gain(previous, current, picked));
    if picked != name {
      var rest := names - {picked} - {name};
      assert rest == names - {name} - {picked};
      GainOverAny(previous, current, names - {picked}, name);
      GainOverAny(previous, current, names - {name}, picked);
      PlusSwaps(GainOver(previous, current, rest), Gain(previous, current, name), Gain(previous, current, picked));
    }
  }

  /** What a reading adds to the total; the first one only sets the zero point. */
  ghost function Increment(previous: Reading, current: Reading): Bytes {
    if previous.boot == "" then Nothing else GainOver(previous, current, current.counters.Keys)
  }

  function Clip(b: Bytes): Bytes {
    Bytes(Min(b.rx, MAX_BYTES), Min(b.tx, MAX_BYTES))
  }

  // ---------------------------------------------------------------- one sample

  function Used(p: Policy, s: Sample): nat {
    var used := Add(p.baseline, s.total.tx);
    if p.mode == Both then Add(used, s.total.rx) else used
  }

  predicate Blocked(m: Memory, now: int) {
    var p, s := m.state.policy, m.state.sample;
    if !m.loaded || !p.active then true
    else if p.limit == 0 then false
    else if p.mode == Proxy then
      || m.writeFailed || !s.initialized || s.fault != NoFault || m.confirmedAt.None?
      || now - m.confirmedAt.value >= CONFIRMATION_TIMEOUT || Add(p.proxy.rx, p.proxy.tx) >= p.limit
    else m.lost || m.writeFailed || !s.initialized || s.fault != NoFault || Used(p, s) >= p.limit
  }

  /** A new billing period, if the old one is over; `period` is the one `now` falls into. */
  function RollOver(m: Memory, now: int, period: (int, int)): Memory {
    if now < m.state.policy.periodEnd then m
    else
      var p := m.state.policy.(periodStart := period.0, periodEnd := period.1, baseline := 0, proxy := Nothing);
      Memory(Stored(p, EmptySample(p.epoch, period.0), if m.lost then NoReading else m.state.previous),
             m.loaded, false, m.writeFailed, m.confirmedAt)
  }

  predicate Readable(reading: Option<Reading>) {
    reading.Some? && reading.value.counters != map[] && reading.value.boot != ""
  }

  ghost function Measured(m: Memory, reading: Option<Reading>): Memory {
    var s := m.state.sample.(sequence := m.state.sample.sequence + 1);
    if m.state.policy.mode == Proxy then
      m.(state := m.state.(sample := s.(fault := NoFault, initialized := true, interfaces := {})))
    else if m.lost then m.(state := m.state.(sample := s.(fault := StateLost, initialized := false)))
    else if !Readable(reading) then m.(state := m.state.(sample := s.(fault := Unavailable)))
    else
      var gained := Clip(s.total.Plus(Increment(m.state.previous, reading.value)));
      var total := if m.state.previous.boot == "" then s.total else gained;
      m.(state := m.state.(sample := s.(fault := NoFault, initialized := true, total := total,
                                        interfaces := reading.value.counters.Keys),
                           previous := reading.value))
  }

  /** A failed write blocks the server until a later one succeeds. */
  function AfterSave(m: Memory, saved: bool): Memory {
    m.(writeFailed := !saved, state := if saved then m.state
                                       else m.state.(sample := m.state.sample.(fault := WriteFailed)))
  }

  ghost function TickOf(m: Memory, now: int, period: (int, int), reading: Option<Reading>, saved: bool): Memory {
    if !m.loaded then m else AfterSave(Measured(RollOver(m, now, period), reading), saved)
  }

  // ---------------------------------------------------------------- a policy from the panel

  predicate ValidPolicy(p: Policy) {
    p.epoch > 0 && p.revision > 0 && 1 <= p.resetDay <= 31 && p.periodStart < p.periodEnd && p.zoneKnown
  }

  function NewEpoch(m: Memory, p: Policy): Memory {
    m.(state := Stored(p, Sample(p.epoch, p.periodStart, p.sequence, p.total, false, NoFault, {}), NoReading),
       loaded := true, lost := p.initialized)
  }

  /** The policy as it takes effect: a period this server has already left does not come back. */
  function Adjusted(p: Policy, was: Policy): Policy {
    if p.periodStart < was.periodStart then
      p.(periodStart := was.periodStart, periodEnd := was.periodEnd, baseline := was.baseline, total := Nothing,
         sequence := 0,
         proxy := was.proxy)
    else if p.periodStart == was.periodStart then p.(proxy := p.proxy.AtLeast(was.proxy))
    else p
  }

  function Switched(s: Sample, p: Policy, was: Policy): Sample {
    if (p.mode == Proxy) != (was.mode == Proxy) then s.(initialized := false, fault := NoFault, interfaces := {}) else s
  }

  function Echoed(s: Sample, p: Policy): Sample {
    if s.periodStart == p.periodStart
    then s.(total := s.total.AtLeast(p.total), sequence := Max(s.sequence, p.sequence)) else s
  }

  function SameEpoch(m: Memory, q: Policy): Memory {
    var was := m.state.policy;
    var p := Adjusted(q, was);
    var later := p.periodStart > was.periodStart;
    var s := if later then EmptySample(p.epoch, p.periodStart) else m.state.sample;
    var previous := if (later && m.lost) || p.interfaces != was.interfaces then NoReading else m.state.previous;
    m.(state := Stored(p, Echoed(Switched(s, p, was), p), previous), lost := m.lost && !later)
  }

  /** Refused, or older than the policy in force. */
  predicate Ignored(m: Memory, p: Policy) {
    !ValidPolicy(p) || (m.loaded && p.revision < m.state.policy.revision)
  }

  function ApplyOf(m: Memory, p: Policy, now: int, saved: bool): Memory {
    if Ignored(m, p) then m
    else
      var t := if !m.loaded || p.epoch != m.state.policy.epoch then NewEpoch(m, p) else SameEpoch(m, p);
      t.(confirmedAt := Some(now), writeFailed := !saved)
  }

  // ---------------------------------------------------------------- the meter

  function AddBytes(a: Bytes, b: Bytes): (r: Bytes)
    ensures r == Clip(a.Plus(b))
  {
    Bytes(Add(a.rx, b.rx), Add(a.tx, b.tx))
  }

  lemma ClipOnce(a: Bytes, b: Bytes)
    ensures Clip(Clip(a).Plus(b)) == Clip(a.Plus(b))
  {
  }

  lemma GainNext(previous: Reading, current: Reading, done: set<string>, name: string, start: Bytes, total: Bytes)
    requires done + {name} <= current.counters.Keys && name !in done
    requires total == if done == {} then start else Clip(start.Plus(GainOver(previous, current, done)))
    ensures AddBytes(total, Gain(previous, current, name))
            == Clip(start.Plus(GainOver(previous, current, done + {name})))
  {
    GainOverAny(previous, current, done + {name}, name);
    assert done + {name} - {name} == done;
    ClipOnce(start.Plus(GainOver(previous, current, done)), Gain(previous, current, name));
  }

  class Meter {
    var state: Stored
    var loaded: bool
    var lost: bool
    var writeFailed: bool
    var confirmedAt: Option<int>
    /** The file: absent, unreadable or holding a stored state. */
    var disk: Option<Stored>

    function Abs(): Memory
      reads this
    {
      Memory(state, loaded, lost, writeFailed, confirmedAt)
    }

    /** A process starting on what the last one wrote; `damaged` says that a file is there but cannot be used. */
    constructor (disk: Option<Stored>, damaged: bool, blank: Stored)
      ensures this.disk == disk && confirmedAt == None && !writeFailed
      ensures disk.Some? && disk.value.policy.epoch > 0 && !damaged ==>
                loaded && state == disk.value && lost == (disk.value.sample.fault == StateLost)
      ensures !(disk.Some? && disk.value.policy.epoch > 0 && !damaged) ==> !loaded && lost == (damaged || disk.Some?)
    {
      this.disk, writeFailed, confirmedAt := disk, false, None;
      if disk.Some? && !damaged {
        state, loaded := disk.value, disk.value.policy.epoch > 0;
        lost := if disk.value.policy.epoch > 0 then disk.value.sample.fault == StateLost else true;
      } else {
        state, loaded, lost := blank, false, damaged || disk.Some?;
      }
    }

    method Save(saved: bool)
      modifies `disk, `writeFailed
      ensures writeFailed == !saved && disk == if saved then Some(state) else old(disk)
    {
      writeFailed := !saved;
      if saved {
        disk := Some(state);
      }
    }

    /** A policy of the epoch already in force. */
    method Adopt(policy: Policy)
      modifies this
      ensures Abs() == SameEpoch(old(Abs()), policy) && disk == old(disk)
    {
      var p, was, sample, previous := policy, state.policy, state.sample, state.previous;
      ghost var later := policy.periodStart > was.periodStart;
      if p.periodStart < was.periodStart {
        p := p.(periodStart := was.periodStart, periodEnd := was.periodEnd, baseline := was.baseline, total := Nothing,
                sequence := 0,
                proxy := was.proxy);
      } else if p.periodStart > was.periodStart {
        sample := EmptySample(p.epoch, p.periodStart);
        if lost {
          lost := false;
          previous := NoReading;
        }
      }
      if p.interfaces != was.interfaces {
        previous := NoReading;
      }
      if (p.mode == Proxy) != (was.mode == Proxy) {
        sample := sample.(initialized := false, fault := NoFault, interfaces := {});
      }
      if p.periodStart == was.periodStart {
        p := p.(proxy := p.proxy.AtLeast(was.proxy));
      }
      assert p == Adjusted(policy, was);
      ghost var begun := if later then EmptySample(p.epoch, p.periodStart) else old(state.sample);
      assert sample == Switched(begun, p, was) && lost == (old(lost) && !later);
      if sample.periodStart == p.periodStart {
        sample := sample.(total := sample.total.AtLeast(p.total), sequence := Max(sample.sequence, p.sequence));
      }
      assert sample == Echoed(Switched(begun, p, was), p);
      state := Stored(p, sample, previous);
    }

    method Apply(policy: Policy, now: int, saved: bool) returns (accepted: bool)
      modifies this
      ensures accepted == ValidPolicy(policy)
      ensures Abs() == ApplyOf(old(Abs()), policy, now, saved)
      ensures disk == if !Ignored(old(Abs()), policy) && saved then Some(state) else old(disk)
    {
      if policy.epoch == 0 || policy.revision == 0 || policy.resetDay < 1 || policy.resetDay > 31 ||
         policy.periodEnd <= policy.periodStart || !policy.zoneKnown {
        return false;
      }
      var was := state.policy;
      if loaded && policy.revision < was.revision {
        return true;
      }
      if !loaded || policy.epoch != was.epoch {
        lost := policy.initialized;
        state := Stored(policy, Sample(policy.epoch, policy.periodStart, policy.sequence, policy.total, false, NoFault,
                                       {}), NoReading);
        loaded := true;
      } else {
        Adopt(policy);
      }
      confirmedAt := Some(now);
      Save(saved);
      return true;
    }

    /** The loop over the counters of a usable reading. */
    method Consume(reading: Reading) returns (total: Bytes)
      requires reading.counters != map[] && reading.boot != ""
      ensures total == if state.previous.boot == "" then state.sample.total
                       else Clip(state.sample.total.Plus(Increment(state.previous, reading)))
    {
      total := state.sample.total;
      var names := reading.counters.Keys;
      while names != {}
        invariant names <= reading.counters.Keys
        invariant total == if state.previous.boot == "" || names == reading.counters.Keys then state.sample.total
                           else Clip(state.sample.total.Plus(GainOver(state.previous, reading,
                                                                      reading.counters.Keys - names)))
      {
        var name :| name in names;
        var done := reading.counters.Keys - names;
        if state.previous.boot != "" {
          assert names == reading.counters.Keys <==> done == {} by {
            assert reading.counters.Keys == done + names;
          }
          GainNext(state.previous, reading, done, name, state.sample.total, total);
          total := AddBytes(total, Gain(state.previous, reading, name));
        }
        names := names - {name};
        assert reading.counters.Keys - names == done + {name};
      }
      assert reading.counters.Keys - names == reading.counters.Keys;
    }

    /** One sample of the interfaces, unless the panel does the counting or the state was lost. */
    method Measure(reading: Option<Reading>)
      modifies `state
      ensures Abs() == Measured(old(Abs()), reading)
    {
      var s := state.sample.(sequence := state.sample.sequence + 1);
      if state.policy.mode == Proxy {
        state := state.(sample := s.(fault := NoFault, initialized := true, interfaces := {}));
      } else if lost {
        state := state.(sample := s.(fault := StateLost, initialized := false));
      } else if !Readable(reading) {
        state := state.(sample := s.(fault := Unavailable));
      } else {
        var total := Consume(reading.value);
        s := s.(fault := NoFault, initialized := true, total := total, interfaces := reading.value.counters.Keys);
        state := state.(sample := s, previous := reading.value);
      }
    }

    method Tick(now: int, period: (int, int), reading: Option<Reading>, saved: bool) returns (blocked: bool)
      modifies this
      ensures Abs() == TickOf(old(Abs()), now, period, reading, saved)
      ensures blocked == Blocked(Abs(), now)
      ensures disk == if old(loaded) && saved then Some(state) else old(disk)
    {
      if !loaded {
        return true;
      }
      if now >= state.policy.periodEnd {
        var p := state.policy.(periodStart := period.0, periodEnd := period.1, baseline := 0, proxy := Nothing);
        state := state.(policy := p, sample := EmptySample(p.epoch, period.0));
        if lost {
          lost := false;
          state := state.(previous := NoReading);
        }
      }
      Measure(reading);
      Save(saved);
      if !saved {
        state := state.(sample := state.sample.(fault := WriteFailed));
      }
      return Blocked(Abs(), now);
    }
  }
}
