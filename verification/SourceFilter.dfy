/**
 Replacing the source filters while packets keep flowing: one command at a time, any of which may fail or be the last.
 */
module SourceFilter {
  import opened Common
  import opened PortSet
  import opened FirewallPlan
  import opened SourceSets

  /**
   What a crash at some moment would leave: the kernel's state and the recorded set names. `saved` says whether the
   record in the file has been replaced since the synchronisation began.
   */
  datatype Moment = Moment(kernel: Kernel, durable: set<SetName>, saved: bool)

  /** No rules without the chain, and no first place without a jump to it. */
  predicate ProperChain(chain: Chain) {
    (!chain.present ==> chain.rules == []) && (chain.jumps == 0 ==> !chain.first)
  }

  predicate References(k: Kernel, name: SetName) {
    || (exists i :: 0 <= i < |k.chain4.rules| && k.chain4.rules[i].blockedBy == name)
    || (exists i :: 0 <= i < |k.chain6.rules| && k.chain6.rules[i].blockedBy == name)
  }

  ghost predicate NamesPresent(k: Kernel) {
    forall name :: References(k, name) ==> name in k.sets
  }

  /** The chains were written by this instance. */
  ghost predicate OwnReferences(k: Kernel) {
    forall name :: References(k, name) ==> name.Own? && !name.temporary
  }

  /** Sets of others are left alone; all others have their names listed. */
  ghost predicate Recorded(sets: map<SetName, Content>, names: set<SetName>, alien: map<SetName, Content>) {
    && (forall name :: name in sets && name !in alien ==> name in names)
    && (forall name :: name in alien ==> name in sets && sets[name] == alien[name])
  }

  /** The names that an earlier failed save left in memory only, until a save replaces the file. */
  function Missing(pending: set<SetName>, saved: bool): set<SetName> {
    if saved then {} else pending
  }

  /** A set of this instance that the record does not name. */
  predicate OffRecord(m: Moment, alien: map<SetName, Content>, name: SetName) {
    name in m.kernel.sets && name !in alien && name !in m.durable
  }

  /** A set in use since the start holds what it held, or what its name says. */
  ghost predicate KeptSet(start: map<SetName, Content>, sets: map<SetName, Content>, name: SetName) {
    name in start && name in sets && (sets[name] == start[name] || (name.Own? && sets[name] == Nominal(name)))
  }

  ghost predicate KeptSets(start: Kernel, sets: map<SetName, Content>) {
    forall name :: References(start, name) ==> KeptSet(start.sets, sets, name)
  }

  ghost predicate Served(plans: seq<SourcePlan>, sets: map<SetName, Content>) {
    AllNominal(plans, sets) && AllPresent(plans, sets)
  }

  /** Each family's chain is still the old one, with its sets kept, or already the wanted one, with its sets right. */
  ghost predicate Between(start: Kernel, plans: seq<SourcePlan>, k: Kernel, family: int) {
    || (k.ChainOf(family) == start.ChainOf(family) && KeptSets(start, k.sets))
    || (k.ChainOf(family) == WantedChain(plans, family) && Served(plans, k.sets))
  }

  /** The names to come are present, own sets are on record but for the names missing from it, and filtering goes on. */
  ghost predicate SafeMoment(start: Kernel, plans: seq<SourcePlan>, alien: map<SetName, Content>, pending: set<SetName>,
                             m: Moment) {
    && NamesPresent(m.kernel)
    && Recorded(m.kernel.sets, m.durable + Missing(pending, m.saved), alien)
    && m.durable !! Missing(pending, m.saved)
    && Between(start, plans, m.kernel, 4) && Between(start, plans, m.kernel, 6)
  }

  /**
   At every safe moment the sets of this instance that a crash would leave off the record are exactly those whose names
   were pending when the synchronisation began, as long as no save has replaced the file since.
   */
  lemma OffRecordExactly(start: Kernel, plans: seq<SourcePlan>, alien: map<SetName, Content>, pending: set<SetName>,
                         m: Moment, name: SetName)
    requires SafeMoment(start, plans, alien, pending, m) && name in m.kernel.sets && name !in alien
    ensures OffRecord(m, alien, name) <==> name in pending && !m.saved
  {
  }

  /** At a safe moment nothing that both the old filters and the new plans stop gets through. */
  lemma NothingSlipsThrough(start: Kernel, plans: seq<SourcePlan>, alien: map<SetName, Content>, pending: set<SetName>,
                            m: Moment,
                            packet: Packet)
    requires SafeMoment(start, plans, alien, pending, m) && ValidPlans(plans)
    requires packet.family in {4, 6} && packet.source < Pow2(Width(packet.family))
    requires DroppedAsNamed(start, packet) && PlansDrop(plans, packet)
    ensures Dropped(m.kernel, packet)
  {
    if m.kernel.ChainOf(packet.family) == WantedChain(plans, packet.family) && Served(plans, m.kernel.sets) {
      WantedChainDrops(plans, m.kernel, packet);
    } else {
      var chain := start.ChainOf(packet.family);
      var i :| && 0 <= i < |chain.rules| && Matches(chain.rules[i], packet)
      && InSet(start.sets, chain.rules[i].blockedBy, packet)
               && chain.rules[i].blockedBy.Own? && chain.rules[i].blockedBy.family == packet.family
               && InAny(chain.rules[i].blockedBy.prefixes, packet.family, packet.source);
      assert References(start, chain.rules[i].blockedBy);
      assert InSet(m.kernel.sets, chain.rules[i].blockedBy, packet);
    }
  }

  /** With sets that hold what their names say to begin with, the old filters are simply what they drop. */
  lemma UntamperedAsNamed(start: Kernel, packet: Packet)
    requires OwnReferences(start) && packet.family in {4, 6}
    requires forall name :: References(start, name) ==> name in start.sets && start.sets[name] == Nominal(name)
    ensures DroppedAsNamed(start, packet) <==> Dropped(start, packet)
  {
    var chain := start.ChainOf(packet.family);
    forall i | 0 <= i < |chain.rules| ensures References(start, chain.rules[i].blockedBy) {
    }
  }

  lemma WantedNamesPresent(plans: seq<SourcePlan>, k: Kernel, family: int)
    requires NamesPresent(k) && AllPresent(plans, k.sets) && (family == 4 || family == 6)
    ensures NamesPresent(k.WithChain(family, WantedChain(plans, family)))
  {
    var now := k.WithChain(family, WantedChain(plans, family));
    forall name | References(now, name) ensures name in k.sets {
      if !References(k, name) {
        assert name in (set rule | rule in SourceRules(plans, family) :: rule.blockedBy);
        var rule :| rule in SourceRules(plans, family) && rule.blockedBy == name;
        RulesNameDesired(plans, family, rule);
      }
    }
  }

  /** Whatever moment a crash chooses, the next process finds what it needs to synchronise again. */
  lemma CrashCanResume(start: Kernel, plans: seq<SourcePlan>, alien: map<SetName, Content>, pending: set<SetName>,
                       m: Moment)
    requires SafeMoment(start, plans, alien, pending, m)
    requires OwnReferences(start) && ProperChain(start.chain4) && ProperChain(start.chain6)
    ensures NamesPresent(m.kernel) && OwnReferences(m.kernel) && ProperChain(m.kernel.chain4)
            && ProperChain(m.kernel.chain6)
  {
    forall name | References(m.kernel, name) ensures name.Own? && !name.temporary {
      if !References(start, name) {
        var family := if name in (set r | r in m.kernel.chain4.rules :: r.blockedBy) && m.kernel.chain4 != start.chain4
                      then 4 else 6;
        assert name in (set r | r in SourceRules(plans, family) :: r.blockedBy);
        var rule :| rule in SourceRules(plans, family) && rule.blockedBy == name;
        RulesNameDesired(plans, family, rule);
      }
    }
  }

  // ---------------------------------------------------------------- putting plans into force

  /** The sets in the order they are provided: each plan's two families. */
  function NameAt(plans: seq<SourcePlan>, k: nat): SetName
    requires k < 2 * |plans|
  {
    SetOf(plans[k / 2], if k % 2 == 0 then 4 else 6)
  }

  /** One of the first `k` sets; an empty one is not needed. */
  predicate Among(plans: seq<SourcePlan>, k: nat, name: SetName)
    requires k <= 2 * |plans|
  {
    exists j :: 0 <= j < k && name == NameAt(plans, j) && name.prefixes != {}
  }

  lemma AmongNext(plans: seq<SourcePlan>, k: nat)
    requires k < 2 * |plans|
    ensures forall name ::
              Among(plans, k + 1, name) <==> Among(plans, k, name) || (name == NameAt(plans, k) && name.prefixes != {})
  {
  }

  lemma DesiredAt(plans: seq<SourcePlan>, k: nat)
    requires k < 2 * |plans|
    ensures NameAt(plans, k).prefixes != {} ==> Desired(plans, NameAt(plans, k))
  {
    assert NameAt(plans, k).prefixes != {} ==> IsSetOf(plans[k / 2], NameAt(plans, k));
  }

  lemma AmongDesired(plans: seq<SourcePlan>)
    ensures forall name :: Among(plans, 2 * |plans|, name) <==> Desired(plans, name)
  {
    forall name | Among(plans, 2 * |plans|, name) ensures Desired(plans, name) {
      var j :| 0 <= j < 2 * |plans| && name == NameAt(plans, j) && name.prefixes != {};
      DesiredAt(plans, j);
    }
    forall name | Desired(plans, name) ensures Among(plans, 2 * |plans|, name) {
      var i :| 0 <= i < |plans| && IsSetOf(plans[i], name);
      assert NameAt(plans, 2 * i) == SetOf(plans[i], 4) && NameAt(plans, 2 * i + 1) == SetOf(plans[i], 6);
    }
  }

  function Temporary(name: SetName): SetName
    requires name.Own?
  {
    name.(temporary := true)
  }

  /** Why a set cannot be provided: too large, its name taken by a set that is not in memory, or one not replaceable. */
  predicate Hindered(sets: map<SetName, Content>, memory: set<SetName>, name: SetName)
    requires name.Own?
  {
    || |name.prefixes| > 262144
    || (name in sets && name !in memory)
    || (name in sets && sets[name] != Nominal(name) && !Replaceable(sets, memory, name))
  }

  predicate Replaceable(sets: map<SetName, Content>, memory: set<SetName>, name: SetName)
    requires name.Own? && name in sets
  {
    sets[name].family == name.family && (Temporary(name) in sets ==> Temporary(name) in memory)
  }

  /** Nothing has to be written for this name. */
  predicate Settled(sets: map<SetName, Content>, memory: set<SetName>, name: SetName)
    requires name.Own?
  {
    name in memory && (name in sets ==> sets[name] == Nominal(name))
  }

  ghost predicate NothingHinders(plans: seq<SourcePlan>, sets: map<SetName, Content>, memory: set<SetName>) {
    forall name :: Desired(plans, name) ==> !Hindered(sets, memory, name)
  }

  ghost predicate OnlyDesired(plans: seq<SourcePlan>, memory: set<SetName>) {
    forall name :: name in memory ==> Desired(plans, name)
  }

  ghost predicate NothingToWrite(plans: seq<SourcePlan>, sets: map<SetName, Content>, memory: set<SetName>) {
    forall name :: Desired(plans, name) ==> Settled(sets, memory, name)
  }

  class Filter {
    var kernel: Kernel
    var durable: set<SetName>
    var memory: set<SetName>
    /** Whether every command, read and save succeeds from now on; otherwise any of them may fail. */
    var calm: bool
    /** The plans being put into force. */
    var plans: seq<SourcePlan>
    ghost var start: Kernel
    ghost var alien: map<SetName, Content>
    ghost var pending: set<SetName>
    ghost var saved: bool
    ghost var trace: seq<Moment>

    /** A process starting on what a crash at some moment left behind. */
    constructor (left: Moment, calm: bool)
      ensures kernel == left.kernel && durable == left.durable && memory == left.durable && this.calm == calm
    {
      kernel, durable, memory, plans, this.calm := left.kernel, left.durable, left.durable, [], calm;
    }

    /** What a synchronisation may start on: after a crash, or after a synchronisation that succeeded or failed. */
    ghost predicate Startable()
      reads this
    {
      && NamesPresent(kernel) && OwnReferences(kernel) && ProperChain(kernel.chain4) && ProperChain(kernel.chain6)
      && forall name :: name in kernel.sets && name in durable ==> name in memory
    }

    /** Every moment of this synchronisation was safe. */
    ghost predicate Sound()
      reads this
    {
      && SafeMoment(start, plans, alien, pending, Moment(kernel, durable, saved))
      && Recorded(kernel.sets, memory, alien)
      && memory !! alien.Keys && durable !! alien.Keys
      && OwnReferences(start) && ProperChain(start.chain4) && ProperChain(start.chain6)
      && trace != [] && trace[|trace| - 1] == Moment(kernel, durable, saved)
      && forall m :: m in trace ==> SafeMoment(start, plans, alien, pending, m)
    }

    /** ... and no name is in memory only but those missing since before. */
    ghost predicate Valid()
      reads this
    {
      Sound() && memory <= durable + Missing(pending, saved)
    }

    /** The sets are being prepared; no chain has been replaced yet. */
    ghost predicate Preparing()
      reads this
    {
      kernel.chain4 == start.chain4 && kernel.chain6 == start.chain6 && KeptSets(start, kernel.sets)
    }

    /** Whether one command, read or save succeeds. */
    method Succeeds() returns (ok: bool)
      ensures calm ==> ok
    {
      ok := *;
      if calm {
        ok := true;
      }
    }

    /**
     The first save that replaces the file brings every name to disk; one that is reported as failed may have done so
     too.
     */
    method Save() returns (ok: bool)
      modifies `durable, `saved, `trace
      ensures calm ==> ok
      ensures (durable == memory && saved) || (!ok && durable == old(durable) && saved == old(saved))
      ensures trace == old(trace) + [Moment(kernel, durable, saved)]
    {
      ok := Succeeds();
      var misreported: bool := *;
      if ok || misreported {
        durable, saved := memory, true;
      }
      trace := trace + [Moment(kernel, durable, saved)];
    }

    /** A name already in memory is taken to be on disk; another one stays in memory even if its save fails. */
    method Remember(name: SetName) returns (ok: bool)
      requires Valid() && name !in alien
      modifies `memory, `durable, `saved, `trace
      ensures Sound() && (ok ==> Valid()) && (old(Preparing()) ==> Preparing())
      ensures calm || name in old(memory) ==> ok
      ensures memory == old(memory) + {name}
      ensures if name in old(memory) then durable == old(durable) && saved == old(saved)
              else (durable == memory && saved) || (!ok && durable == old(durable) && saved == old(saved))
    {
      if name in memory {
        return true;
      }
      memory := memory + {name};
      ok := Save();
    }

    method Forget(name: SetName) returns (ok: bool)
      requires Valid() && name !in kernel.sets
      modifies `memory, `durable, `saved, `trace
      ensures Valid() && memory == old(memory) - {name} && (old(Preparing()) ==> Preparing())
      ensures calm ==> ok
    {
      memory := memory - {name};
      ok := Save();
    }

    /** Runs one command that would change the kernel's state; a failure may leave `partial` instead. */
    method Command(changed: Kernel, partial: Kernel) returns (ok: bool)
      modifies `kernel, `trace
      ensures calm ==> ok
      ensures ok ==> kernel == changed
      ensures ok || kernel == partial || kernel == changed || kernel == old(kernel)
      ensures trace == old(trace) + [Moment(kernel, durable, saved)]
    {
      ok := Succeeds();
      var outcome: int := *;
      if ok || outcome == 1 {
        kernel := changed;
      } else if outcome == 2 {
        kernel := partial;
      }
      trace := trace + [Moment(kernel, durable, saved)];
    }

    /** `ipset restore` of a new set, which may stop half-way. */
    method Create(name: SetName, content: Content) returns (ok: bool)
      requires Valid() && Preparing() && name !in kernel.sets && name in memory && name.Own?
      modifies `kernel, `trace
      ensures Valid() && Preparing() && (calm ==> ok)
      ensures ok ==> kernel == old(kernel).(sets := old(kernel).sets[name := content])
    {
      var some: set<Prefix> := *;
      var partial := content.(prefixes := content.prefixes * some);
      ok := Command(kernel.(sets := kernel.sets[name := content]), kernel.(sets := kernel.sets[name := partial]));
    }

    /** `ipset destroy`; the kernel refuses while a chain refers to the set. */
    method Destroy(name: SetName) returns (ok: bool)
      requires Valid() && name in kernel.sets && name in memory
      requires Preparing() || (Served(plans, kernel.sets) && !Desired(plans, name) && WantedInstalled())
      modifies `kernel, `trace
      ensures Valid() && (old(Preparing()) ==> Preparing())
      ensures calm && !References(old(kernel), name) ==> ok
      ensures ok ==> kernel == old(kernel).(sets := old(kernel).sets - {name})
      ensures old(WantedInstalled() && Served(plans, kernel.sets)) && !Desired(plans, name) ==>
                WantedInstalled() && Served(plans, kernel.sets)
    {
      if References(kernel, name) {
        return false;
      }
      DestroyedSafe(name);
      ok := Command(kernel.(sets := kernel.sets - {name}), kernel);
    }

    /** Without a set that no chain names and no plan wants, filtering goes on as before. */
    lemma DestroyedSafe(name: SetName)
      requires Valid() && name in memory && !References(kernel, name)
      requires Preparing() || (Served(plans, kernel.sets) && !Desired(plans, name) && WantedInstalled())
      ensures SafeMoment(start, plans, alien, pending,
                         Moment(kernel.(sets := kernel.sets - {name}), durable, saved))
      ensures Preparing() ==> KeptSets(start, kernel.sets - {name})
      ensures Served(plans, kernel.sets) && !Desired(plans, name) ==> Served(plans, kernel.sets - {name})
    {
      assert forall n :: References(kernel.(sets := kernel.sets - {name}), n) <==> References(kernel, n);
    }

    ghost predicate WantedInstalled()
      reads this
    {
      kernel.chain4 == WantedChain(plans, 4) && kernel.chain6 == WantedChain(plans, 6)
    }

    /** `ipset swap`: the set in use gets its new content in one step. */
    method Swap(temporary: SetName, name: SetName) returns (ok: bool)
      requires Valid() && Preparing() && {temporary, name} <= kernel.sets.Keys * memory
      requires name.Own? && !name.temporary && temporary.Own? && temporary.temporary
               && kernel.sets[temporary] == Nominal(name)
      modifies `kernel, `trace
      ensures Valid() && Preparing()
      ensures calm ==> (ok <==> old(kernel).sets[name].family == name.family)
      ensures ok ==> old(kernel).sets[name].family == name.family
      ensures ok ==>
                kernel.sets == old(kernel).sets[name := Nominal(name)][temporary := old(kernel).sets[name]] &&
                kernel == old(kernel).(sets := kernel.sets)
    {
      if kernel.sets[temporary].family != kernel.sets[name].family {
        return false;
      }
      ok := Command(kernel.(sets := kernel.sets[name := kernel.sets[temporary]][temporary := kernel.sets[name]]),
                    kernel);
    }

    /** `ipset save` compared with what the name says; `None` when it cannot be read. */
    method SetMatches(name: SetName) returns (matches: Option<bool>)
      requires name in kernel.sets && name.Own?
      ensures calm ==> matches.Some?
      ensures matches.Some? ==> matches.value == (kernel.sets[name] == Nominal(name))
    {
      var readable := Succeeds();
      return if readable then Some(kernel.sets[name] == Nominal(name)) else None;
    }

    /** Everything but this set and its temporary one is as it was. */
    ghost predicate OthersSame(was: Kernel, known: set<SetName>, name: SetName)
      reads this
      requires name.Own?
    {
      forall n :: n != name && n != Temporary(name) ==>
        && (n in kernel.sets <==> n in was.sets) && (n in was.sets ==> kernel.sets[n] == was.sets[n])
        && (n in memory <==> n in known)
    }

    /** A set with this name that holds what the name says; without failures, exactly when nothing stands in the way. */
    method EnsureSet(name: SetName) returns (ok: bool)
      requires Valid() && Preparing() && name.Own? && !name.temporary
      modifies `kernel, `memory, `durable, `saved, `trace
      ensures Sound() && Preparing() && (ok ==> Valid())
      ensures ok ==> name in kernel.sets && kernel.sets[name] == Nominal(name)
                     && OthersSame(old(kernel), old(memory), name)
      ensures ok ==> !Hindered(old(kernel).sets, old(memory), name)
      ensures calm && !Hindered(old(kernel).sets, old(memory), name) ==> ok
      ensures old(Settled(kernel.sets, memory, name)) ==>
                memory == old(memory) && durable == old(durable) && saved == old(saved)
    {
      if |name.prefixes| > 262144 {
        return false;
      }
      var readable := Succeeds();
      if !readable || (name in kernel.sets && name !in memory) {
        return false;
      }
      ok := Remember(name);
      if ok {
        ok := Provide(name);
      }
    }

    /** The content of a set on record: created, found as it should be, or replaced. */
    method Provide(name: SetName) returns (ok: bool)
      requires Valid() && Preparing() && name.Own? && !name.temporary && name in memory && |name.prefixes| <= 262144
      modifies `kernel, `memory, `durable, `saved, `trace
      ensures Sound() && Preparing() && (ok ==> Valid())
      ensures ok ==> name in kernel.sets && kernel.sets[name] == Nominal(name)
                     && OthersSame(old(kernel), old(memory), name)
      ensures ok ==> !Hindered(old(kernel).sets, old(memory), name)
      ensures calm && !Hindered(old(kernel).sets, old(memory), name) ==> ok
      ensures old(Settled(kernel.sets, memory, name)) ==>
                memory == old(memory) && durable == old(durable) && saved == old(saved)
    {
      if name !in kernel.sets {
        ok := Create(name, Nominal(name));
      } else {
        var matches := SetMatches(name);
        if matches.None? || matches.value {
          return matches.Some?;
        }
        ok := Replace(name);
      }
      if ok {
        var matches := SetMatches(name);
        ok := matches == Some(true);
      }
    }

    /** A temporary set left over from an earlier attempt goes. */
    method ClearTemporary(temporary: SetName) returns (ok: bool)
      requires Valid() && Preparing() && temporary.Own? && temporary.temporary
      modifies `kernel, `trace
      ensures Valid() && Preparing()
      ensures ok ==> kernel == old(kernel).(sets := old(kernel).sets - {temporary})
      ensures ok ==> (temporary in old(kernel).sets ==> temporary in memory)
      ensures calm && (temporary in kernel.sets ==> temporary in memory) ==> ok
    {
      if temporary !in kernel.sets {
        assert kernel.sets - {temporary} == kernel.sets;
        return true;
      }
      if temporary !in memory {
        return false;
      }
      NotReferenced(temporary);
      ok := Destroy(temporary);
    }

    /** The content under a temporary name, on record first. */
    method Build(temporary: SetName, content: Content) returns (ok: bool)
      requires Valid() && Preparing() && temporary.Own? && temporary.temporary
      modifies `kernel, `memory, `durable, `saved, `trace
      ensures Sound() && Preparing() && (ok ==> Valid())
      ensures ok ==> kernel == old(kernel).(sets := old(kernel).sets[temporary := content])
                     && memory == old(memory) + {temporary}
      ensures ok ==> (temporary in old(kernel).sets ==> temporary in old(memory))
      ensures calm && (temporary in old(kernel).sets ==> temporary in old(memory)) ==> ok
    {
      ok := ClearTemporary(temporary);
      if ok {
        ok := Remember(temporary);
      }
      if ok {
        ok := Create(temporary, content);
      }
    }

    /** Builds the content under a temporary name and swaps it in, so that the set in use is never empty. */
    method Replace(name: SetName) returns (ok: bool)
      requires Valid() && Preparing() && name.Own? && !name.temporary && name in kernel.sets && name in memory
      modifies `kernel, `memory, `durable, `saved, `trace
      ensures Sound() && Preparing() && (ok ==> Valid())
      ensures ok ==> name in kernel.sets && kernel.sets[name] == Nominal(name)
                     && OthersSame(old(kernel), old(memory), name)
      ensures ok ==> Replaceable(old(kernel).sets, old(memory), name)
      ensures calm && Replaceable(old(kernel).sets, old(memory), name) ==> ok
    {
      var temporary := Temporary(name);
      ok := Build(temporary, Nominal(name));
      if ok {
        ok := Swap(temporary, name);
      }
      if ok {
        ok := Discard(temporary);
      }
    }

    /** The old content, now under the temporary name, and the record of it go. */
    method Discard(temporary: SetName) returns (ok: bool)
      requires Valid() && Preparing() && temporary.Own? && temporary.temporary && temporary in memory
      modifies `kernel, `memory, `durable, `saved, `trace
      ensures Valid() && Preparing() && (calm ==> ok)
      ensures ok ==> kernel == old(kernel).(sets := old(kernel).sets - {temporary})
                     && memory == old(memory) - {temporary}
    {
      ok := ClearTemporary(temporary);
      if ok {
        ok := Forget(temporary);
      }
    }

    lemma NotReferenced(name: SetName)
      requires Sound() && Preparing() && name.Own? && name.temporary
      ensures !References(kernel, name)
    {
      assert References(kernel, name) ==> References(start, name);
    }

    /** One family's chain, replaced in a single transaction and read back. */
    method SyncFamily(family: int) returns (ok: bool)
      requires Valid() && Served(plans, kernel.sets) && (family == 4 || family == 6)
      modifies `kernel, `trace
      ensures Valid() && kernel.sets == old(kernel).sets && (calm ==> ok)
      ensures ok ==> kernel == old(kernel).WithChain(family, WantedChain(plans, family))
    {
      var readable := Succeeds();
      if !readable {
        return false;
      }
      var chain, rules := kernel.ChainOf(family), SourceRules(plans, family);
      if plans != [] && chain.present && chain.first && chain.jumps == 1 && chain.rules == rules {
        return true;
      }
      if plans == [] && !chain.present && chain.jumps == 0 {
        return true;
      }
      WantedNamesPresent(plans, kernel, family);
      ok := Command(kernel.WithChain(family, WantedChain(plans, family)), kernel);
      if ok {
        ok := Succeeds();
      }
    }

    /** The sets up to here are right, and nothing that was right has been spoilt. */
    ghost predicate Ready(names: set<SetName>)
      reads this
    {
      forall name :: name in names ==>
                name.Own? && !name.temporary && name in kernel.sets && kernel.sets[name] == Nominal(name)
    }

    /** What stood in the way of a set not dealt with yet stands there now, and nothing else does. */
    ghost predicate Untouched(was: Kernel, known: set<SetName>, names: set<SetName>)
      reads this
    {
      forall n: SetName :: n.Own? && !n.temporary && n !in names ==>
        && (Hindered(kernel.sets, memory, n) <==> Hindered(was.sets, known, n))
        && (Settled(kernel.sets, memory, n) <==> Settled(was.sets, known, n))
    }

    lemma UntouchedNext(was: Kernel, known: set<SetName>, before: Kernel, mid: set<SetName>, names: set<SetName>,
                        name: SetName)
      requires name.Own? && !name.temporary && OthersSame(before, mid, name)
      requires forall n: SetName :: n.Own? && !n.temporary && n !in names ==>
                 && (Hindered(before.sets, mid, n) <==> Hindered(was.sets, known, n))
                 && (Settled(before.sets, mid, n) <==> Settled(was.sets, known, n))
      ensures Untouched(was, known, names + {name})
    {
      forall n: SetName | n.Own? && !n.temporary && n != name
        ensures Hindered(kernel.sets, memory, n) <==> Hindered(before.sets, mid, n)
        ensures Settled(kernel.sets, memory, n) <==> Settled(before.sets, mid, n)
      {
        assert n in kernel.sets <==> n in before.sets;
        assert Temporary(n) != Temporary(name);
        assert Temporary(n) in kernel.sets <==> Temporary(n) in before.sets;
      }
    }

    method EnsureNext(names: set<SetName>, name: SetName, ghost was: Kernel, ghost known: set<SetName>)
      returns (ok: bool, more: set<SetName>)
      requires Valid() && Preparing() && Ready(names) && Untouched(was, known, names) && name.Own? && !name.temporary
      modifies `kernel, `memory, `durable, `saved, `trace
      ensures Sound() && Preparing() && (ok ==> Valid() && Ready(more) && Untouched(was, known, more))
      ensures ok ==> more == if name.prefixes == {} then names else names + {name}
      ensures ok && name.prefixes != {} && name !in names ==> !Hindered(was.sets, known, name)
      ensures calm && (name.prefixes == {} || !Hindered(was.sets, known, name)) ==> ok
      ensures name.prefixes == {} || name in names || Settled(was.sets, known, name) ==>
                memory == old(memory) && durable == old(durable) && saved == old(saved)
    {
      if name.prefixes == {} || name in names {
        return true, names;
      }
      ghost var before, mid := kernel, memory;
      ok := EnsureSet(name);
      more := names + {name};
      if ok {
        UntouchedNext(was, known, before, mid, names, name);
      }
    }

    /** The first `k` sets are ready, none of them was hindered, and the others are as they were. */
    ghost predicate Progress(desired: set<SetName>, k: nat, was: Kernel, known: set<SetName>)
      reads this
      requires k <= 2 * |plans|
    {
      && Valid() && Preparing() && Ready(desired) && Untouched(was, known, desired)
      && (forall name :: name in desired <==> Among(plans, k, name))
      && (forall name :: name in desired ==> !Hindered(was.sets, known, name))
    }

    method EnsureAt(names: set<SetName>, k: nat, ghost was: Kernel, ghost known: set<SetName>)
      returns (ok: bool, more: set<SetName>)
      requires k < 2 * |plans| && Progress(names, k, was, known)
      modifies `kernel, `memory, `durable, `saved, `trace
      ensures Sound() && Preparing() && (ok ==> Progress(more, k + 1, was, known))
      ensures calm && (NameAt(plans, k).prefixes == {} || !Hindered(was.sets, known, NameAt(plans, k))) ==> ok
      ensures NameAt(plans, k).prefixes == {} || Settled(was.sets, known, NameAt(plans, k)) ==>
                memory == old(memory) && durable == old(durable) && saved == old(saved)
    {
      AmongNext(plans, k);
      ok, more := EnsureNext(names, NameAt(plans, k), was, known);
    }

    /** Every set the plans need, each once. */
    method EnsureSets() returns (ok: bool, desired: set<SetName>)
      requires Valid() && Preparing()
      modifies `kernel, `memory, `durable, `saved, `trace
      ensures Sound() && Preparing() && (ok ==> Valid() && Served(plans, kernel.sets))
      ensures ok ==> forall name :: name in desired <==> Desired(plans, name)
      ensures ok ==> NothingHinders(plans, old(kernel).sets, old(memory))
      ensures calm && NothingHinders(plans, old(kernel).sets, old(memory)) ==> ok
      ensures NothingToWrite(plans, old(kernel).sets, old(memory)) ==>
                memory == old(memory) && durable == old(durable) && saved == old(saved)
    {
      desired := {};
      ghost var was, known := kernel, memory;
      AmongDesired(plans);
      for k := 0 to 2 * |plans|
        invariant Progress(desired, k, was, known)
        invariant NothingToWrite(plans, was.sets, known) ==>
                    memory == old(memory) && durable == old(durable) && saved == old(saved)
      {
        DesiredAt(plans, k);
        ok, desired := EnsureAt(desired, k, was, known);
        if !ok {
          return;
        }
      }
      ReadyServes(desired);
      ok := true;
    }

    lemma ReadyServes(desired: set<SetName>)
      requires Ready(desired) && forall name :: name in desired <==> Desired(plans, name)
      ensures Served(plans, kernel.sets)
    {
      forall i, family | 0 <= i < |plans| && family in {4, 6} && SetOf(plans[i], family).prefixes != {}
        ensures SetOf(plans[i], family) in kernel.sets
      {
        assert IsSetOf(plans[i], SetOf(plans[i], family));
        assert SetOf(plans[i], family) in desired;
      }
    }

    /** Destroys and forgets the recorded sets no longer needed; no chain names them any more. */
    method DropSets(desired: set<SetName>) returns (ok: bool)
      requires Valid() && WantedInstalled() && Served(plans, kernel.sets)
      requires forall name :: name in desired <==> Desired(plans, name)
      modifies `kernel, `memory, `durable, `saved, `trace
      ensures Valid() && WantedInstalled() && Served(plans, kernel.sets) && (calm ==> ok)
      ensures ok ==> forall name :: name in kernel.sets && name !in alien ==> Desired(plans, name)
      ensures old(memory) <= desired ==> memory == old(memory) && durable == old(durable) && saved == old(saved)
    {
      var readable := Succeeds();
      if !readable {
        return false;
      }
      var todo := memory - desired;
      ghost var known, disk, written := memory, durable, saved;
      while todo != {}
        invariant Valid() && WantedInstalled() && Served(plans, kernel.sets)
        invariant todo <= memory && forall name :: name in memory && name !in todo ==> Desired(plans, name)
        invariant todo !! desired && todo <= known
        invariant known <= desired ==> memory == known && durable == disk && saved == written
      {
        var name :| name in todo;
        if name in kernel.sets {
          OnlyDesiredReferenced(name);
          ok := Destroy(name);
          if !ok {
            return;
          }
        }
        ok := Forget(name);
        todo := todo - {name};
        if !ok {
          return;
        }
      }
      ok := true;
    }

    lemma OnlyDesiredReferenced(name: SetName)
      requires WantedInstalled() && !Desired(plans, name)
      ensures !References(kernel, name)
    {
      if References(kernel, name) {
        var family := if exists i :: 0 <= i < |kernel.chain4.rules| && kernel.chain4.rules[i].blockedBy == name then 4
                      else 6;
        var rules := kernel.ChainOf(family).rules;
        var i :| 0 <= i < |rules| && rules[i].blockedBy == name;
        RulesNameDesired(plans, family, rules[i]);
      }
    }

    /** The first name a new process wants to record; `written` says whether it gets into the file. */
    method RememberFirst(name: SetName) returns (ok: bool, written: bool)
      requires Startable() && kernel.sets == map[] && name !in memory && durable == memory
      modifies `kernel, `durable, `memory, `plans, `start, `alien, `pending, `saved, `trace
      ensures kernel == old(kernel) && Startable() && (calm ==> ok)
      ensures memory == old(memory) + {name} && durable == (if written then memory else old(memory))
      ensures ok ==> written
    {
      plans, start, pending, saved := [], kernel, memory - durable, false;
      alien, trace := map[], [Moment(kernel, durable, false)];
      StartsSound();
      ok := Remember(name);
      written := name in durable;
    }

    lemma StartsSound()
      requires Startable() && start == kernel && pending == memory - durable && !saved
               && trace == [Moment(kernel, durable, false)]
      requires alien == map name | name in kernel.sets && name !in memory :: kernel.sets[name]
      ensures Valid() && Preparing()
    {
    }

    /** Whatever has been reached, the next synchronisation may start on it. */
    lemma SoundStarts()
      requires Sound()
      ensures Startable()
    {
      CrashCanResume(start, plans, alien, pending, Moment(kernel, durable, saved));
    }

    /** With all sets in place: the chains, then what is no longer needed. */
    method Switch(desired: set<SetName>) returns (ok: bool)
      requires Valid() && Served(plans, kernel.sets) && forall name :: name in desired <==> Desired(plans, name)
      modifies `kernel, `memory, `durable, `saved, `trace
      ensures Sound() && (calm ==> ok)
      ensures ok ==> Valid() && WantedInstalled() && Served(plans, kernel.sets)
      ensures ok ==> forall name :: name in kernel.sets && name !in alien ==> Desired(plans, name)
      ensures old(memory) <= desired ==> memory == old(memory) && durable == old(durable) && saved == old(saved)
    {
      ok := SyncFamily(4);
      if ok {
        ok := SyncFamily(6);
      }
      if ok {
        ok := DropSets(desired);
      }
    }

    /**
     Puts `wanted` into force, from any memory. Whatever happens on the way, every moment was safe and the next
     synchronisation may start; success leaves exactly the wanted filters and no set of this instance beside theirs.
     Without failures it succeeds exactly when nothing hinders a wanted set.
     */
    method Sync(wanted: seq<SourcePlan>) returns (ok: bool)
      requires Startable()
      modifies `kernel, `durable, `memory, `plans, `start, `alien, `pending, `saved, `trace
      ensures start == old(kernel) && plans == wanted && pending == old(memory) - old(durable)
      ensures alien == map name | name in old(kernel).sets && name !in old(memory) :: old(kernel).sets[name]
      ensures Sound() && Startable()
      ensures forall m, name :: m in trace && name in m.kernel.sets && name !in alien ==>
                (OffRecord(m, alien, name) <==> name in old(memory) - old(durable) && !m.saved)
      ensures ok ==> Valid() && WantedInstalled() && Served(plans, kernel.sets)
      ensures ok ==> forall name :: name in kernel.sets && name !in alien ==> Desired(plans, name)
      ensures ok ==> NothingHinders(wanted, old(kernel).sets, old(memory))
      ensures calm && NothingHinders(wanted, old(kernel).sets, old(memory)) ==> ok
      ensures NothingToWrite(wanted, old(kernel).sets, old(memory)) && OnlyDesired(wanted, old(memory)) ==>
                durable == old(durable) && !saved
    {
      plans, start, pending, saved := wanted, kernel, memory - durable, false;
      alien := map name | name in kernel.sets && name !in memory :: kernel.sets[name];
      trace := [Moment(kernel, durable, false)];
      StartsSound();
      var desired;
      ok, desired := EnsureSets();
      if ok {
        ok := Switch(desired);
      }
      SoundStarts();
      forall m, name | m in trace && name in m.kernel.sets && name !in alien
        ensures OffRecord(m, alien, name) <==> name in pending && !m.saved
      {
        OffRecordExactly(start, plans, alien, pending, m, name);
      }
    }
  }

  // ---------------------------------------------------------------- after a failed save

  lemma OneSetDesired(plan: SourcePlan, name: SetName)
    requires name == SetOf(plan, 4) && name.prefixes != {} && IpsetPrefixes(plan.blocked, 6) == {}
    ensures forall other :: Desired([plan], other) <==> other == name
  {
    assert Desired([plan], name) by {
      assert IsSetOf([plan][0], name);
    }
  }

  /**
   A process whose save of a new name fails before it replaces the file, and that then synchronises without any failure:
   the synchronisation succeeds, and the set exists off the record. A process started on what is left then refuses the
   set for ever: no synchronisation that wants it succeeds, and none takes the set away or puts it on record.
   */
  method OffRecordForGood(plan: SourcePlan, rounds: nat)
    returns (written: bool, synchronised: bool, left: Moment, refused: bool)
    requires IpsetPrefixes(plan.blocked, 4) != {} && IpsetPrefixes(plan.blocked, 6) == {}
    requires |IpsetPrefixes(plan.blocked, 4)| <= 262144
    ensures !written ==> synchronised && OffRecord(left, map[], SetOf(plan, 4)) && refused
  {
    var name := SetOf(plan, 4);
    OneSetDesired(plan, name);
    var filter := new Filter(Moment(Kernel(map[], NoChain, NoChain), {}, false), false);
    var ok;
    ok, written := filter.RememberFirst(name);
    if written {
      return true, false, Moment(Kernel(map[], NoChain, NoChain), {}, false), false;
    }
    filter.calm := true;
    synchronised := filter.Sync([plan]);
    left := Moment(filter.kernel, filter.durable, false);
    var next := new Filter(left, true);
    refused := true;
    for i := 0 to rounds
      invariant next.Startable() && name in next.kernel.sets && name !in next.memory && name !in next.durable && refused
    {
      ok := next.Sync([plan]);
      assert name in next.alien;
      refused := !ok;
    }
  }
}
