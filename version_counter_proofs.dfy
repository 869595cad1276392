/**
 Properties of the version-counter test (test_v001) stated on its value-level
 behaviour `VersionCounters.Payload`, which `VersionCounters.TestPayload` is
 proved to perform.

 Most properties are stated for a target whose counter descriptors are
 consistent: instances 0..n-1 are declared and each reports n instances.
 */
module VersionCounterProofs {
  import opened Val
  import opened VersionCounters

  /** The discovery id of counter instance `i` */
  function CounterConfig(i: u32): ConfigId
  {
    ConfigId(MiscVersionCounter, i)
  }

  /** Instances 0..n-1 are declared, and each descriptor reports n instances */
  ghost predicate Declared(p: Platform, n: u32)
  {
    forall j: u32 :: j < n ==> CounterConfig(j) in p.misc && p.misc[CounterConfig(j)].numInstance == n
  }

  /** The counter a declared instance names */
  function CounterOf(p: Platform, j: u32): CounterId
    requires CounterConfig(j) in p.misc
  {
    CounterId(j, p.misc[CounterConfig(j)].fwVerType)
  }

  /** Declared instance `j` reads its descriptor's maximum in `s` */
  ghost predicate AtMax(p: Platform, s: ValState, j: u32)
    requires CounterConfig(j) in p.misc
  {
    p.read(CounterOf(p, j), CounterValue(s, CounterOf(p, j))) == p.misc[CounterConfig(j)].fwVerCntMax
  }

  /** How a counter store answers one instance's anti-rollback sequence when
      the counter holds `c` and reads as `r`: the increment of `r` accepted,
      the rollback to `r` refused, the maximum accepted, the step past it
      refused, and the maximum read back as itself */
  ghost predicate RefusesRollback(p: Platform, id: CounterId, c: u32, max: u32)
  {
    var r := p.read(id, c);
    && p.update(Privileged, id, c, Inc(r)) == Success
    && p.update(Privileged, id, Inc(r), Dec(Inc(r))) != Success
    && p.update(Privileged, id, Inc(r), max) == Success
    && p.update(Privileged, id, max, Inc(max)) != Success
    && p.read(id, max) == max
  }

  /** Declared instance `j` meets its class floor and its store refuses
      rollback and overflow from the value it holds in `s` */
  ghost predicate InstanceConforms(p: Platform, s: ValState, j: u32)
    requires CounterConfig(j) in p.misc
  {
    var d := p.misc[CounterConfig(j)];
    FloorMet(d) && RefusesRollback(p, CounterOf(p, j), CounterValue(s, CounterOf(p, j)), d.fwVerCntMax)
  }

  /** Every declared instance from `from` up to `n` conforms in `s` */
  ghost predicate Conforming(p: Platform, s: ValState, from: u32, n: u32)
    requires Declared(p, n)
  {
    forall j: u32 :: from <= j < n ==> InstanceConforms(p, s, j)
  }

  /** Every call of the provoking sequence before the update itself succeeds */
  ghost predicate ProvokeAccepted(p: Platform)
  {
    && p.respond(NvramWriteRequest(NvBoot)) == Success
    && p.respond(ShcsrReadRequest) == Success
    && p.respond(NvramWriteRequest(NvShcsr)) == Success
    && p.respond(ShcsrWriteRequest) == Success
    && p.respond(BaseAddrRequest(Deprivileged)) == Success
  }

  /** Every de-privileged counter update faults instead of taking effect */
  ghost predicate DeprivilegedRefused(p: Platform)
  {
    forall id, cur, v :: p.update(Deprivileged, id, cur, v) != Success
  }

  // ---------------------------------------------------------------------------
  // One counter instance on the first boot
  // ---------------------------------------------------------------------------

  /** The anti-rollback sequence touches only its own counter, and stops only
      with a latched failure */
  lemma RollbackChecksFrame(p: Platform, s: ValState, i: u32, d: MiscDesc)
    ensures var c := RollbackChecks(p, s, i, d);
      && c.state == s.(counters := c.state.counters, latch := c.state.latch, log := c.state.log)
      && (forall id: CounterId :: id != CounterId(i, d.fwVerType) ==> CounterValue(c.state, id) == CounterValue(s, id))
      && (c.Stopped? ==> c.state.latch.Fail?)
  {
  }

  /** The anti-rollback sequence holds exactly when the store refuses rollback
      and overflow, and then leaves the latch alone and the counter at its
      maximum; the value the provoking update will write is the one read first */
  lemma RollbackChecksHeld(p: Platform, s: ValState, i: u32, d: MiscDesc)
    ensures var c := RollbackChecks(p, s, i, d);
      var id := CounterId(i, d.fwVerType);
      && (c.Held? <==> RefusesRollback(p, id, CounterValue(s, id), d.fwVerCntMax))
      && (c.Held? ==>
            && c.desc == d
            && c.state.latch == s.latch
            && c.count == Dec(Inc(p.read(id, CounterValue(s, id))))
            && CounterValue(c.state, id) == d.fwVerCntMax
            && p.read(id, d.fwVerCntMax) == d.fwVerCntMax)
  {
  }

  /** An instance's checks touch only its own counter and never the NVRAM or
      SHCSR, and every way they stop latches a failure; an undeclared instance
      stops them at CHECKPOINT_6 with NOT_FOUND */
  lemma CheckInstanceFrame(p: Platform, s: ValState, i: u32)
    ensures var c := CheckInstance(p, s, i);
      && c.state == s.(counters := c.state.counters, latch := c.state.latch, log := c.state.log)
      && (forall id: CounterId :: id.instance != i ==> CounterValue(c.state, id) == CounterValue(s, id))
      && (c.Stopped? ==> c.state.latch.Fail?)
      && (c.Stopped? && c.state.latch == Fail(Checkpoint6, NotFound) <==> CounterConfig(i) !in p.misc)
  {
    var (s1, st, d) := MiscConfigStep(p, s, CounterConfig(i));
    if st == Success && FloorMet(d) {
      RollbackChecksFrame(p, s1, i, d);
    }
  }

  /** An instance's checks hold exactly when its descriptor is declared, meets
      the class floor, and its store refuses rollback and overflow; they then
      leave the latch alone and the counter at its maximum */
  lemma CheckInstanceHeld(p: Platform, s: ValState, i: u32)
    ensures var c := CheckInstance(p, s, i);
      && (c.Held? <==> CounterConfig(i) in p.misc && InstanceConforms(p, s, i))
      && (c.Held? ==>
            && c.desc == p.misc[CounterConfig(i)]
            && c.state.latch == s.latch
            && c.count == Dec(Inc(p.read(CounterOf(p, i), CounterValue(s, CounterOf(p, i)))))
            && AtMax(p, c.state, i))
  {
    var (s1, st, d) := MiscConfigStep(p, s, CounterConfig(i));
    if st == Success && FloorMet(d) {
      RollbackChecksHeld(p, s1, i, d);
    }
  }

  /** The class floor: a trusted counter whose maximum is below 64, or a
      non-trusted one below 256, stops at CHECKPOINT_7 or CHECKPOINT_8 with
      INCORRECT_VALUE before any counter is read or updated */
  lemma ClassFloor(p: Platform, s: ValState, i: u32)
    requires CounterConfig(i) in p.misc
    ensures var c := CheckInstance(p, s, i);
      var d := p.misc[CounterConfig(i)];
      !FloorMet(d) ==>
        && c.Stopped?
        && c.state.latch == Fail(if d.fwVerType == Trusted then Checkpoint7 else Checkpoint8, IncorrectValue)
        && c.state.counters == s.counters
        && c.state.log == s.log + [MiscConfigFetched(CounterConfig(i), Success, d)]
  {
  }

  // ---------------------------------------------------------------------------
  // The save-mask-provoke sequence
  // ---------------------------------------------------------------------------

  /** What the provoking sequence observed, in order: the continuation
      recorded, SHCSR read, that word saved to NVRAM, SHCSR written back with
      bits 16-19 cleared, the de-privileged base address set, and the
      de-privileged update of the counter to `value` attempted */
  ghost predicate ProvokeObserved(events: seq<Event>, id: CounterId, value: u32)
  {
    && |events| == 6
    && events[0] == BootTagWritten(ColdBootRequested, Success)
    && events[1].RegisterRead? && events[1].status == Success
    && events[2] == ShcsrSaved(events[1].word, Success)
    && events[3] == RegisterWritten(MaskFaults(events[1].word), Success)
    && events[4] == BaseAddrSet(Deprivileged, Success)
    && events[5].VersionUpdated?
    && events[5] == VersionUpdated(Deprivileged, id, value, events[5].status)
  }

  /** The provoking sequence reaches the fault exactly when each of its calls
      succeeds and otherwise latches a failure; only an accepted de-privileged
      update can change a counter */
  lemma ProvokeFrame(p: Platform, s: ValState, id: CounterId, count: u32)
    ensures var e := Provoke(p, s, id, count);
      && (e.Halt? <==> ProvokeAccepted(p))
      && (e.Halt? || e.state.latch.Fail?)
      && (e.state.counters == s.counters ||
          (e.Halt? && p.update(Deprivileged, id, CounterValue(s, id), count) == Success
           && e.state.counters == s.counters[id := count]))
  {
    var (s1, st1) := BootWriteStep(p, s, ColdBootRequested);
    var (s2, st2, shcsr) := RegReadStep(p, s1);
    var (s3, st3) := ShcsrSaveStep(p, s2, shcsr);
    var (s4, st4) := RegWriteStep(p, s3, MaskFaults(shcsr));
    var (s5, st5) := BaseAddrStep(p, s4, Deprivileged);
    assert s5.counters == s.counters;
  }

  /** When the provoking sequence reaches the fault it has recorded
      COLD_BOOT_REQUESTED, saved the SHCSR word it found, left SHCSR with the
      four fault enables cleared and the latch alone, in that order */
  lemma ProvokeHalted(p: Platform, s: ValState, id: CounterId, count: u32)
    requires Provoke(p, s, id, count).Halt?
    ensures var e := Provoke(p, s, id, count);
      && e.state.latch == s.latch
      && e.state.nvBoot == ColdBootRequested
      && e.state.nvShcsr == s.shcsr
      && e.state.shcsr == MaskFaults(s.shcsr)
      && s.log < e.state.log
      && ProvokeObserved(e.state.log[|s.log|..], id, count)
  {
    var (s1, st1) := BootWriteStep(p, s, ColdBootRequested);
    var (s2, st2, shcsr) := RegReadStep(p, s1);
    var (s3, st3) := ShcsrSaveStep(p, s2, shcsr);
    var (s4, st4) := RegWriteStep(p, s3, MaskFaults(shcsr));
    var (s5, st5) := BaseAddrStep(p, s4, Deprivileged);
    var (s6, st6) := VersionUpdateStep(p, s5, Deprivileged, id, count);
    assert Provoke(p, s, id, count).state == s6;
    assert s6.log[|s.log|..] == [
      BootTagWritten(ColdBootRequested, st1),
      RegisterRead(shcsr, st2),
      ShcsrSaved(shcsr, st3),
      RegisterWritten(MaskFaults(shcsr), st4),
      BaseAddrSet(Deprivileged, st5),
      VersionUpdated(Deprivileged, id, count, st6)];
  }

  // ---------------------------------------------------------------------------
  // The first-boot loop
  // ---------------------------------------------------------------------------

  /** What an instance's checks guarantee, as established by CheckInstanceFrame
      and CheckInstanceHeld: the first boot's loop is reasoned about through
      this summary rather than through the checks themselves */
  ghost predicate InstanceChecked(p: Platform, s: ValState, i: u32, c: Checked)
  {
    && c.state == s.(counters := c.state.counters, latch := c.state.latch, log := c.state.log)
    && (forall id: CounterId :: id.instance != i ==> CounterValue(c.state, id) == CounterValue(s, id))
    && (c.Stopped? ==> c.state.latch.Fail?)
    && (c.Held? <==> CounterConfig(i) in p.misc && InstanceConforms(p, s, i))
    && (c.Held? ==>
          && c.desc == p.misc[CounterConfig(i)]
          && c.state.latch == s.latch
          && AtMax(p, c.state, i))
  }

  lemma CheckInstanceChecked(p: Platform, s: ValState, i: u32)
    ensures InstanceChecked(p, s, i, CheckInstance(p, s, i))
  {
    CheckInstanceFrame(p, s, i);
    CheckInstanceHeld(p, s, i);
  }

  /** On a consistent target, the first-boot loop after an instance whose
      checks held goes on with the provoking sequence at the last instance and
      with the next instance before it */
  lemma AfterHeld(p: Platform, s: ValState, i: u32, n: u32, c: Checked)
    requires Declared(p, n) && i < n && InstanceChecked(p, s, i, c) && c.Held?
    ensures AfterInstance(p, i, c) ==
      if i == n - 1 then Provoke(p, c.state, CounterOf(p, i), c.count)
      else FirstPassFrom(p, c.state, i + 1)
  {
  }

  /** Once instance `i` has held, the instances from `i` conform exactly when
      those after it conform in the state its checks left */
  lemma ConformingAfterHeld(p: Platform, s: ValState, i: u32, n: u32, c: Checked)
    requires Declared(p, n) && i < n && i < n - 1 && InstanceChecked(p, s, i, c) && c.Held?
    ensures Conforming(p, s, i, n) <==> Conforming(p, c.state, i + 1, n)
  {
    assert forall j: u32 :: i < j < n ==> (InstanceConforms(p, c.state, j) <==> InstanceConforms(p, s, j));
  }

  /** On a consistent target, the rest of the first-boot loop after instance
      `i`'s checks reaches the provoked fault exactly when every counter from
      `i` on conforms and every call of the provoking sequence succeeds; every
      other way out latches a failure, never PASS */
  lemma {:induction false} AfterInstanceHaltsIff(p: Platform, s: ValState, i: u32, n: u32, c: Checked)
    requires Declared(p, n) && i < n && InstanceChecked(p, s, i, c)
    ensures var e := AfterInstance(p, i, c);
      && (e.Halt? <==> Conforming(p, s, i, n) && ProvokeAccepted(p))
      && (e.Halt? || e.state.latch.Fail?)
    decreases n - i
  {
    if c.Held? {
      AfterHeld(p, s, i, n, c);
      if i == n - 1 {
        ProvokeFrame(p, c.state, CounterOf(p, i), c.count);
      } else {
        var next := CheckInstance(p, c.state, i + 1);
        CheckInstanceChecked(p, c.state, i + 1);
        AfterInstanceHaltsIff(p, c.state, i + 1, n, next);
        ConformingAfterHeld(p, s, i, n, c);
      }
    } else {
      assert AfterInstance(p, i, c) == ToCleanup(c.state);
    }
  }

  /** When the rest of the first-boot loop reaches the provoked fault, it has
      recorded the continuation, saved SHCSR, cleared its fault enables, and
      left the latch alone */
  lemma {:induction false} AfterInstanceHalted(p: Platform, s: ValState, i: u32, n: u32, c: Checked)
    requires Declared(p, n) && i < n && InstanceChecked(p, s, i, c)
    requires AfterInstance(p, i, c).Halt?
    ensures var e := AfterInstance(p, i, c);
      && e.state.latch == s.latch
      && e.state.nvBoot == ColdBootRequested
      && e.state.nvShcsr == s.shcsr
      && e.state.shcsr == MaskFaults(s.shcsr)
    decreases n - i
  {
    assert c.Held?;
    AfterHeld(p, s, i, n, c);
    if i == n - 1 {
      ProvokeHalted(p, c.state, CounterOf(p, i), c.count);
    } else {
      var next := CheckInstance(p, c.state, i + 1);
      CheckInstanceChecked(p, c.state, i + 1);
      AfterInstanceHalted(p, c.state, i + 1, n, next);
    }
  }

  /** When the rest of the first-boot loop reaches the provoked fault, the
      counters of instances before `i` read as they did */
  lemma {:induction false} AfterInstanceHaltedEarlier(p: Platform, s: ValState, i: u32, n: u32, c: Checked)
    requires Declared(p, n) && i < n && InstanceChecked(p, s, i, c)
    requires AfterInstance(p, i, c).Halt?
    ensures forall id: CounterId :: id.instance < i ==>
      CounterValue(AfterInstance(p, i, c).state, id) == CounterValue(s, id)
    decreases n - i
  {
    assert c.Held?;
    AfterHeld(p, s, i, n, c);
    if i == n - 1 {
      ProvokeFrame(p, c.state, CounterOf(p, i), c.count);
    } else {
      var next := CheckInstance(p, c.state, i + 1);
      CheckInstanceChecked(p, c.state, i + 1);
      AfterInstanceHaltedEarlier(p, c.state, i + 1, n, next);
    }
  }

  /** When the rest of the first-boot loop reaches the provoked fault, every
      instance from `i` up to the last one has been left at its maximum */
  lemma {:induction false} AfterInstanceHaltedAtMax(p: Platform, s: ValState, i: u32, n: u32, c: Checked)
    requires Declared(p, n) && i < n && InstanceChecked(p, s, i, c)
    requires AfterInstance(p, i, c).Halt?
    ensures forall j: u32 :: i <= j < n - 1 ==> AtMax(p, AfterInstance(p, i, c).state, j)
    decreases n - i
  {
    assert c.Held?;
    AfterHeld(p, s, i, n, c);
    if i < n - 1 {
      var next := CheckInstance(p, c.state, i + 1);
      CheckInstanceChecked(p, c.state, i + 1);
      AfterInstanceHaltedAtMax(p, c.state, i + 1, n, next);
      AfterInstanceHaltedEarlier(p, c.state, i + 1, n, next);
      var e := AfterInstance(p, i, c).state;
      forall j: u32 | i <= j < n - 1
        ensures AtMax(p, e, j)
      {
        if j == i {
          assert CounterValue(e, CounterOf(p, i)) == CounterValue(c.state, CounterOf(p, i));
        }
      }
    }
  }

  /** When the first-boot loop reaches the provoked fault on a target whose
      store refuses de-privileged updates, the last instance is at its
      maximum too */
  lemma {:induction false} AfterInstanceHaltedLast(p: Platform, s: ValState, i: u32, n: u32, c: Checked)
    requires Declared(p, n) && i < n && InstanceChecked(p, s, i, c)
    requires AfterInstance(p, i, c).Halt? && DeprivilegedRefused(p)
    ensures AtMax(p, AfterInstance(p, i, c).state, n - 1)
    decreases n - i
  {
    assert c.Held?;
    AfterHeld(p, s, i, n, c);
    if i == n - 1 {
      ProvokeFrame(p, c.state, CounterOf(p, i), c.count);
    } else {
      var next := CheckInstance(p, c.state, i + 1);
      CheckInstanceChecked(p, c.state, i + 1);
      AfterInstanceHaltedLast(p, c.state, i + 1, n, next);
    }
  }

  /** The first-boot loop reaches the provoked fault exactly when every
      declared counter conforms and the provoking sequence's calls succeed, and
      otherwise latches a failure, never PASS; at the fault the continuation is
      recorded, SHCSR saved and masked, the latch untouched, and every counter
      at its maximum but possibly the last, which a target refusing
      de-privileged updates also leaves there */
  lemma FirstPassOutcome(p: Platform, s: ValState, n: u32)
    requires Declared(p, n) && 0 < n
    ensures var e := FirstPassFrom(p, s, 0);
      && (e.Halt? <==> Conforming(p, s, 0, n) && ProvokeAccepted(p))
      && (e.Halt? || e.state.latch.Fail?)
      && (e.Halt? ==>
            && e.state.latch == s.latch
            && e.state.nvBoot == ColdBootRequested
            && e.state.nvShcsr == s.shcsr
            && e.state.shcsr == MaskFaults(s.shcsr)
            && (forall j: u32 :: j < n - 1 ==> AtMax(p, e.state, j))
            && (DeprivilegedRefused(p) ==> AtMax(p, e.state, n - 1)))
  {
    var c := CheckInstance(p, s, 0);
    CheckInstanceChecked(p, s, 0);
    AfterInstanceHaltsIff(p, s, 0, n, c);
    if AfterInstance(p, 0, c).Halt? {
      AfterInstanceHalted(p, s, 0, n, c);
      AfterInstanceHaltedAtMax(p, s, 0, n, c);
      if DeprivilegedRefused(p) {
        AfterInstanceHaltedLast(p, s, 0, n, c);
      }
    }
  }

  // ---------------------------------------------------------------------------
  // The boot after the provoked reset
  // ---------------------------------------------------------------------------

  /** On a consistent table, the second-boot loop latches PASS exactly when every remaining declared
      counter still reads its maximum, and otherwise fails at CHECKPOINT_18; it
      only reads counters */
  lemma {:induction false} ResumeFromPassIff(p: Platform, s: ValState, i: u32, n: u32)
    requires Declared(p, n) && i < n
    ensures var e := ResumeFrom(p, s, i);
      && e.ToCleanup?
      && e.state == s.(latch := e.state.latch, log := e.state.log)
      && (e.state.latch == Pass <==> forall j: u32 :: i <= j < n ==> AtMax(p, s, j))
      && (e.state.latch == Pass || e.state.latch == Fail(Checkpoint18, Invalid))
    decreases n - i
  {
    var (s1, st, d) := MiscConfigStep(p, s, CounterConfig(i));
    var (s2, now) := VersionReadStep(p, s1, CounterId(i, d.fwVerType));
    assert AtMax(p, s, i) <==> d.fwVerCntMax == now;
    if d.fwVerCntMax == now && i + 1 < n {
      ResumeFromPassIff(p, s2, i + 1, n);
      assert forall j: u32 :: i < j < n ==> (AtMax(p, s2, j) <==> AtMax(p, s, j));
    }
  }

  /** On any table the second-boot loop only fetches descriptors and reads
      counters, changes nothing but the latch and the log, and ends at
      `cleanup:` with PASS, with CHECKPOINT_17 after a descriptor it could not
      fetch, or with CHECKPOINT_18 INVALID */
  lemma {:induction false} ResumeFromCalls(p: Platform, s: ValState, i: u32)
    requires i < U32Max
    ensures var e := ResumeFrom(p, s, i);
      && e.ToCleanup?
      && e.state == s.(latch := e.state.latch, log := e.state.log)
      && s.log < e.state.log
      && (forall k :: |s.log| <= k < |e.state.log| ==> e.state.log[k].MiscConfigFetched? || e.state.log[k].VersionRead?)
      && (e.state.latch == Pass || e.state.latch == Fail(Checkpoint18, Invalid) || e.state.latch == Fail(Checkpoint17, NotFound))
      && (e.state.latch == Fail(Checkpoint17, NotFound) <==>
            e.state.log[|e.state.log| - 1].MiscConfigFetched? && e.state.log[|e.state.log| - 1].status == NotFound)
    decreases U32Max - i
  {
    var (s1, st, d) := MiscConfigStep(p, s, CounterConfig(i));
    if st == Success {
      var (s2, now) := VersionReadStep(p, s1, CounterId(i, d.fwVerType));
      if d.fwVerCntMax == now && i + 1 < d.numInstance {
        assert ResumeFrom(p, s, i) == ResumeFrom(p, s2, i + 1);
        ResumeFromCalls(p, s2, i + 1);
        var t := ResumeFrom(p, s2, i + 1).state;
        forall k | |s.log| <= k < |t.log|
          ensures t.log[k].MiscConfigFetched? || t.log[k].VersionRead?
        {
          if k < |s2.log| {
            assert t.log[k] == s2.log[k];
          }
        }
      }
    }
  }

  /** What the second boot observed after reading the boot tag, in order:
      BOOT_UNKNOWN recorded, the saved word loaded from NVRAM, that word
      written to SHCSR, and only then descriptor fetches and counter reads */
  ghost predicate ResumeObserved(events: seq<Event>, saved: bv32)
  {
    && |events| >= 3
    && events[0] == BootTagWritten(BootUnknown, Success)
    && events[1] == ShcsrLoaded(saved, Success)
    && events[2] == RegisterWritten(saved, Success)
    && forall k :: 3 <= k < |events| ==> events[k].MiscConfigFetched? || events[k].VersionRead?
  }

  /** Every call of the resume sequence before the re-check succeeds */
  ghost predicate ResumeAccepted(p: Platform)
  {
    && p.respond(NvramWriteRequest(NvBoot)) == Success
    && p.respond(NvramReadRequest(NvShcsr)) == Success
    && p.respond(ShcsrWriteRequest) == Success
  }

  /** On a consistent table whose target accepts the tag clear, the SHCSR
      load and the SHCSR write, the boot after the reset clears the boot tag,
      restores SHCSR from the saved word and leaves every counter alone, in that order and before any
      counter is re-read; it latches PASS exactly when every declared counter
      reads its maximum, and otherwise fails at CHECKPOINT_18 */
  lemma ResumeOutcome(p: Platform, s: ValState, n: u32)
    requires Declared(p, n) && 0 < n && ResumeAccepted(p)
    ensures var e := Resume(p, s);
      && e.ToCleanup?
      && e.state.counters == s.counters
      && e.state.nvBoot == BootUnknown
      && e.state.nvShcsr == s.nvShcsr
      && e.state.shcsr == s.nvShcsr
      && (e.state.latch == Pass <==> forall j: u32 :: j < n ==> AtMax(p, s, j))
      && (e.state.latch == Pass || e.state.latch == Fail(Checkpoint18, Invalid))
      && s.log < e.state.log
      && ResumeObserved(e.state.log[|s.log|..], s.nvShcsr)
  {
    var (s1, _) := BootWriteStep(p, s, BootUnknown);
    var (s2, _, saved) := ShcsrLoadStep(p, s1);
    var (s3, _) := RegWriteStep(p, s2, saved);
    ResumeFromPassIff(p, s3, 0, n);
    assert forall j: u32 :: j < n ==> (AtMax(p, s3, j) <==> AtMax(p, s, j));
    ResumeOrder(p, s);
  }

  /** Once its calls succeed, the boot after the reset records BOOT_UNKNOWN,
      loads the saved SHCSR and writes it back before it re-reads any counter */
  lemma ResumeOrder(p: Platform, s: ValState)
    requires ResumeAccepted(p)
    ensures var e := Resume(p, s);
      s.log < e.state.log && ResumeObserved(e.state.log[|s.log|..], s.nvShcsr)
  {
    var (s1, _) := BootWriteStep(p, s, BootUnknown);
    var (s2, _, saved) := ShcsrLoadStep(p, s1);
    var (s3, _) := RegWriteStep(p, s2, saved);
    ResumeFromCalls(p, s3, 0);
    var t := ResumeFrom(p, s3, 0).state;
    assert Resume(p, s).state == t;
    assert s3.log == s.log + [BootTagWritten(BootUnknown, Success), ShcsrLoaded(s.nvShcsr, Success),
                              RegisterWritten(s.nvShcsr, Success)];
    var events := t.log[|s.log|..];
    forall k | 3 <= k < |events|
      ensures events[k].MiscConfigFetched? || events[k].VersionRead?
    {
      assert events[k] == t.log[|s.log| + k];
    }
  }

  // ---------------------------------------------------------------------------
  // The whole payload
  // ---------------------------------------------------------------------------

  /** The NVRAM base address, its descriptor and the boot tag are all available */
  ghost predicate BootReadable(p: Platform)
  {
    && p.respond(BaseAddrRequest(Privileged)) == Success
    && ConfigId(MemoryNvram, 0) in p.memory
    && p.respond(NvramReadRequest(NvBoot)) == Success
  }

  /** The state once the boot tag has been read */
  ghost function Booted(p: Platform, s: ValState): ValState
    requires BootReadable(p)
  {
    s.(log := s.log + [
      BaseAddrSet(Privileged, Success),
      MemoryConfigFetched(ConfigId(MemoryNvram, 0), Success, p.memory[ConfigId(MemoryNvram, 0)]),
      BootTagRead(s.nvBoot, Success)])
  }

  /** With the boot tag readable, the payload runs the first-boot checks unless
      the tag says COLD_BOOT_REQUESTED, and then the resume checks */
  lemma BodyBranches(p: Platform, s: ValState)
    requires BootReadable(p)
    ensures Body(p, s) == if s.nvBoot != ColdBootRequested then FirstPassFrom(p, Booted(p, s), 0) else Resume(p, Booted(p, s))
  {
    var (s1, _) := BaseAddrStep(p, s, Privileged);
    var (s2, _, _) := MemoryConfigStep(p, s1, ConfigId(MemoryNvram, 0));
    var (s3, _, _) := BootReadStep(p, s2);
    assert s3 == Booted(p, s);
  }

  /** On a consistent table of `n` instances, `0 < n`, a first boot never
      passes (a table whose first descriptor reports no instances can; see
      `ZeroCountPassesUnprovoked`): the payload either waits for the reset it
      provoked, which it does exactly when every declared counter conforms and
      the provoking sequence is accepted, or returns with a failure latched.
      Waiting for the reset, it has recorded COLD_BOOT_REQUESTED, saved the SHCSR
      it found, masked its fault enables and left every counter but possibly
      the last at its maximum (the last too when the store refuses
      de-privileged updates) */
  lemma FirstBoot(p: Platform, s: ValState, n: u32)
    requires Declared(p, n) && 0 < n && BootReadable(p)
    requires s.nvBoot != ColdBootRequested
    ensures var (t, flow) := Payload(p, s);
      && (flow == AwaitingReset <==> Conforming(p, s, 0, n) && ProvokeAccepted(p))
      && (flow == Returned ==> t.latch.Fail?)
      && (flow == AwaitingReset ==>
            && t.latch == s.latch
            && t.nvBoot == ColdBootRequested
            && t.nvShcsr == s.shcsr
            && t.shcsr == MaskFaults(s.shcsr)
            && (forall j: u32 :: j < n - 1 ==> AtMax(p, t, j))
            && (DeprivilegedRefused(p) ==> AtMax(p, t, n - 1)))
  {
    var b := Booted(p, s);
    BodyBranches(p, s);
    FirstPassOutcome(p, b, n);
    SameCountersConforming(p, b, s, n);
  }

  /** On a consistent table whose target accepts the tag clear, the SHCSR
      load and the SHCSR write, the boot after the reset always returns: it clears the boot tag, restores
      SHCSR from NVRAM, re-reads the counters in that order and restores the
      HardFault handler last, leaves the counters alone, and passes exactly when every
      declared counter still reads its maximum and the HardFault handler is
      restored; a counter below its maximum fails it at CHECKPOINT_18 */
  lemma SecondBoot(p: Platform, s: ValState, n: u32)
    requires Declared(p, n) && 0 < n && BootReadable(p) && ResumeAccepted(p)
    requires s.nvBoot == ColdBootRequested
    ensures var (t, flow) := Payload(p, s);
      && flow == Returned
      && t.counters == s.counters
      && t.nvBoot == BootUnknown
      && t.shcsr == s.nvShcsr
      && (t.latch == Pass <==>
            (forall j: u32 :: j < n ==> AtMax(p, s, j)) && p.respond(RestoreHandlerRequest) == Success)
      && (p.respond(RestoreHandlerRequest) != Success ==>
            t.latch == Fail(Checkpoint19, p.respond(RestoreHandlerRequest)))
      && (p.respond(RestoreHandlerRequest) == Success && !(forall j: u32 :: j < n ==> AtMax(p, s, j)) ==>
            t.latch == Fail(Checkpoint18, Invalid))
      && |s.log| + 3 < |t.log|
      && ResumeObserved(t.log[|s.log| + 3 .. |t.log| - 1], s.nvShcsr)
      && t.log[|t.log| - 1] == HandlerRestored(p.respond(RestoreHandlerRequest))
  {
    var b := Booted(p, s);
    BodyBranches(p, s);
    ResumeOutcome(p, b, n);
    assert forall j: u32 :: j < n ==> (AtMax(p, b, j) <==> AtMax(p, s, j));
    var e := Resume(p, b).state;
    var t := Payload(p, s).0;
    assert t.log == e.log + [HandlerRestored(p.respond(RestoreHandlerRequest))];
    assert t.log[|s.log| + 3 .. |t.log| - 1] == e.log[|b.log|..];
  }

  /** On a conforming target whose store refuses de-privileged updates, the
      first boot waits for the reset with every counter at its maximum */
  lemma ConformingFirstBoot(p: Platform, s: ValState, n: u32)
    requires Declared(p, n) && 0 < n && BootReadable(p)
    requires ProvokeAccepted(p) && DeprivilegedRefused(p)
    requires Conforming(p, s, 0, n)
    requires s.nvBoot != ColdBootRequested
    ensures var (t, flow) := Payload(p, s);
      && flow == AwaitingReset
      && t.nvBoot == ColdBootRequested
      && t.nvShcsr == s.shcsr
      && forall j: u32 :: j < n ==> AtMax(p, t, j)
  {
    FirstBoot(p, s, n);
    var t := Payload(p, s).0;
    forall j: u32 | j < n
      ensures AtMax(p, t, j)
    {
      if j == n - 1 {
        assert DeprivilegedRefused(p) ==> AtMax(p, t, n - 1);
      } else {
        assert j < n - 1;
      }
    }
  }

  /** Whether the counters conform depends on the counters alone */
  lemma SameCountersConforming(p: Platform, a: ValState, b: ValState, n: u32)
    requires Declared(p, n) && a.counters == b.counters
    ensures Conforming(p, a, 0, n) <==> Conforming(p, b, 0, n)
  {
    assert forall j: u32 :: j < n ==> (InstanceConforms(p, a, j) <==> InstanceConforms(p, b, j));
  }

  /** Whether a counter is at its maximum depends on the counters alone */
  lemma SameCountersAtMax(p: Platform, a: ValState, b: ValState, n: u32)
    requires Declared(p, n) && a.counters == b.counters
    ensures forall j: u32 :: j < n ==> (AtMax(p, a, j) <==> AtMax(p, b, j))
  {
  }

  /** The two boots together, on a conforming target whose store refuses
      de-privileged updates: the first waits for the reset, and the boot after
      it (which keeps NVRAM and the counters) passes and puts back the SHCSR the
      first boot started from */
  lemma TwoBoots(p: Platform, s: ValState, n: u32, r: ValState)
    requires Declared(p, n) && 0 < n && BootReadable(p) && ResumeAccepted(p)
    requires ProvokeAccepted(p) && DeprivilegedRefused(p) && p.respond(RestoreHandlerRequest) == Success
    requires Conforming(p, s, 0, n)
    requires s.nvBoot != ColdBootRequested
    requires var t := Payload(p, s).0;
      r.counters == t.counters && r.nvBoot == t.nvBoot && r.nvShcsr == t.nvShcsr
    ensures Payload(p, s).1 == AwaitingReset
    ensures var (u, flow) := Payload(p, r);
      flow == Returned && u.latch == Pass && u.shcsr == s.shcsr && u.nvBoot == BootUnknown
  {
    var t := Payload(p, s).0;
    ConformingFirstBoot(p, s, n);
    SameCountersAtMax(p, t, r, n);
    SecondBoot(p, r, n);
  }
}
