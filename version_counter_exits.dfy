/**
 How the version-counter test (test_v001) leaves each of its sequences: which
 checkpoint every failing call latches and with what status, which failures
 leave through `cleanup:` and which return past it, and what a PASS on the
 first boot implies on any descriptor table.
 */
module VersionCounterExits {
  import opened Val
  import opened VersionCounters
  import opened VersionCounterProofs

  // ---------------------------------------------------------------------------
  // The checkpoints of one counter instance
  // ---------------------------------------------------------------------------

  /** Each call of the anti-rollback sequence that answers wrongly stops it at
      its own checkpoint: a refused increment at CHECKPOINT_9 with the store's
      status, and an accepted rollback, a refused maximum, an accepted overflow
      or a wrong read-back at CHECKPOINT_A, B, C or D with INVALID */
  lemma RollbackFailures(p: Platform, s: ValState, i: u32, d: MiscDesc)
    ensures var c := RollbackChecks(p, s, i, d);
      var id := CounterId(i, d.fwVerType);
      var r := p.read(id, CounterValue(s, id));
      var increment := p.update(Privileged, id, CounterValue(s, id), Inc(r));
      var rollback := p.update(Privileged, id, Inc(r), Dec(Inc(r)));
      var toMax := p.update(Privileged, id, Inc(r), d.fwVerCntMax);
      var overflow := p.update(Privileged, id, d.fwVerCntMax, Inc(d.fwVerCntMax));
      && (c.Stopped? && c.state.latch == Fail(Checkpoint9, increment) <==> increment != Success)
      && (c.Stopped? && c.state.latch == Fail(CheckpointA, Invalid) <==>
            increment == Success && rollback == Success)
      && (c.Stopped? && c.state.latch == Fail(CheckpointB, Invalid) <==>
            increment == Success && rollback != Success && toMax != Success)
      && (c.Stopped? && c.state.latch == Fail(CheckpointC, Invalid) <==>
            increment == Success && rollback != Success && toMax == Success && overflow == Success)
      && (c.Stopped? && c.state.latch == Fail(CheckpointD, Invalid) <==>
            increment == Success && rollback != Success && toMax == Success && overflow != Success
            && p.read(id, d.fwVerCntMax) != d.fwVerCntMax)
  {
  }

  /** Once an instance's descriptor is fetched and meets its class floor, its
      checks are the anti-rollback sequence on the counter it names */
  lemma CheckInstanceRollback(p: Platform, s: ValState, i: u32)
    requires CounterConfig(i) in p.misc && FloorMet(p.misc[CounterConfig(i)])
    ensures var d := p.misc[CounterConfig(i)];
      CheckInstance(p, s, i) ==
        RollbackChecks(p, s.(log := s.log + [MiscConfigFetched(CounterConfig(i), Success, d)]), i, d)
  {
  }

  /** The checkpoints at which one instance's checks can stop */
  const InstanceCheckpoints: set<Checkpoint> :=
    {Checkpoint6, Checkpoint7, Checkpoint8, Checkpoint9, CheckpointA, CheckpointB, CheckpointC, CheckpointD}

  /** One instance's checks stop only with a FAIL at one of its own checkpoints */
  lemma CheckInstanceStops(p: Platform, s: ValState, i: u32)
    ensures var c := CheckInstance(p, s, i);
      c.Stopped? ==> c.state.latch.Fail? && c.state.latch.checkpoint in InstanceCheckpoints
  {
  }

  // ---------------------------------------------------------------------------
  // The checkpoints of the provoking sequence
  // ---------------------------------------------------------------------------

  /** A failure to record the continuation goes to `cleanup:` at CHECKPOINT_E;
      a failure to read, save or mask SHCSR or to drop privilege returns past
      `cleanup:` at CHECKPOINT_F, 10, 11 or 12; each carries its call's status */
  lemma ProvokeFailures(p: Platform, s: ValState, id: CounterId, count: u32)
    ensures var e := Provoke(p, s, id, count);
      var tag := p.respond(NvramWriteRequest(NvBoot));
      var read := p.respond(ShcsrReadRequest);
      var save := p.respond(NvramWriteRequest(NvShcsr));
      var mask := p.respond(ShcsrWriteRequest);
      var drop := p.respond(BaseAddrRequest(Deprivileged));
      && (e.ToCleanup? <==> tag != Success)
      && (e.ToCleanup? ==> e.state.latch == Fail(CheckpointE, tag))
      && (e.Return? && e.state.latch == Fail(CheckpointF, read) <==> tag == Success && read != Success)
      && (e.Return? && e.state.latch == Fail(Checkpoint10, save) <==>
            tag == Success && read == Success && save != Success)
      && (e.Return? && e.state.latch == Fail(Checkpoint11, mask) <==>
            tag == Success && read == Success && save == Success && mask != Success)
      && (e.Return? && e.state.latch == Fail(Checkpoint12, drop) <==>
            tag == Success && read == Success && save == Success && mask == Success && drop != Success)
      && (e.Return? ==>
            e.state.latch.Fail? && e.state.latch.checkpoint in {CheckpointF, Checkpoint10, Checkpoint11, Checkpoint12})
  {
    var e := Provoke(p, s, id, count);
    var (s1, st1) := BootWriteStep(p, s, ColdBootRequested);
    if st1 != Success {
      assert e == ToCleanup(Latched(s1, CheckpointE, st1));
    } else {
      var (s2, st2, shcsr) := RegReadStep(p, s1);
      if st2 != Success {
        assert e == Return(Latched(s2, CheckpointF, st2));
      } else {
        var (s3, st3) := ShcsrSaveStep(p, s2, shcsr);
        if st3 != Success {
          assert e == Return(Latched(s3, Checkpoint10, st3));
        } else {
          var (s4, st4) := RegWriteStep(p, s3, MaskFaults(shcsr));
          if st4 != Success {
            assert e == Return(Latched(s4, Checkpoint11, st4));
          } else {
            var (s5, st5) := BaseAddrStep(p, s4, Deprivileged);
            if st5 != Success {
              assert e == Return(Latched(s5, Checkpoint12, st5));
            } else {
              assert e.Halt?;
            }
          }
        }
      }
    }
  }

  // ---------------------------------------------------------------------------
  // The checkpoints of the second boot
  // ---------------------------------------------------------------------------

  /** Each of the second boot's first three calls that fails stops it at its
      own checkpoint, CHECKPOINT_14, 15 or 16, carrying its status; every way
      the second boot ends goes to `cleanup:`. A failure to clear the tag
      leaves COLD_BOOT_REQUESTED stored and SHCSR as it was */
  lemma ResumeFailures(p: Platform, s: ValState)
    ensures var e := Resume(p, s);
      var clear := p.respond(NvramWriteRequest(NvBoot));
      var load := p.respond(NvramReadRequest(NvShcsr));
      var restore := p.respond(ShcsrWriteRequest);
      && e.ToCleanup?
      && (e.state.latch == Fail(Checkpoint14, clear) <==> clear != Success)
      && (e.state.latch == Fail(Checkpoint15, load) <==> clear == Success && load != Success)
      && (e.state.latch == Fail(Checkpoint16, restore) <==> clear == Success && load == Success && restore != Success)
      && (clear != Success ==> e.state.nvBoot == s.nvBoot && e.state.shcsr == s.shcsr)
      && (e.state.latch == Pass ||
          (e.state.latch.Fail? &&
           e.state.latch.checkpoint in {Checkpoint14, Checkpoint15, Checkpoint16, Checkpoint17, Checkpoint18}))
  {
    var (s1, st1) := BootWriteStep(p, s, BootUnknown);
    if st1 == Success {
      var (s2, st2, saved) := ShcsrLoadStep(p, s1);
      if st2 == Success {
        var (s3, st3) := RegWriteStep(p, s2, saved);
        if st3 == Success {
          ResumeFromCalls(p, s3, 0);
        }
      }
    }
  }

  // ---------------------------------------------------------------------------
  // Which exits restore the HardFault handler
  // ---------------------------------------------------------------------------

  /** `b` extends `a` with no restore of the HardFault handler */
  ghost predicate NoRestore(a: seq<Event>, b: seq<Event>)
  {
    a <= b && forall k :: |a| <= k < |b| ==> !b[k].HandlerRestored?
  }

  /** `b` extends `a` with descriptor fetches, counter reads and privileged
      counter updates only */
  ghost predicate OnlyCounterCalls(a: seq<Event>, b: seq<Event>)
  {
    && a <= b
    && forall k :: |a| <= k < |b| ==>
         b[k].MiscConfigFetched? || b[k].VersionRead? || (b[k].VersionUpdated? && b[k].caller == Privileged)
  }

  lemma NoRestoreTrans(a: seq<Event>, b: seq<Event>, c: seq<Event>)
    requires NoRestore(a, b) && NoRestore(b, c)
    ensures NoRestore(a, c)
  {
    forall k | |a| <= k < |c|
      ensures !c[k].HandlerRestored?
    {
      if k < |b| {
        assert c[k] == b[k];
      }
    }
  }

  lemma OnlyCounterCallsTrans(a: seq<Event>, b: seq<Event>, c: seq<Event>)
    requires OnlyCounterCalls(a, b) && OnlyCounterCalls(b, c)
    ensures OnlyCounterCalls(a, c)
  {
    forall k | |a| <= k < |c|
      ensures c[k].MiscConfigFetched? || c[k].VersionRead? || (c[k].VersionUpdated? && c[k].caller == Privileged)
    {
      if k < |b| {
        assert c[k] == b[k];
      }
    }
  }

  lemma OnlyCounterCallsStep(a: seq<Event>, b: seq<Event>, x: Event)
    requires OnlyCounterCalls(a, b)
    requires x.MiscConfigFetched? || x.VersionRead? || (x.VersionUpdated? && x.caller == Privileged)
    ensures OnlyCounterCalls(a, b + [x])
  {
  }

  lemma NoRestoreStep(a: seq<Event>, b: seq<Event>, x: Event)
    requires NoRestore(a, b) && !x.HandlerRestored?
    ensures NoRestore(a, b + [x])
  {
  }

  /** The anti-rollback sequence makes only counter calls */
  lemma RollbackChecksCalls(p: Platform, s: ValState, i: u32, d: MiscDesc)
    ensures OnlyCounterCalls(s.log, RollbackChecks(p, s, i, d).state.log)
  {
    var id := CounterId(i, d.fwVerType);
    var (s2, count) := VersionReadStep(p, s, id);
    OnlyCounterCallsStep(s.log, s.log, s2.log[|s.log|]);
    var (s3, st3) := VersionUpdateStep(p, s2, Privileged, id, Inc(count));
    OnlyCounterCallsStep(s.log, s2.log, s3.log[|s2.log|]);
    var (s4, st4) := VersionUpdateStep(p, s3, Privileged, id, Dec(Inc(count)));
    OnlyCounterCallsStep(s.log, s3.log, s4.log[|s3.log|]);
    var (s5, st5) := VersionUpdateStep(p, s4, Privileged, id, d.fwVerCntMax);
    OnlyCounterCallsStep(s.log, s4.log, s5.log[|s4.log|]);
    var (s6, st6) := VersionUpdateStep(p, s5, Privileged, id, Inc(d.fwVerCntMax));
    OnlyCounterCallsStep(s.log, s5.log, s6.log[|s5.log|]);
    var (s7, now) := VersionReadStep(p, s6, id);
    OnlyCounterCallsStep(s.log, s6.log, s7.log[|s6.log|]);
  }

  /** One instance's checks make only counter calls */
  lemma CheckInstanceCalls(p: Platform, s: ValState, i: u32)
    ensures OnlyCounterCalls(s.log, CheckInstance(p, s, i).state.log)
  {
    var (s1, st, d) := MiscConfigStep(p, s, CounterConfig(i));
    OnlyCounterCallsStep(s.log, s.log, s1.log[|s.log|]);
    RollbackChecksCalls(p, s1, i, d);
    OnlyCounterCallsTrans(s.log, s1.log, RollbackChecks(p, s1, i, d).state.log);
  }

  /** The provoking sequence never restores the handler */
  lemma ProvokeNoRestore(p: Platform, s: ValState, id: CounterId, count: u32)
    ensures NoRestore(s.log, Provoke(p, s, id, count).state.log)
  {
    var (s1, st1) := BootWriteStep(p, s, ColdBootRequested);
    NoRestoreStep(s.log, s.log, s1.log[|s.log|]);
    var (s2, st2, shcsr) := RegReadStep(p, s1);
    NoRestoreStep(s.log, s1.log, s2.log[|s1.log|]);
    var (s3, st3) := ShcsrSaveStep(p, s2, shcsr);
    NoRestoreStep(s.log, s2.log, s3.log[|s2.log|]);
    var (s4, st4) := RegWriteStep(p, s3, MaskFaults(shcsr));
    NoRestoreStep(s.log, s3.log, s4.log[|s3.log|]);
    var (s5, st5) := BaseAddrStep(p, s4, Deprivileged);
    NoRestoreStep(s.log, s4.log, s5.log[|s4.log|]);
    var (s6, st6) := VersionUpdateStep(p, s5, Deprivileged, id, count);
    NoRestoreStep(s.log, s5.log, s6.log[|s5.log|]);
  }

  /** The first-boot loop never restores the handler, and it returns past
      `cleanup:` only from the provoking sequence, at CHECKPOINT_F, 10, 11 or 12 */
  lemma {:induction false} FirstPassExits(p: Platform, s: ValState, i: u32)
    requires i < U32Max
    ensures var e := FirstPassFrom(p, s, i);
      && NoRestore(s.log, e.state.log)
      && (e.Return? ==>
            e.state.latch.Fail? && e.state.latch.checkpoint in {CheckpointF, Checkpoint10, Checkpoint11, Checkpoint12})
      && (e.ToCleanup? ==>
            e.state.latch == Pass ||
            (e.state.latch.Fail? && e.state.latch.checkpoint in InstanceCheckpoints + {CheckpointE}))
    decreases U32Max - i, 1
  {
    CheckInstanceCalls(p, s, i);
    CheckInstanceStops(p, s, i);
    AfterInstanceExits(p, s.log, i, CheckInstance(p, s, i));
  }

  /** The same for the rest of an iteration, from the log `a` it started with */
  lemma {:induction false} AfterInstanceExits(p: Platform, a: seq<Event>, i: u32, c: Checked)
    requires i < U32Max && NoRestore(a, c.state.log)
    requires c.Stopped? ==> c.state.latch.Fail? && c.state.latch.checkpoint in InstanceCheckpoints
    ensures var e := AfterInstance(p, i, c);
      && NoRestore(a, e.state.log)
      && (e.Return? ==>
            e.state.latch.Fail? && e.state.latch.checkpoint in {CheckpointF, Checkpoint10, Checkpoint11, Checkpoint12})
      && (e.ToCleanup? ==>
            e.state.latch == Pass ||
            (e.state.latch.Fail? && e.state.latch.checkpoint in InstanceCheckpoints + {CheckpointE}))
    decreases U32Max - i, 0
  {
    if c.Held? {
      var d := c.desc;
      var e := AfterInstance(p, i, c);
      if i == Dec(d.numInstance) {
        var id := CounterId(i, d.fwVerType);
        assert e == Provoke(p, c.state, id, c.count);
        ProvokeNoRestore(p, c.state, id, c.count);
        ProvokeFailures(p, c.state, id, c.count);
        NoRestoreTrans(a, c.state.log, e.state.log);
      } else if i + 1 < d.numInstance {
        assert e == FirstPassFrom(p, c.state, i + 1);
        FirstPassExits(p, c.state, i + 1);
        NoRestoreTrans(a, c.state.log, e.state.log);
      }
    }
  }

  /** The second boot never restores the handler before `cleanup:` */
  lemma ResumeNoRestore(p: Platform, s: ValState)
    ensures NoRestore(s.log, Resume(p, s).state.log)
  {
    var (s1, st1) := BootWriteStep(p, s, BootUnknown);
    if st1 == Success {
      var (s2, st2, saved) := ShcsrLoadStep(p, s1);
      if st2 == Success {
        var (s3, st3) := RegWriteStep(p, s2, saved);
        if st3 == Success {
          ResumeFromCalls(p, s3, 0);
          NoRestoreTrans(s.log, s3.log, ResumeFrom(p, s3, 0).state.log);
        }
      }
    }
  }

  /** The setup calls that fail stop the payload at their own checkpoints:
      a refused base address returns past `cleanup:` at CHECKPOINT_2 with its
      status; a missing NVRAM descriptor goes to `cleanup:` at CHECKPOINT_2
      with NOT_FOUND; a refused boot-tag read goes to `cleanup:` at
      CHECKPOINT_3 with its status. Each happens exactly when the calls before
      it succeeded, and none of them touches a counter, NVRAM or SHCSR */
  lemma SetupFailures(p: Platform, s: ValState)
    ensures var e := Body(p, s);
      var base := p.respond(BaseAddrRequest(Privileged));
      var read := p.respond(NvramReadRequest(NvBoot));
      var described := ConfigId(MemoryNvram, 0) in p.memory;
      && (e.Return? && e.state.latch == Fail(Checkpoint2, base) <==> base != Success)
      && (e.ToCleanup? && e.state.latch == Fail(Checkpoint2, NotFound) <==> base == Success && !described)
      && (e.ToCleanup? && e.state.latch == Fail(Checkpoint3, read) <==> base == Success && described && read != Success)
      && (base != Success || !described || read != Success ==>
            e.state == s.(latch := e.state.latch, log := e.state.log))
  {
    var e := Body(p, s);
    var (s1, st1) := BaseAddrStep(p, s, Privileged);
    if st1 != Success {
      assert e == Return(Latched(s1, Checkpoint2, st1));
    } else {
      var (s2, st2, _) := MemoryConfigStep(p, s1, ConfigId(MemoryNvram, 0));
      if st2 != Success {
        assert e == ToCleanup(Latched(s2, Checkpoint2, st2));
      } else {
        var (s3, st3, boot) := BootReadStep(p, s2);
        if st3 != Success {
          assert e == ToCleanup(Latched(s3, Checkpoint3, st3));
        } else {
          assert e == Branch(p, s3, boot);
          BranchLeavesSetup(p, s3, boot);
        }
      }
    }
  }

  /** The first-boot or the second-boot checks, as the stored tag selects */
  ghost function Branch(p: Platform, s: ValState, boot: BootTag): Exit
  {
    if boot != ColdBootRequested then FirstPassFrom(p, s, 0) else Resume(p, s)
  }

  /** An exit latching none of the setup checkpoints */
  ghost predicate PastSetup(e: Exit)
  {
    && (e.Return? ==> e.state.latch.Fail? && e.state.latch.checkpoint != Checkpoint2)
    && (e.ToCleanup? ==> !(e.state.latch.Fail? && e.state.latch.checkpoint in {Checkpoint2, Checkpoint3}))
  }

  /** Neither boot's checks latch a setup checkpoint */
  lemma BranchLeavesSetup(p: Platform, s: ValState, boot: BootTag)
    ensures PastSetup(Branch(p, s, boot))
  {
    if boot != ColdBootRequested {
      FirstPassLeavesSetup(p, s, 0);
    } else {
      ResumeLeavesSetup(p, s);
    }
  }

  lemma FirstPassLeavesSetup(p: Platform, s: ValState, i: u32)
    requires i < U32Max
    ensures PastSetup(FirstPassFrom(p, s, i))
  {
    var e := FirstPassFrom(p, s, i);
    FirstPassExits(p, s, i);
    if e.ToCleanup? && e.state.latch.Fail? {
      assert e.state.latch.checkpoint in InstanceCheckpoints + {CheckpointE};
    }
  }

  lemma ResumeLeavesSetup(p: Platform, s: ValState)
    ensures PastSetup(Resume(p, s))
  {
    var e := Resume(p, s);
    ResumeFailures(p, s);
    assert e.ToCleanup?;
    if e.state.latch.Fail? {
      assert e.state.latch.checkpoint in {Checkpoint14, Checkpoint15, Checkpoint16, Checkpoint17, Checkpoint18};
    }
  }

  /** The payload up to `cleanup:` never restores the handler, and returns
      past `cleanup:` only at CHECKPOINT_2 (the base address) or from the
      provoking sequence at CHECKPOINT_F, 10, 11 or 12 */
  lemma BodyExits(p: Platform, s: ValState)
    ensures var e := Body(p, s);
      && NoRestore(s.log, e.state.log)
      && (e.Return? ==>
            e.state.latch.Fail?
            && e.state.latch.checkpoint in {Checkpoint2, CheckpointF, Checkpoint10, Checkpoint11, Checkpoint12})
  {
    var e := Body(p, s);
    var (s1, st1) := BaseAddrStep(p, s, Privileged);
    if st1 != Success {
      assert e == Return(Latched(s1, Checkpoint2, st1));
    } else {
      var (s2, st2, _) := MemoryConfigStep(p, s1, ConfigId(MemoryNvram, 0));
      if st2 != Success {
        assert e == ToCleanup(Latched(s2, Checkpoint2, st2));
      } else {
        var (s3, st3, boot) := BootReadStep(p, s2);
        assert NoRestore(s.log, s3.log);
        if st3 != Success {
          assert e == ToCleanup(Latched(s3, Checkpoint3, st3));
        } else if boot != ColdBootRequested {
          assert e == FirstPassFrom(p, s3, 0);
          FirstPassExits(p, s3, 0);
          NoRestoreTrans(s.log, s3.log, e.state.log);
        } else {
          assert e == Resume(p, s3);
          ResumeNoRestore(p, s3);
          ResumeFailures(p, s3);
          NoRestoreTrans(s.log, s3.log, e.state.log);
        }
      }
    }
  }

  /** The HardFault handler is restored exactly on the exits through
      `cleanup:`, once and as the last call, and a failed restore latches
      CHECKPOINT_19 over the verdict; an early `return`, at CHECKPOINT_2 or
      after a failure to save or mask SHCSR or to drop privilege, and the
      wait for the provoked reset leave it unrestored */
  lemma PayloadCleanup(p: Platform, s: ValState)
    ensures var e := Body(p, s);
      var (t, flow) := Payload(p, s);
      var restore := p.respond(RestoreHandlerRequest);
      && (flow == AwaitingReset <==> e.Halt?)
      && (!e.ToCleanup? ==> t == e.state && NoRestore(s.log, t.log))
      && (e.Return? ==>
            t.latch.Fail? && t.latch.checkpoint in {Checkpoint2, CheckpointF, Checkpoint10, Checkpoint11, Checkpoint12})
      && (e.ToCleanup? ==>
            && NoRestore(s.log, t.log[..|t.log| - 1])
            && t.log == e.state.log + [HandlerRestored(restore)]
            && t.latch == (if restore == Success then e.state.latch else Fail(Checkpoint19, restore)))
  {
    BodyExits(p, s);
    var e := Body(p, s);
    if e.ToCleanup? {
      var t := Payload(p, s).0;
      assert t.log[..|t.log| - 1] == e.state.log;
    }
  }

  // ---------------------------------------------------------------------------
  // What a PASS on the first boot means, on any table
  // ---------------------------------------------------------------------------

  /** On any descriptor table, a first-boot loop that ends in PASS has run the
      checks of instances `i` to `m` with every one holding (declared, above its
      class floor, its store refusing rollback and overflow from the value the
      counter held in `s`, left at its maximum) and stopped at an instance `m` whose
      descriptor reports no more than `m` instances, so it never reached the
      provoking sequence: only counter calls were made, and NVRAM and SHCSR are
      untouched */
  lemma {:induction false} FirstPassPassed(p: Platform, s: ValState, i: u32) returns (m: u32)
    requires i < U32Max
    requires !FirstPassFrom(p, s, i).Halt? && FirstPassFrom(p, s, i).state.latch == Pass
    ensures var t := FirstPassFrom(p, s, i).state;
      && i <= m < U32Max
      && (forall j: u32 :: i <= j <= m ==>
            CounterConfig(j) in p.misc && FloorMet(p.misc[CounterConfig(j)]) && AtMax(p, t, j))
      && (forall j: u32 :: i <= j <= m ==>
            CounterConfig(j) in p.misc
            && RefusesRollback(p, CounterOf(p, j), CounterValue(s, CounterOf(p, j)), p.misc[CounterConfig(j)].fwVerCntMax))
      && CounterConfig(m) in p.misc && p.misc[CounterConfig(m)].numInstance <= m
      && t.nvBoot == s.nvBoot && t.nvShcsr == s.nvShcsr && t.shcsr == s.shcsr
      && (forall id: CounterId :: id.instance < i ==> CounterValue(t, id) == CounterValue(s, id))
      && OnlyCounterCalls(s.log, t.log)
    decreases U32Max - i, 1
  {
    CheckInstanceChecked(p, s, i);
    CheckInstanceCalls(p, s, i);
    m := AfterInstancePassed(p, s, i, CheckInstance(p, s, i));
  }

  /** The same for the rest of an iteration whose instance checks ended with `c` */
  lemma {:induction false} AfterInstancePassed(p: Platform, s: ValState, i: u32, c: Checked) returns (m: u32)
    requires i < U32Max && InstanceChecked(p, s, i, c) && OnlyCounterCalls(s.log, c.state.log)
    requires !AfterInstance(p, i, c).Halt? && AfterInstance(p, i, c).state.latch == Pass
    ensures var t := AfterInstance(p, i, c).state;
      && i <= m < U32Max
      && (forall j: u32 :: i <= j <= m ==>
            CounterConfig(j) in p.misc && FloorMet(p.misc[CounterConfig(j)]) && AtMax(p, t, j))
      && (forall j: u32 :: i <= j <= m ==>
            CounterConfig(j) in p.misc
            && RefusesRollback(p, CounterOf(p, j), CounterValue(s, CounterOf(p, j)), p.misc[CounterConfig(j)].fwVerCntMax))
      && CounterConfig(m) in p.misc && p.misc[CounterConfig(m)].numInstance <= m
      && t.nvBoot == s.nvBoot && t.nvShcsr == s.nvShcsr && t.shcsr == s.shcsr
      && (forall id: CounterId :: id.instance < i ==> CounterValue(t, id) == CounterValue(s, id))
      && OnlyCounterCalls(s.log, t.log)
    decreases U32Max - i, 0
  {
    var e := AfterInstance(p, i, c);
    assert c.Held?;
    var d := c.desc;
    var id := CounterId(i, d.fwVerType);
    if i == Dec(d.numInstance) {
      assert e == Provoke(p, c.state, id, c.count);
      ProvokeFrame(p, c.state, id, c.count);
      assert false;
    }
    var t := e.state;
    assert RefusesRollback(p, CounterOf(p, i), CounterValue(s, CounterOf(p, i)), p.misc[CounterConfig(i)].fwVerCntMax);
    if i + 1 < d.numInstance {
      assert e == FirstPassFrom(p, c.state, i + 1);
      m := FirstPassPassed(p, c.state, i + 1);
      OnlyCounterCallsTrans(s.log, c.state.log, t.log);
      forall j: u32 | i <= j <= m
        ensures CounterConfig(j) in p.misc && FloorMet(p.misc[CounterConfig(j)]) && AtMax(p, t, j)
      {
        if j == i {
          assert CounterValue(t, CounterOf(p, i)) == CounterValue(c.state, CounterOf(p, i));
        }
      }
    } else {
      m := i;
      assert t == c.state.(latch := Pass);
    }
  }

  /** On any descriptor table, a first boot that returns with PASS never
      recorded COLD_BOOT_REQUESTED nor attempted a de-privileged update: its
      loop stopped at an instance `m` whose descriptor reports no more than `m`
      instances, after every instance up to `m` held its checks from the value
      its counter held before the boot */
  lemma FirstBootPassed(p: Platform, s: ValState) returns (m: u32)
    requires s.nvBoot != ColdBootRequested
    requires Payload(p, s).1 == Returned && Payload(p, s).0.latch == Pass
    ensures var t := Payload(p, s).0;
      && CounterConfig(m) in p.misc && p.misc[CounterConfig(m)].numInstance <= m
      && (forall j: u32 :: j <= m ==>
            CounterConfig(j) in p.misc && FloorMet(p.misc[CounterConfig(j)]) && AtMax(p, t, j))
      && (forall j: u32 :: j <= m ==>
            CounterConfig(j) in p.misc
            && RefusesRollback(p, CounterOf(p, j), CounterValue(s, CounterOf(p, j)), p.misc[CounterConfig(j)].fwVerCntMax))
      && t.nvBoot == s.nvBoot && t.nvShcsr == s.nvShcsr && t.shcsr == s.shcsr
      && forall k :: |s.log| <= k < |t.log| ==>
           !t.log[k].BootTagWritten? && !(t.log[k].VersionUpdated? && t.log[k].caller == Deprivileged)
  {
    PayloadCleanup(p, s);
    assert BootReadable(p);
    BodyBranches(p, s);
    var b := Booted(p, s);
    var e := FirstPassFrom(p, b, 0);
    assert e.ToCleanup? && e.state.latch == Pass;
    m := FirstPassPassed(p, b, 0);
    var t := Payload(p, s).0;
    assert t == e.state.(log := e.state.log + [HandlerRestored(Success)]);
    forall k | |s.log| <= k < |t.log|
      ensures !t.log[k].BootTagWritten? && !(t.log[k].VersionUpdated? && t.log[k].caller == Deprivileged)
    {
      if k < |b.log| {
        assert t.log[k] == b.log[k];
      } else if k < |e.state.log| {
        assert t.log[k] == e.state.log[k];
      }
    }
  }

  /** On any descriptor table, a second-boot loop that ends with PASS fetched
      every instance from `i` up to an instance `m` whose descriptor reports no
      more than `m + 1` instances, and each of them read its maximum; the
      counters are left as they were */
  lemma {:induction false} ResumePassed(p: Platform, s: ValState, i: u32) returns (m: u32)
    requires i < U32Max
    requires ResumeFrom(p, s, i).state.latch == Pass
    ensures var t := ResumeFrom(p, s, i).state;
      && i <= m < U32Max
      && (forall j: u32 :: i <= j <= m ==> CounterConfig(j) in p.misc && AtMax(p, s, j))
      && CounterConfig(m) in p.misc && p.misc[CounterConfig(m)].numInstance <= m + 1
      && t.counters == s.counters
    decreases U32Max - i
  {
    var e := ResumeFrom(p, s, i);
    var (s1, st, d) := MiscConfigStep(p, s, CounterConfig(i));
    assert st == Success;
    var (s2, now) := VersionReadStep(p, s1, CounterId(i, d.fwVerType));
    assert d.fwVerCntMax == now;
    assert s2.counters == s.counters;
    if i + 1 < d.numInstance {
      assert e == ResumeFrom(p, s2, i + 1);
      m := ResumePassed(p, s2, i + 1);
      forall j: u32 | i <= j <= m
        ensures CounterConfig(j) in p.misc && AtMax(p, s, j)
      {
        if j != i {
          assert AtMax(p, s2, j);
        }
      }
    } else {
      m := i;
    }
  }

  /** A first descriptor that reports no instances ends the first boot with
      PASS once instance 0 holds its checks: the provoking sequence, and with it
      the reset and the second boot's re-check, never runs */
  lemma ZeroCountPassesUnprovoked(p: Platform, s: ValState)
    requires BootReadable(p) && s.nvBoot != ColdBootRequested
    requires CounterConfig(0) in p.misc && p.misc[CounterConfig(0)].numInstance == 0
    requires InstanceConforms(p, s, 0) && p.respond(RestoreHandlerRequest) == Success
    ensures var (t, flow) := Payload(p, s);
      flow == Returned && t.latch == Pass && t.nvBoot == s.nvBoot && t.nvShcsr == s.nvShcsr && t.shcsr == s.shcsr
      && AtMax(p, t, 0)
  {
    var b := Booted(p, s);
    BodyBranches(p, s);
    assert InstanceConforms(p, b, 0);
    CheckInstanceChecked(p, b, 0);
  }
}
