/**
 Version-counter test (test_v001): the anti-rollback check of every firmware
 version counter, followed by a deliberately provoked fault and a second boot
 that verifies the counters survived it.

 The payload is a two-boot continuation state machine driven by the boot tag
 in NVRAM. On a first boot it checks each counter instance (class floor on the
 maximum, increment, rejected rollback, set to maximum, rejected overflow,
 read-back) and, at the last instance, records COLD_BOOT_REQUESTED, saves and
 masks SHCSR, and attempts a de-privileged update that must fault; the model
 ends that path in the terminal `AwaitingReset`. On the boot after the reset it
 clears the tag, restores SHCSR from NVRAM and checks every counter still reads
 its maximum.

 `Payload` and the functions below it state the payload's behaviour on values;
 `TestPayload` is the payload itself, proved to behave exactly so.
 */
module VersionCounters {
  import opened Val

  /** How the payload ends: it returns, or it waits for the reset it provoked */
  datatype Flow = Returned | AwaitingReset

  /** The end of one instance's checks: a failure was latched and control goes
      to cleanup, or every check held; `count` is the counter value read first */
  datatype Checked = Stopped(state: ValState) | Held(state: ValState, desc: MiscDesc, count: u32)

  /** The class floor on fw_ver_cnt_max: a trusted counter needs at least 64
      values, a non-trusted one at least 256; other types are not checked */
  predicate FloorMet(d: MiscDesc)
  {
    match d.fwVerType
    case Trusted => d.fwVerCntMax >= 64
    case NonTrusted => d.fwVerCntMax >= 256
    case OtherFwVerType(_) => true
  }

  /** `shcsr & ~0xF0000`: SecureFault, UsageFault, BusFault and MemFault disabled */
  function MaskFaults(w: bv32): bv32
  {
    w & !0xF0000
  }

  /** Masking clears bits 16-19 and leaves every other bit of the word as it was */
  lemma MaskFaultsClearsOnlyFaultEnables(w: bv32)
    ensures MaskFaults(w) & 0xF0000 == 0
    ensures MaskFaults(w) | (w & 0xF0000) == w
  {
  }

  /** Where the payload's body leaves control: at the `cleanup:` label, at an
      early `return`, or halted after the provoked fault */
  datatype Exit = ToCleanup(state: ValState) | Return(state: ValState) | Halt(state: ValState)

  ghost function Payload(p: Platform, s: ValState): (r: (ValState, Flow))
  {
    Finish(p, Body(p, s))
  }

  /** The `cleanup:` label restores the default HardFault handler; a failure to
      do so latches CHECKPOINT_19 */
  ghost function Finish(p: Platform, e: Exit): (r: (ValState, Flow))
  {
    match e
    case ToCleanup(s) =>
      var (s1, st) := RestoreHandlerStep(p, s);
      (if st != Success then Latched(s1, Checkpoint19, st) else s1, Returned)
    case Return(s) => (s, Returned)
    case Halt(s) => (s, AwaitingReset)
  }

  /** test_payload up to the `cleanup:` label */
  ghost function Body(p: Platform, s: ValState): (e: Exit)
  {
    var (s1, st1) := BaseAddrStep(p, s, Privileged);
    if st1 != Success then Return(Latched(s1, Checkpoint2, st1))
    else
      var (s2, st2, _) := MemoryConfigStep(p, s1, ConfigId(MemoryNvram, 0));
      if st2 != Success then ToCleanup(Latched(s2, Checkpoint2, st2))
      else
        var (s3, st3, boot) := BootReadStep(p, s2);
        if st3 != Success then ToCleanup(Latched(s3, Checkpoint3, st3))
        else if boot != ColdBootRequested then FirstPassFrom(p, s3, 0)
        else Resume(p, s3)
  }

  /** One iteration of the first-boot loop up to the last-instance test */
  ghost function CheckInstance(p: Platform, s: ValState, instance: u32): (c: Checked)
  {
    var (s1, st, d) := MiscConfigStep(p, s, ConfigId(MiscVersionCounter, instance));
    if st != Success then Stopped(Latched(s1, Checkpoint6, st))
    else if d.fwVerType == Trusted && d.fwVerCntMax < 64 then Stopped(Latched(s1, Checkpoint7, IncorrectValue))
    else if d.fwVerType == NonTrusted && d.fwVerCntMax < 256 then Stopped(Latched(s1, Checkpoint8, IncorrectValue))
    else RollbackChecks(p, s1, instance, d)
  }

  /** The anti-rollback sequence on one counter instance */
  ghost function RollbackChecks(p: Platform, s: ValState, instance: u32, d: MiscDesc): (c: Checked)
  {
    var id := CounterId(instance, d.fwVerType);
    var (s2, count) := VersionReadStep(p, s, id);
    var (s3, st3) := VersionUpdateStep(p, s2, Privileged, id, Inc(count));
    if st3 != Success then Stopped(Latched(s3, Checkpoint9, st3))
    else
      var (s4, st4) := VersionUpdateStep(p, s3, Privileged, id, Dec(Inc(count)));
      if st4 == Success then Stopped(Latched(s4, CheckpointA, Invalid))
      else
        var (s5, st5) := VersionUpdateStep(p, s4, Privileged, id, d.fwVerCntMax);
        if st5 != Success then Stopped(Latched(s5, CheckpointB, Invalid))
        else
          var (s6, st6) := VersionUpdateStep(p, s5, Privileged, id, Inc(d.fwVerCntMax));
          if st6 == Success then Stopped(Latched(s6, CheckpointC, Invalid))
          else
            var (s7, now) := VersionReadStep(p, s6, id);
            if d.fwVerCntMax != now then Stopped(Latched(s7, CheckpointD, Invalid))
            else Held(s7, d, Dec(Inc(count)))
  }

  /** The first-boot do-while loop from `instance` on */
  ghost function FirstPassFrom(p: Platform, s: ValState, instance: u32): (e: Exit)
    requires instance < U32Max
    decreases U32Max - instance, 1
  {
    AfterInstance(p, instance, CheckInstance(p, s, instance))
  }

  /** The rest of one first-boot iteration once the instance's checks have ended
      with `c`: the provoking sequence at the last instance, else the next one */
  ghost function AfterInstance(p: Platform, instance: u32, c: Checked): (e: Exit)
    requires instance < U32Max
    decreases U32Max - instance, 0
  {
    match c
    case Stopped(s1) => ToCleanup(s1)
    case Held(s1, d, count) =>
      if instance == Dec(d.numInstance) then Provoke(p, s1, CounterId(instance, d.fwVerType), count)
      else if instance + 1 < d.numInstance then FirstPassFrom(p, s1, instance + 1)
      else ToCleanup(s1.(latch := Pass))
  }

  /** The last instance: record the continuation, save and mask SHCSR, provoke the fault */
  ghost function Provoke(p: Platform, s: ValState, id: CounterId, count: u32): (e: Exit)
  {
    var (s1, st1) := BootWriteStep(p, s, ColdBootRequested);
    if st1 != Success then ToCleanup(Latched(s1, CheckpointE, st1))
    else
      var (s2, st2, shcsr) := RegReadStep(p, s1);
      if st2 != Success then Return(Latched(s2, CheckpointF, st2))
      else
        var (s3, st3) := ShcsrSaveStep(p, s2, shcsr);
        if st3 != Success then Return(Latched(s3, Checkpoint10, st3))
        else
          var (s4, st4) := RegWriteStep(p, s3, MaskFaults(shcsr));
          if st4 != Success then Return(Latched(s4, Checkpoint11, st4))
          else
            var (s5, st5) := BaseAddrStep(p, s4, Deprivileged);
            if st5 != Success then Return(Latched(s5, Checkpoint12, st5))
            else Halt(VersionUpdateStep(p, s5, Deprivileged, id, count).0)
  }

  /** The boot after the provoked reset: clear the tag, restore SHCSR, re-check */
  ghost function Resume(p: Platform, s: ValState): (e: Exit)
  {
    var (s1, st1) := BootWriteStep(p, s, BootUnknown);
    if st1 != Success then ToCleanup(Latched(s1, Checkpoint14, st1))
    else
      var (s2, st2, saved) := ShcsrLoadStep(p, s1);
      if st2 != Success then ToCleanup(Latched(s2, Checkpoint15, st2))
      else
        var (s3, st3) := RegWriteStep(p, s2, saved);
        if st3 != Success then ToCleanup(Latched(s3, Checkpoint16, st3))
        else ResumeFrom(p, s3, 0)
  }

  /** The second-boot do-while loop from `instance` on */
  ghost function ResumeFrom(p: Platform, s: ValState, instance: u32): (e: Exit)
    requires instance < U32Max
    decreases U32Max - instance
  {
    var (s1, st, d) := MiscConfigStep(p, s, ConfigId(MiscVersionCounter, instance));
    if st != Success then ToCleanup(Latched(s1, Checkpoint17, st))
    else
      var (s2, now) := VersionReadStep(p, s1, CounterId(instance, d.fwVerType));
      if d.fwVerCntMax != now then ToCleanup(Latched(s2, Checkpoint18, Invalid))
      else if instance + 1 < d.numInstance then ResumeFrom(p, s2, instance + 1)
      else ToCleanup(s2.(latch := Pass))
  }

  /** entry_hook: initialise the test, then latch PASS */
  method EntryHook(api: Api)
    modifies api
    ensures api.Snapshot() == InitializeStep(old(api.Snapshot())).(latch := Pass)
  {
    api.TestInitialize();
    api.SetStatus(Pass);
  }

  /** Lines 73-134 of test_payload: fetch one counter's descriptor and run the
      class floor and the anti-rollback sequence on it */
  method CheckCounter(api: Api, instance: u32) returns (held: bool, miscDesc: MiscDesc, fwVerCount: u32)
    modifies api
    ensures var c := CheckInstance(api.platform, old(api.Snapshot()), instance);
      && held == c.Held?
      && api.Snapshot() == c.state
      && (held ==> miscDesc == c.desc && fwVerCount == c.count)
  {
    var status;
    status, miscDesc := api.TargetGetMiscConfig(ConfigId(MiscVersionCounter, instance));
    var failed := api.ErrCheckSet(Checkpoint6, status);
    if failed {
      return false, miscDesc, 0;
    }
    // the class floor on the counter's range
    if miscDesc.fwVerType == Trusted || miscDesc.fwVerType == NonTrusted {
      if miscDesc.fwVerType == Trusted {
        if miscDesc.fwVerCntMax < 64 {
          failed := api.ErrCheckSet(Checkpoint7, IncorrectValue);
          return false, miscDesc, 0;
        }
      } else {
        if miscDesc.fwVerCntMax < 256 {
          failed := api.ErrCheckSet(Checkpoint8, IncorrectValue);
          return false, miscDesc, 0;
        }
      }
    }
    fwVerCount := api.FirmwareVersionRead(instance, miscDesc.fwVerType);
    fwVerCount := Inc(fwVerCount);
    status := api.FirmwareVersionUpdate(Privileged, instance, miscDesc.fwVerType, fwVerCount);
    failed := api.ErrCheckSet(Checkpoint9, status);
    if failed {
      return false, miscDesc, fwVerCount;
    }
    // a rollback must be rejected
    fwVerCount := Dec(fwVerCount);
    status := api.FirmwareVersionUpdate(Privileged, instance, miscDesc.fwVerType, fwVerCount);
    if status == Success {
      failed := api.ErrCheckSet(CheckpointA, Invalid);
      return false, miscDesc, fwVerCount;
    }
    // the maximum is reachable, and nothing beyond it
    status := api.FirmwareVersionUpdate(Privileged, instance, miscDesc.fwVerType, miscDesc.fwVerCntMax);
    if status != Success {
      failed := api.ErrCheckSet(CheckpointB, Invalid);
      return false, miscDesc, fwVerCount;
    }
    status := api.FirmwareVersionUpdate(Privileged, instance, miscDesc.fwVerType, Inc(miscDesc.fwVerCntMax));
    if status == Success {
      failed := api.ErrCheckSet(CheckpointC, Invalid);
      return false, miscDesc, fwVerCount;
    }
    var now := api.FirmwareVersionRead(instance, miscDesc.fwVerType);
    if miscDesc.fwVerCntMax != now {
      failed := api.ErrCheckSet(CheckpointD, Invalid);
      return false, miscDesc, fwVerCount;
    }
    held := true;
  }

  /** How a branch of the body leaves control, from what the method returns */
  ghost function ExitOf(toCleanup: bool, flow: Flow, s: ValState): Exit
  {
    if toCleanup then ToCleanup(s) else if flow == Returned then Return(s) else Halt(s)
  }

  /** Lines 137-169 of test_payload: the last instance's save-mask-provoke
      sequence; `toCleanup` is the `goto cleanup` of its first step */
  method ProvokeFault(api: Api, instance: u32, fwVerType: FwVerType, fwVerCount: u32)
    returns (toCleanup: bool, flow: Flow)
    modifies api
    ensures Provoke(api.platform, old(api.Snapshot()), CounterId(instance, fwVerType), fwVerCount)
            == ExitOf(toCleanup, flow, api.Snapshot())
    ensures toCleanup ==> flow == Returned
  {
    toCleanup, flow := false, Returned;
    var status := api.NvramWriteBoot(ColdBootRequested);
    var failed := api.ErrCheckSet(CheckpointE, status);
    if failed {
      return true, Returned;
    }
    // SecureFault, UsageFault, BusFault and MemFault are disabled for the provoked update
    var shcsr;
    status, shcsr := api.MemRegReadShcsr();
    failed := api.ErrCheckSet(CheckpointF, status);
    if failed {
      return;
    }
    status := api.NvramWriteShcsr(shcsr);
    failed := api.ErrCheckSet(Checkpoint10, status);
    if failed {
      return;
    }
    status := api.MemRegWriteShcsr(MaskFaults(shcsr));
    failed := api.ErrCheckSet(Checkpoint11, status);
    if failed {
      return;
    }
    status := api.CryptoSetBaseAddr(Deprivileged);
    failed := api.ErrCheckSet(Checkpoint12, status);
    if failed {
      return;
    }
    // a de-privileged update faults; the reset that follows is the only way on
    status := api.FirmwareVersionUpdate(Deprivileged, instance, fwVerType, fwVerCount);
    flow := AwaitingReset;
  }

  /** Lines 72-174 of test_payload: the first-boot do-while loop over the counters */
  method FirstPass(api: Api) returns (toCleanup: bool, flow: Flow)
    modifies api
    ensures FirstPassFrom(api.platform, old(api.Snapshot()), 0) == ExitOf(toCleanup, flow, api.Snapshot())
    ensures toCleanup ==> flow == Returned
  {
    ghost var goal := FirstPassFrom(api.platform, api.Snapshot(), 0);
    var instance: u32 := 0;
    while true
      invariant instance < U32Max
      invariant FirstPassFrom(api.platform, api.Snapshot(), instance) == goal
      decreases U32Max - instance
    {
      var held, miscDesc, fwVerCount := CheckCounter(api, instance);
      if !held {
        return true, Returned;
      }
      if instance == Dec(miscDesc.numInstance) {
        toCleanup, flow := ProvokeFault(api, instance, miscDesc.fwVerType, fwVerCount);
        return;
      }
      instance := instance + 1;
      if !(instance < miscDesc.numInstance) {
        break;
      }
    }
    api.SetStatus(Pass);
    return true, Returned;
  }

  /** Lines 177-208 of test_payload: the boot after the provoked reset */
  method ResumeAfterReset(api: Api)
    modifies api
    ensures Resume(api.platform, old(api.Snapshot())) == ToCleanup(api.Snapshot())
  {
    var status := api.NvramWriteBoot(BootUnknown);
    var failed := api.ErrCheckSet(Checkpoint14, status);
    if failed {
      return;
    }
    // faults are enabled again as they were before the provoked reset
    var shcsr;
    status, shcsr := api.NvramReadShcsr();
    failed := api.ErrCheckSet(Checkpoint15, status);
    if failed {
      return;
    }
    status := api.MemRegWriteShcsr(shcsr);
    failed := api.ErrCheckSet(Checkpoint16, status);
    if failed {
      return;
    }
    ResumeCounters(api);
  }

  /** Lines 194-208 of test_payload: every counter must still hold its maximum */
  method ResumeCounters(api: Api)
    modifies api
    ensures ResumeFrom(api.platform, old(api.Snapshot()), 0) == ToCleanup(api.Snapshot())
  {
    ghost var goal := ResumeFrom(api.platform, api.Snapshot(), 0);
    var instance: u32 := 0;
    while true
      invariant instance < U32Max
      invariant ResumeFrom(api.platform, api.Snapshot(), instance) == goal
      decreases U32Max - instance
    {
      var status, miscDesc := api.TargetGetMiscConfig(ConfigId(MiscVersionCounter, instance));
      var failed := api.ErrCheckSet(Checkpoint17, status);
      if failed {
        return;
      }
      // the counter kept its maximum across the reset
      var now := api.FirmwareVersionRead(instance, miscDesc.fwVerType);
      if miscDesc.fwVerCntMax != now {
        failed := api.ErrCheckSet(Checkpoint18, Invalid);
        return;
      }
      instance := instance + 1;
      if !(instance < miscDesc.numInstance) {
        break;
      }
    }
    api.SetStatus(Pass);
  }

  /** test_payload */
  method TestPayload(api: Api) returns (flow: Flow)
    modifies api
    ensures (api.Snapshot(), flow) == Payload(api.platform, old(api.Snapshot()))
  {
    flow := Returned;
    var status := api.CryptoSetBaseAddr(Privileged);
    var failed := api.ErrCheckSet(Checkpoint2, status);
    if failed {
      return;
    }
    label cleanup: {
      var memoryDesc;
      status, memoryDesc := api.TargetGetMemoryConfig(ConfigId(MemoryNvram, 0));
      failed := api.ErrCheckSet(Checkpoint2, status);
      if failed {
        break cleanup;
      }
      var boot;
      status, boot := api.NvramReadBoot();
      failed := api.ErrCheckSet(Checkpoint3, status);
      if failed {
        break cleanup;
      }
      if boot != ColdBootRequested {
        var toCleanup;
        toCleanup, flow := FirstPass(api);
        if !toCleanup {
          return;
        }
      } else {
        ResumeAfterReset(api);
      }
    }
    status := api.InterruptRestoreHandler();
    failed := api.ErrCheckSet(Checkpoint19, status);
  }

  /** exit_hook: does nothing */
  method ExitHook(api: Api)
    ensures api.Snapshot() == old(api.Snapshot())
  {
  }
}
