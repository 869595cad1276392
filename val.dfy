/**
 The validation abstraction layer (VAL) as the three test payloads see it: an
 abstract, stateful environment reached through status-returning calls.

 What a target supplies and never changes (descriptor tables, the hardware
 unique key descriptor, the words a fuse read delivers, and the status every
 hardware-backed call answers with) is a `Platform` value. What the calls change
 (version counters, the two NVRAM fields, the SHCSR register, the result latch)
 is a `ValState` value, which also carries the log of every call made and the
 response it got: the behaviour a payload observed.

 Each call is specified by a pure step function on (Platform, ValState); the
 class `Api` holds the same state in fields and its methods are proved to
 perform exactly those steps.
 */
module Val {

  /** uint32_t */
  newtype u32 = x: int | 0 <= x < 0x1_0000_0000

  const U32Max: u32 := 0xFFFF_FFFF

  /** C's `x + 1` on a uint32_t: wraps to 0 above 0xFFFFFFFF */
  function Inc(x: u32): (r: u32)
    ensures r as int == (x as int + 1) % 0x1_0000_0000
  {
    if x == U32Max then 0 else x + 1
  }

  /** C's `x - 1` on a uint32_t: wraps to 0xFFFFFFFF below 0 */
  function Dec(x: u32): (r: u32)
    ensures r as int == (x as int - 1) % 0x1_0000_0000
  {
    if x == 0 then U32Max else x - 1
  }

  /** C's `a - b` on uint32_t operands */
  function Sub(a: u32, b: u32): (r: u32)
    ensures r as int == (a as int - b as int) % 0x1_0000_0000
  {
    if b <= a then a - b else (a as int - b as int + 0x1_0000_0000) as u32
  }

  datatype Option<T> = None | Some(value: T)

  /** tbsa_status_t; the codes the payloads name, and any other failure */
  datatype Status = Success | Error | NotFound | Invalid | IncorrectValue | OtherFailure(code: nat)

  /** TEST_CHECKPOINT_<n>; the value of each is its hexadecimal suffix */
  type Checkpoint = nat

  const Checkpoint1: Checkpoint := 0x1
  const Checkpoint2: Checkpoint := 0x2
  const Checkpoint3: Checkpoint := 0x3
  const Checkpoint6: Checkpoint := 0x6
  const Checkpoint7: Checkpoint := 0x7
  const Checkpoint8: Checkpoint := 0x8
  const Checkpoint9: Checkpoint := 0x9
  const CheckpointA: Checkpoint := 0xA
  const CheckpointB: Checkpoint := 0xB
  const CheckpointC: Checkpoint := 0xC
  const CheckpointD: Checkpoint := 0xD
  const CheckpointE: Checkpoint := 0xE
  const CheckpointF: Checkpoint := 0xF
  const Checkpoint10: Checkpoint := 0x10
  const Checkpoint11: Checkpoint := 0x11
  const Checkpoint12: Checkpoint := 0x12
  const Checkpoint14: Checkpoint := 0x14
  const Checkpoint15: Checkpoint := 0x15
  const Checkpoint16: Checkpoint := 0x16
  const Checkpoint17: Checkpoint := 0x17
  const Checkpoint18: Checkpoint := 0x18
  const Checkpoint19: Checkpoint := 0x19

  /** The result latch: RESULT_PASS, RESULT_FAIL(checkpoint, status), RESULT_SKIP(code) */
  datatype Verdict = Unset | Pass | Fail(checkpoint: Checkpoint, status: Status) | Skip(reason: nat)

  /** A call through the `val->` table, or a direct `val_` call from the test's own context */
  datatype Caller = Privileged | Deprivileged

  /** (group, type) pairs the payloads query: GROUP_MEMORY/MEMORY_NVRAM,
      GROUP_MEMORY/MEMORY_SRAM and GROUP_MISCELLANEOUS/MISCELLANEOUS_VER_COUNT */
  datatype Resource = MemoryNvram | MemorySram | MiscVersionCounter

  /** TARGET_CONFIG_CREATE_ID(group, type, instance) */
  datatype ConfigId = ConfigId(resource: Resource, instance: u32)

  datatype MemAttribute = MemUnused | MemSecure | MemNonSecure | MemNonSecureCallable

  /** memory_desc_t; `numInstance` is what GET_NUM_INSTANCE reads from it */
  datatype MemoryDesc = MemoryDesc(start: u32, end: u32, attribute: MemAttribute, numInstance: u32)

  datatype FwVerType = Trusted | NonTrusted | OtherFwVerType(code: nat)

  /** miscellaneous_desc_t of a version counter */
  datatype MiscDesc = MiscDesc(fwVerType: FwVerType, fwVerCntMax: u32, numInstance: u32)

  /** key_desc_t: fuse lifecycle state bits, fuse address, size in words */
  datatype KeyDesc = KeyDesc(state: bv32, addr: u32, size: u32)

  /** The FUSE_OPEN state bit. Its value is defined in a VAL header that is not
      part of this model; nothing proved here depends on which bit it is. */
  const FuseOpen: bv32 := 0x1

  /** A firmware version counter, addressed as the calls address it */
  datatype CounterId = CounterId(instance: u32, fwVerType: FwVerType)

  /** boot.cb as stored in NVRAM; any other stored word is `Unrecognised` */
  datatype BootTag = Normal | ColdBootRequested | BootUnknown | Unrecognised(raw: u32)

  datatype NvField = NvBoot | NvShcsr

  /** The hardware-backed calls whose status the target decides */
  datatype Request =
    | BaseAddrRequest(caller: Caller)
    | NvramReadRequest(field: NvField)
    | NvramWriteRequest(field: NvField)
    | ShcsrReadRequest
    | ShcsrWriteRequest
    | KeyInfoRequest
    | FuseReadRequest(caller: Caller)
    | RestoreHandlerRequest

  /** One VAL call and the response it got */
  datatype Event =
    | Initialized
    | BaseAddrSet(caller: Caller, status: Status)
    | MemoryConfigFetched(id: ConfigId, status: Status, memory: MemoryDesc)
    | MiscConfigFetched(id: ConfigId, status: Status, misc: MiscDesc)
    | BootTagRead(tag: BootTag, status: Status)
    | BootTagWritten(tag: BootTag, status: Status)
    | ShcsrLoaded(word: bv32, status: Status)
    | ShcsrSaved(word: bv32, status: Status)
    | RegisterRead(word: bv32, status: Status)
    | RegisterWritten(word: bv32, status: Status)
    | VersionRead(counter: CounterId, value: u32)
    | VersionUpdated(caller: Caller, counter: CounterId, value: u32, status: Status)
    | HandlerRestored(status: Status)
    | KeyInfoFetched(status: Status, key: KeyDesc)
    | FuseWordsRead(caller: Caller, addr: u32, size: u32, status: Status)
    | MemoryFilled(start: u32, pattern: u32, length: u32)

  /** What the target supplies: descriptor tables, the HUK descriptor, the word
      at index k that a read of the fuses at an address delivers to a caller,
      the status of every hardware-backed call, the status with which the
      counter store answers an update from the current to a requested value,
      and the value a read of a counter holding a given value reports. */
  datatype Platform = Platform(
    memory: map<ConfigId, MemoryDesc>,
    misc: map<ConfigId, MiscDesc>,
    huk: KeyDesc,
    fuse: (Caller, u32, nat) -> u32,
    respond: Request -> Status,
    update: (Caller, CounterId, u32, u32) -> Status,
    read: (CounterId, u32) -> u32)

  /** What the calls change, and the log of the calls */
  datatype ValState = ValState(
    counters: map<CounterId, u32>,
    nvBoot: BootTag,
    nvShcsr: bv32,
    shcsr: bv32,
    latch: Verdict,
    log: seq<Event>)

  const NoMemoryDesc := MemoryDesc(0, 0, MemSecure, 0)
  const NoMiscDesc := MiscDesc(OtherFwVerType(0), 0, 0)

  function CounterValue(s: ValState, id: CounterId): u32
  {
    if id in s.counters then s.counters[id] else 0
  }

  /** The state after err_check_set(checkpoint, status) with a failing status */
  function Latched(s: ValState, cp: Checkpoint, status: Status): ValState
  {
    s.(latch := Fail(cp, status))
  }

  // ---- one step function per VAL call ----

  function InitializeStep(s: ValState): ValState
  {
    s.(log := s.log + [Initialized])
  }

  function BaseAddrStep(p: Platform, s: ValState, caller: Caller): (ValState, Status)
  {
    var st := p.respond(BaseAddrRequest(caller));
    (s.(log := s.log + [BaseAddrSet(caller, st)]), st)
  }

  /** target_get_config for a memory descriptor: NOT_FOUND when the target declares none */
  function MemoryConfigStep(p: Platform, s: ValState, id: ConfigId): (ValState, Status, MemoryDesc)
  {
    var st := if id in p.memory then Success else NotFound;
    var d := if id in p.memory then p.memory[id] else NoMemoryDesc;
    (s.(log := s.log + [MemoryConfigFetched(id, st, d)]), st, d)
  }

  /** target_get_config for a miscellaneous descriptor */
  function MiscConfigStep(p: Platform, s: ValState, id: ConfigId): (ValState, Status, MiscDesc)
  {
    var st := if id in p.misc then Success else NotFound;
    var d := if id in p.misc then p.misc[id] else NoMiscDesc;
    (s.(log := s.log + [MiscConfigFetched(id, st, d)]), st, d)
  }

  function BootReadStep(p: Platform, s: ValState): (ValState, Status, BootTag)
  {
    var st := p.respond(NvramReadRequest(NvBoot));
    (s.(log := s.log + [BootTagRead(s.nvBoot, st)]), st, s.nvBoot)
  }

  function BootWriteStep(p: Platform, s: ValState, tag: BootTag): (ValState, Status)
  {
    var st := p.respond(NvramWriteRequest(NvBoot));
    (s.(nvBoot := if st == Success then tag else s.nvBoot,
        log := s.log + [BootTagWritten(tag, st)]), st)
  }

  function ShcsrLoadStep(p: Platform, s: ValState): (ValState, Status, bv32)
  {
    var st := p.respond(NvramReadRequest(NvShcsr));
    (s.(log := s.log + [ShcsrLoaded(s.nvShcsr, st)]), st, s.nvShcsr)
  }

  function ShcsrSaveStep(p: Platform, s: ValState, word: bv32): (ValState, Status)
  {
    var st := p.respond(NvramWriteRequest(NvShcsr));
    (s.(nvShcsr := if st == Success then word else s.nvShcsr,
        log := s.log + [ShcsrSaved(word, st)]), st)
  }

  function RegReadStep(p: Platform, s: ValState): (ValState, Status, bv32)
  {
    var st := p.respond(ShcsrReadRequest);
    (s.(log := s.log + [RegisterRead(s.shcsr, st)]), st, s.shcsr)
  }

  function RegWriteStep(p: Platform, s: ValState, word: bv32): (ValState, Status)
  {
    var st := p.respond(ShcsrWriteRequest);
    (s.(shcsr := if st == Success then word else s.shcsr,
        log := s.log + [RegisterWritten(word, st)]), st)
  }

  /** firmware_version_read: it always answers, with what the store reports
      for the value the counter holds */
  function VersionReadStep(p: Platform, s: ValState, id: CounterId): (ValState, u32)
  {
    var v := p.read(id, CounterValue(s, id));
    (s.(log := s.log + [VersionRead(id, v)]), v)
  }

  /** firmware_version_update: the counter takes the requested value exactly when the store accepts */
  function VersionUpdateStep(p: Platform, s: ValState, caller: Caller, id: CounterId, value: u32): (ValState, Status)
  {
    var st := p.update(caller, id, CounterValue(s, id), value);
    (s.(counters := if st == Success then s.counters[id := value] else s.counters,
        log := s.log + [VersionUpdated(caller, id, value, st)]), st)
  }

  function RestoreHandlerStep(p: Platform, s: ValState): (ValState, Status)
  {
    var st := p.respond(RestoreHandlerRequest);
    (s.(log := s.log + [HandlerRestored(st)]), st)
  }

  function KeyInfoStep(p: Platform, s: ValState): (ValState, Status, KeyDesc)
  {
    var st := p.respond(KeyInfoRequest);
    (s.(log := s.log + [KeyInfoFetched(st, p.huk)]), st, p.huk)
  }

  function FuseReadStep(p: Platform, s: ValState, caller: Caller, addr: u32, size: u32): (ValState, Status)
  {
    var st := p.respond(FuseReadRequest(caller));
    (s.(log := s.log + [FuseWordsRead(caller, addr, size, st)]), st)
  }

  /** The first `size` words a successful fuse read at `addr` delivers to `caller` */
  function FuseWords(p: Platform, caller: Caller, addr: u32, size: nat): (w: seq<u32>)
    ensures |w| == size
    ensures forall k :: 0 <= k < size ==> w[k] == p.fuse(caller, addr, k)
  {
    seq(size, k requires 0 <= k => p.fuse(caller, addr, k))
  }

  function MemsetStep(s: ValState, start: u32, pattern: u32, length: u32): ValState
  {
    s.(log := s.log + [MemoryFilled(start, pattern, length)])
  }

  /** tbsa_val_api_t: the environment a payload runs against */
  class Api {
    const platform: Platform
    var counters: map<CounterId, u32>
    var nvBoot: BootTag
    var nvShcsr: bv32
    var shcsr: bv32
    var latch: Verdict
    var log: seq<Event>

    function Snapshot(): ValState
      reads this
    {
      ValState(counters, nvBoot, nvShcsr, shcsr, latch, log)
    }

    constructor (platform: Platform, init: ValState)
      ensures this.platform == platform && Snapshot() == init
    {
      this.platform := platform;
      counters, nvBoot, nvShcsr, shcsr := init.counters, init.nvBoot, init.nvShcsr, init.shcsr;
      latch, log := init.latch, init.log;
    }

    /** test_initialize; the zeroing of the test's scratch region is not modelled */
    method TestInitialize()
      modifies this
      ensures Snapshot() == InitializeStep(old(Snapshot()))
    {
      log := log + [Initialized];
    }

    /** set_status: overwrites the latch */
    method SetStatus(v: Verdict)
      modifies this
      ensures Snapshot() == old(Snapshot()).(latch := v)
    {
      latch := v;
    }

    /** err_check_set: a failing status latches FAIL(checkpoint, status) and asks the caller to stop */
    method ErrCheckSet(cp: Checkpoint, status: Status) returns (failed: bool)
      modifies this
      ensures failed <==> status != Success
      ensures Snapshot() == if failed then Latched(old(Snapshot()), cp, status) else old(Snapshot())
    {
      failed := status != Success;
      if failed {
        latch := Fail(cp, status);
      }
    }

    method CryptoSetBaseAddr(caller: Caller) returns (status: Status)
      modifies this
      ensures (Snapshot(), status) == BaseAddrStep(platform, old(Snapshot()), caller)
    {
      status := platform.respond(BaseAddrRequest(caller));
      log := log + [BaseAddrSet(caller, status)];
    }

    method TargetGetMemoryConfig(id: ConfigId) returns (status: Status, desc: MemoryDesc)
      modifies this
      ensures (Snapshot(), status, desc) == MemoryConfigStep(platform, old(Snapshot()), id)
    {
      if id in platform.memory {
        status, desc := Success, platform.memory[id];
      } else {
        status, desc := NotFound, NoMemoryDesc;
      }
      log := log + [MemoryConfigFetched(id, status, desc)];
    }

    method TargetGetMiscConfig(id: ConfigId) returns (status: Status, desc: MiscDesc)
      modifies this
      ensures (Snapshot(), status, desc) == MiscConfigStep(platform, old(Snapshot()), id)
    {
      if id in platform.misc {
        status, desc := Success, platform.misc[id];
      } else {
        status, desc := NotFound, NoMiscDesc;
      }
      log := log + [MiscConfigFetched(id, status, desc)];
    }

    method NvramReadBoot() returns (status: Status, tag: BootTag)
      modifies this
      ensures (Snapshot(), status, tag) == BootReadStep(platform, old(Snapshot()))
    {
      status, tag := platform.respond(NvramReadRequest(NvBoot)), nvBoot;
      log := log + [BootTagRead(tag, status)];
    }

    method NvramWriteBoot(tag: BootTag) returns (status: Status)
      modifies this
      ensures (Snapshot(), status) == BootWriteStep(platform, old(Snapshot()), tag)
    {
      status := platform.respond(NvramWriteRequest(NvBoot));
      if status == Success {
        nvBoot := tag;
      }
      log := log + [BootTagWritten(tag, status)];
    }

    method NvramReadShcsr() returns (status: Status, word: bv32)
      modifies this
      ensures (Snapshot(), status, word) == ShcsrLoadStep(platform, old(Snapshot()))
    {
      status, word := platform.respond(NvramReadRequest(NvShcsr)), nvShcsr;
      log := log + [ShcsrLoaded(word, status)];
    }

    method NvramWriteShcsr(word: bv32) returns (status: Status)
      modifies this
      ensures (Snapshot(), status) == ShcsrSaveStep(platform, old(Snapshot()), word)
    {
      status := platform.respond(NvramWriteRequest(NvShcsr));
      if status == Success {
        nvShcsr := word;
      }
      log := log + [ShcsrSaved(word, status)];
    }

    /** mem_reg_read(SHCSR, ...) */
    method MemRegReadShcsr() returns (status: Status, word: bv32)
      modifies this
      ensures (Snapshot(), status, word) == RegReadStep(platform, old(Snapshot()))
    {
      status, word := platform.respond(ShcsrReadRequest), shcsr;
      log := log + [RegisterRead(word, status)];
    }

    /** mem_reg_write(SHCSR, ...) */
    method MemRegWriteShcsr(word: bv32) returns (status: Status)
      modifies this
      ensures (Snapshot(), status) == RegWriteStep(platform, old(Snapshot()), word)
    {
      status := platform.respond(ShcsrWriteRequest);
      if status == Success {
        shcsr := word;
      }
      log := log + [RegisterWritten(word, status)];
    }

    method FirmwareVersionRead(instance: u32, fwVerType: FwVerType) returns (value: u32)
      modifies this
      ensures (Snapshot(), value) == VersionReadStep(platform, old(Snapshot()), CounterId(instance, fwVerType))
    {
      var id := CounterId(instance, fwVerType);
      value := platform.read(id, if id in counters then counters[id] else 0);
      log := log + [VersionRead(id, value)];
    }

    method FirmwareVersionUpdate(caller: Caller, instance: u32, fwVerType: FwVerType, value: u32)
      returns (status: Status)
      modifies this
      ensures (Snapshot(), status) == VersionUpdateStep(platform, old(Snapshot()), caller, CounterId(instance, fwVerType), value)
    {
      var id := CounterId(instance, fwVerType);
      status := platform.update(caller, id, if id in counters then counters[id] else 0, value);
      if status == Success {
        counters := counters[id := value];
      }
      log := log + [VersionUpdated(caller, id, value, status)];
    }

    /** interrupt_restore_handler(EXCP_NUM_HF) */
    method InterruptRestoreHandler() returns (status: Status)
      modifies this
      ensures (Snapshot(), status) == RestoreHandlerStep(platform, old(Snapshot()))
    {
      status := platform.respond(RestoreHandlerRequest);
      log := log + [HandlerRestored(status)];
    }

    /** crypto_get_key_info(&key, HUK, 0) */
    method CryptoGetKeyInfo() returns (status: Status, key: KeyDesc)
      modifies this
      ensures (Snapshot(), status, key) == KeyInfoStep(platform, old(Snapshot()))
    {
      status, key := platform.respond(KeyInfoRequest), platform.huk;
      log := log + [KeyInfoFetched(status, key)];
    }

    /** fuse_ops(FUSE_READ, addr, buf, size): on success the first `size` words of
        `buf` receive what the fuses deliver to `caller`; the rest is untouched */
    method FuseRead(caller: Caller, addr: u32, buf: array<u32>, size: u32) returns (status: Status)
      requires size as int <= buf.Length
      modifies this, buf
      ensures (Snapshot(), status) == FuseReadStep(platform, old(Snapshot()), caller, addr, size)
      ensures status == Success ==> buf[..size] == FuseWords(platform, caller, addr, size as nat)
      ensures status == Success ==> buf[size..] == old(buf[size..])
      ensures status != Success ==> buf[..] == old(buf[..])
    {
      status := platform.respond(FuseReadRequest(caller));
      if status == Success {
        forall k | 0 <= k < size as int {
          buf[k] := platform.fuse(caller, addr, k);
        }
        assert buf[..size] == FuseWords(platform, caller, addr, size as nat);
      }
      log := log + [FuseWordsRead(caller, addr, size, status)];
    }

    /** memset(start, pattern, length); only the call and its arguments are modelled */
    method Memset(start: u32, pattern: u32, length: u32)
      modifies this
      ensures Snapshot() == MemsetStep(old(Snapshot()), start, pattern, length)
    {
      log := log + [MemoryFilled(start, pattern, length)];
    }
  }
}
