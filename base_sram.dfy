/**
 SRAM isolation test (test_b007): find a free SRAM block and fill it with a
 pattern from the secure side.

 The payload walks the SRAM descriptors from instance 0 in a do-while loop
 whose bound is the instance count of the descriptor fetched last, stops at
 the first block marked MEM_UNUSED, fills it with 0xC0DECAFE and passes; with
 no such block it fails at CHECKPOINT_2 with NOT_FOUND.

 `SramPayload` states the payload's behaviour on values; `TestPayload` is the
 payload itself, proved to behave exactly so.
 */
module BaseSram {
  import opened Val

  /** PATTERN */
  const Pattern: u32 := 0xC0DE_CAFE

  /** TARGET_CONFIG_CREATE_ID(GROUP_MEMORY, MEMORY_SRAM, instance) */
  function SramConfig(instance: u32): ConfigId
  {
    ConfigId(MemorySram, instance)
  }

  /** The fill of one block: at its start, over `end - start` as a uint32_t */
  function Fill(d: MemoryDesc): Event
  {
    MemoryFilled(d.start, Pattern, Sub(d.end, d.start))
  }

  /** test_payload on values */
  function SramPayload(p: Platform, s: ValState): ValState
  {
    ScanFrom(p, s, 0)
  }

  /** The do-while loop from `instance` on, and the verdict after it */
  function ScanFrom(p: Platform, s: ValState, instance: u32): ValState
    requires instance < U32Max
    decreases U32Max - instance
  {
    var (s1, st, d) := MemoryConfigStep(p, s, SramConfig(instance));
    if st != Success then Latched(s1, Checkpoint1, st)
    else if d.attribute == MemUnused then MemsetStep(s1, d.start, Pattern, Sub(d.end, d.start)).(latch := Pass)
    else if instance + 1 < d.numInstance then ScanFrom(p, s1, instance + 1)
    else Latched(s1, Checkpoint2, NotFound)
  }

  /** entry_hook: latch PASS */
  method EntryHook(api: Api)
    modifies api
    ensures api.Snapshot() == old(api.Snapshot()).(latch := Pass)
  {
    api.SetStatus(Pass);
  }

  /** test_payload */
  method TestPayload(api: Api)
    modifies api
    ensures api.Snapshot() == SramPayload(api.platform, old(api.Snapshot()))
  {
    ghost var goal := ScanFrom(api.platform, api.Snapshot(), 0);
    var instance: u32 := 0;
    var sramBlockFound := false;
    var memoryDesc: MemoryDesc;
    while true
      invariant instance < U32Max
      invariant ScanFrom(api.platform, api.Snapshot(), instance) == goal
      decreases U32Max - instance
    {
      var status;
      status, memoryDesc := api.TargetGetMemoryConfig(SramConfig(instance));
      var failed := api.ErrCheckSet(Checkpoint1, status);
      if failed {
        return;
      }
      if memoryDesc.attribute == MemUnused {
        // a free SRAM block
        sramBlockFound := true;
        api.Memset(memoryDesc.start, Pattern, Sub(memoryDesc.end, memoryDesc.start));
        assert goal == api.Snapshot().(latch := Pass);
        break;
      }
      instance := instance + 1;
      if !(instance < memoryDesc.numInstance) {
        assert goal == Latched(api.Snapshot(), Checkpoint2, NotFound);
        break;
      }
    }
    if sramBlockFound {
      api.SetStatus(Pass);
    } else {
      var failed := api.ErrCheckSet(Checkpoint2, NotFound);
    }
  }

  /** exit_hook: does nothing */
  method ExitHook(api: Api)
    ensures api.Snapshot() == old(api.Snapshot())
  {
  }

  // ---------------------------------------------------------------------------
  // Properties of the scan
  // ---------------------------------------------------------------------------

  /** The scan ends in one of three verdicts, changes only the latch and the
      log, and fills memory exactly once, as its last call, exactly when it
      passes */
  lemma {:induction false} ScanOutcome(p: Platform, s: ValState, i: u32)
    requires i < U32Max
    ensures var t := ScanFrom(p, s, i);
      && t == s.(latch := t.latch, log := t.log)
      && s.log < t.log
      && (t.latch == Pass || t.latch == Fail(Checkpoint2, NotFound)
          || (t.latch.Fail? && t.latch.checkpoint == Checkpoint1 && t.latch.status != Success))
      && (t.latch == Pass <==> t.log[|t.log| - 1].MemoryFilled?)
      && forall k :: |s.log| <= k < |t.log| - 1 ==> !t.log[k].MemoryFilled?
    decreases U32Max - i
  {
    var (s1, st, d) := MemoryConfigStep(p, s, SramConfig(i));
    if st == Success && d.attribute != MemUnused && i + 1 < d.numInstance {
      ScanOutcome(p, s1, i + 1);
    }
  }

  /** On any table, a passing scan fetched only descriptors that are in use
      until the unused one it fetched last, and then filled exactly that block */
  lemma {:induction false} ScanPassFillsFirstUnused(p: Platform, s: ValState, i: u32)
    requires i < U32Max
    requires ScanFrom(p, s, i).latch == Pass
    ensures var t := ScanFrom(p, s, i);
      && |s.log| + 2 <= |t.log|
      && var last := t.log[|t.log| - 2];
      && last.MemoryConfigFetched? && last.status == Success && last.memory.attribute == MemUnused
      && t.log[|t.log| - 1] == Fill(last.memory)
      && forall k :: |s.log| <= k < |t.log| - 2 ==>
           t.log[k].MemoryConfigFetched? && t.log[k].status == Success && t.log[k].memory.attribute != MemUnused
    decreases U32Max - i
  {
    var (s1, st, d) := MemoryConfigStep(p, s, SramConfig(i));
    if d.attribute != MemUnused {
      assert st == Success && i + 1 < d.numInstance;
      assert ScanFrom(p, s, i) == ScanFrom(p, s1, i + 1);
      ScanPassFillsFirstUnused(p, s1, i + 1);
      ScanOutcome(p, s1, i + 1);
      var t := ScanFrom(p, s1, i + 1);
      assert t.log[|s.log|] == s1.log[|s.log|] == MemoryConfigFetched(SramConfig(i), st, d);
      forall k | |s.log| <= k < |t.log| - 2
        ensures t.log[k].MemoryConfigFetched? && t.log[k].status == Success && t.log[k].memory.attribute != MemUnused
      {
        if k > |s.log| {
          assert |s1.log| <= k;
        }
      }
    }
  }

  /** The do-while loop fetches instance 0 even when its descriptor reports no
      instances, and stops after it */
  lemma ZeroCountFetchesOnce(p: Platform, s: ValState)
    requires SramConfig(0) in p.memory
    requires p.memory[SramConfig(0)].numInstance == 0 && p.memory[SramConfig(0)].attribute != MemUnused
    ensures SramPayload(p, s) ==
      s.(latch := Fail(Checkpoint2, NotFound),
         log := s.log + [MemoryConfigFetched(SramConfig(0), Success, p.memory[SramConfig(0)])])
  {
  }

  /** Instances 0..n-1 are declared, and each descriptor reports n instances */
  ghost predicate SramDeclared(p: Platform, n: u32)
  {
    forall j: u32 :: j < n ==> SramConfig(j) in p.memory && p.memory[SramConfig(j)].numInstance == n
  }

  /** Declared instance `j` is marked MEM_UNUSED */
  ghost predicate Unused(p: Platform, j: u32)
    requires SramConfig(j) in p.memory
  {
    p.memory[SramConfig(j)].attribute == MemUnused
  }

  /** The calls that fetch the declared descriptors of instances `lo` to
      `hi - 1`, in order */
  ghost function Fetched(p: Platform, n: u32, lo: u32, hi: u32): seq<Event>
    requires SramDeclared(p, n) && lo <= hi <= n
    decreases hi - lo
  {
    if lo == hi then []
    else [MemoryConfigFetched(SramConfig(lo), Success, p.memory[SramConfig(lo)])] + Fetched(p, n, lo + 1, hi)
  }

  /** On a consistent table, the scan from `i` selects the first unused block
      at or after `i`: it fetches the descriptors up to that block and no
      further, fills that block and nothing else, and passes */
  lemma {:induction false} ScanFindsFirstUnused(p: Platform, s: ValState, i: u32, n: u32, j: u32)
    requires SramDeclared(p, n) && i <= j < n
    requires Unused(p, j) && forall k: u32 :: i <= k < j ==> !Unused(p, k)
    ensures ScanFrom(p, s, i) ==
      s.(latch := Pass, log := s.log + Fetched(p, n, i, j + 1) + [Fill(p.memory[SramConfig(j)])])
    decreases j - i
  {
    var (s1, _, _) := MemoryConfigStep(p, s, SramConfig(i));
    if i < j {
      assert !Unused(p, i);
      assert ScanFrom(p, s, i) == ScanFrom(p, s1, i + 1);
      ScanFindsFirstUnused(p, s1, i + 1, n, j);
      assert s1.log + Fetched(p, n, i + 1, j + 1) == s.log + Fetched(p, n, i, j + 1);
    } else {
      assert Fetched(p, n, i, j + 1) == [MemoryConfigFetched(SramConfig(i), Success, p.memory[SramConfig(i)])];
    }
  }

  /** On a consistent table with no unused block from `i` on, the scan fetches
      every remaining descriptor, fills nothing and fails at CHECKPOINT_2 */
  lemma {:induction false} ScanMissesAll(p: Platform, s: ValState, i: u32, n: u32)
    requires SramDeclared(p, n) && i < n
    requires forall k: u32 :: i <= k < n ==> !Unused(p, k)
    ensures ScanFrom(p, s, i) == s.(latch := Fail(Checkpoint2, NotFound), log := s.log + Fetched(p, n, i, n))
    decreases n - i
  {
    var (s1, _, _) := MemoryConfigStep(p, s, SramConfig(i));
    assert !Unused(p, i);
    if i + 1 < n {
      assert ScanFrom(p, s, i) == ScanFrom(p, s1, i + 1);
      ScanMissesAll(p, s1, i + 1, n);
      assert s1.log + Fetched(p, n, i + 1, n) == s.log + Fetched(p, n, i, n);
    } else {
      assert Fetched(p, n, i, n) == [MemoryConfigFetched(SramConfig(i), Success, p.memory[SramConfig(i)])];
    }
  }

  /** A table with one unused block at instance 2 of 4: the payload fetches
      instances 0, 1 and 2, never instance 3, fills block 2 alone and passes */
  lemma UnusedBlockTwoOfFour(p: Platform, s: ValState)
    requires SramDeclared(p, 4)
    requires Unused(p, 2) && !Unused(p, 0) && !Unused(p, 1) && !Unused(p, 3)
    ensures var d := p.memory[SramConfig(2)];
      SramPayload(p, s) == s.(latch := Pass, log := s.log + [
        MemoryConfigFetched(SramConfig(0), Success, p.memory[SramConfig(0)]),
        MemoryConfigFetched(SramConfig(1), Success, p.memory[SramConfig(1)]),
        MemoryConfigFetched(SramConfig(2), Success, d),
        MemoryFilled(d.start, 0xC0DE_CAFE, Sub(d.end, d.start))])
  {
    ScanFindsFirstUnused(p, s, 0, 4, 2);
  }
}
