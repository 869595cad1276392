# TBSA-v8M test payloads: version counters, HUK isolation, SRAM discovery

This project models three test payloads of the TBSA-v8M architecture test
suite, and the part of the validation abstraction layer (VAL) that they call.

- **test_v001** (`VersionCounters`, `VersionCounterProofs`, `VersionCounterExits`) checks that each
  firmware version counter refuses rollback and refuses to go past its maximum.
  It walks every counter instance and first checks the class floor on the
  counter's maximum. It then increments the counter and checks that a decrement
  is refused. Next it sets the counter to its maximum, checks that going past the
  maximum is refused, and reads the counter back. At the last instance it records
  COLD_BOOT_REQUESTED in NVRAM, saves SHCSR and masks the fault enables, then
  provokes a fault with a de-privileged update. On the boot after the reset it
  clears the tag, restores SHCSR, and checks that every counter still reads its
  maximum.
- **test_c003** (`CryptoHuk`) reads the hardware unique key (HUK) fuses twice:
  once privileged and once de-privileged. The test fails if the two reads agree
  on any word of the key. It skips when the key's fuses are not open.
- **test_b007** (`BaseSram`) walks the SRAM descriptors from instance 0 and
  fills the first block marked MEM_UNUSED with 0xC0DECAFE. It fails with
  NOT_FOUND when no such block exists.

`Val` holds VAL as the payloads see it:

- A `Platform` value holds what the target supplies: descriptor tables, the HUK
  descriptor, fuse contents, and the status of each hardware-backed call. It
  also holds the counter store's answer to an update and the value a read of a
  counter reports.
- A `ValState` value holds what the calls change: counters, the two NVRAM
  fields, SHCSR, the result latch, and a log of every call with its response.
- Each VAL call is a pure step function on these two values. The class
  `Val.Api` holds the same state in fields, and each of its methods is proved
  to perform exactly that step.

Each payload has two forms:

- A ghost specification function on values (`Payload`, `HukPayload`,
  `SramPayload`).
- An imperative method on `Api` (`TestPayload`) whose `ensures` states that
  the final state equals that function applied to the initial state.

The lemmas state what each payload promises in terms of the platform:

- For test_v001 and test_c003, checkpoint by checkpoint, they say exactly which
  answers of the platform make the payload fail there, and with which status.
- They say exactly when test_c003 passes or skips.
- On a consistent descriptor table (instances 0 to n-1 declared, each
  reporting n), they say exactly when a test_v001 boot passes or waits for the
  reset, and when test_b007 passes or fails with NOT_FOUND.
- On any table, they say what a PASS of test_v001 or test_b007 implies.
- They also say what each payload observed along the way and what it leaves in
  NVRAM and SHCSR.

Unsigned 32-bit arithmetic is written out:

- `Inc`, `Dec` and `Sub` wrap around modulo 2^32.
- `GET_NUM_INSTANCE(desc) - 1` wraps to 0xFFFFFFFF when the count is 0.
- `end - start` wraps when `end < start`.

Where the code disagrees with itself, the model follows the test that decides
the verdict:

- The class floor in `tbsa-v8m/test_pool/version_counters/test_v001/non_secure.c:83`
  and `:89` fails a trusted maximum below 64 and a non-trusted one below 256.
  The debug messages beside them, at `:84` and `:90`, print the bound as
  ">= 63" and ">= 255". The model uses 64 and 256.

On the second boot the code clears the boot tag first, then restores SHCSR, and
only then re-reads the counters; the model keeps that order and proves it
(`VersionCounterProofs.ResumeOrder`).

## Model

| member | source | states |
|---|---|---|
| Val.Inc | tbsa-v8m/test_pool/version_counters/test_v001/non_secure.c:101 | `++fw_ver_count` on a uint32_t: the result is x + 1 modulo 2^32 |
| Val.Dec | tbsa-v8m/test_pool/version_counters/test_v001/non_secure.c:107 | `--fw_ver_count` on a uint32_t: the result is x - 1 modulo 2^32 |
| Val.Sub | tbsa-v8m/test_pool/base/test_b007/secure.c:56 | `(uint32_t)(end - start)`: the result is a - b modulo 2^32 |
| Val.Api.TestInitialize | tbsa-v8m/test_pool/version_counters/test_v001/non_secure.c:41 | `test_initialize`: appends Initialized to the log and changes nothing else |
| Val.Api.SetStatus | tbsa-v8m/test_pool/version_counters/test_v001/non_secure.c:43 | `set_status`: the latch becomes the given verdict and nothing else changes |
| Val.Api.ErrCheckSet | tbsa-v8m/test_pool/version_counters/test_v001/non_secure.c:55 | `err_check_set`: reports failure exactly when the status is not SUCCESS; only then does it latch FAIL with that checkpoint and status, and otherwise it changes nothing |
| Val.Api.CryptoSetBaseAddr | tbsa-v8m/test_pool/version_counters/test_v001/non_secure.c:54 | `crypto_set_base_addr`: returns the platform's status for that caller and logs the call |
| Val.Api.TargetGetMemoryConfig | tbsa-v8m/test_pool/base/test_b007/secure.c:46-48 | `target_get_config` for a memory descriptor: SUCCESS and the table's descriptor when the id is declared, NOT_FOUND otherwise; logged |
| Val.Api.TargetGetMiscConfig | tbsa-v8m/test_pool/version_counters/test_v001/non_secure.c:73-75 | `target_get_config` for a version-counter descriptor: SUCCESS and the descriptor when declared, NOT_FOUND otherwise; logged |
| Val.Api.NvramReadBoot | tbsa-v8m/test_pool/version_counters/test_v001/non_secure.c:66 | `nvram_read` of NV_BOOT: on success, returns the stored boot tag |
| Val.Api.NvramWriteBoot | tbsa-v8m/test_pool/version_counters/test_v001/non_secure.c:139 | `nvram_write` of NV_BOOT: stores the tag exactly when the write succeeds |
| Val.Api.NvramReadShcsr | tbsa-v8m/test_pool/version_counters/test_v001/non_secure.c:183 | `nvram_read` of NV_SHCSR: on success, returns the saved SHCSR word |
| Val.Api.NvramWriteShcsr | tbsa-v8m/test_pool/version_counters/test_v001/non_secure.c:150 | `nvram_write` of NV_SHCSR: saves the word exactly when the write succeeds |
| Val.Api.MemRegReadShcsr | tbsa-v8m/test_pool/version_counters/test_v001/non_secure.c:145 | `mem_reg_read(SHCSR)`: on success, returns the register's word |
| Val.Api.MemRegWriteShcsr | tbsa-v8m/test_pool/version_counters/test_v001/non_secure.c:155 | `mem_reg_write(SHCSR)`: the register takes the word exactly when the write succeeds |
| Val.Api.FirmwareVersionRead | tbsa-v8m/test_pool/version_counters/test_v001/non_secure.c:98 | `firmware_version_read`: returns what the platform reports for the counter's current value (0 for a counter never written) |
| Val.Api.FirmwareVersionUpdate | tbsa-v8m/test_pool/version_counters/test_v001/non_secure.c:101 | `firmware_version_update`: the counter takes the new value exactly when the store answers SUCCESS for that caller and that transition |
| Val.Api.InterruptRestoreHandler | tbsa-v8m/test_pool/version_counters/test_v001/non_secure.c:216 | `interrupt_restore_handler`: returns the platform's status and logs the call |
| Val.Api.CryptoGetKeyInfo | tbsa-v8m/test_pool/crypto/test_c003/non_secure.c:52 | `crypto_get_key_info(HUK)`: returns the status and the HUK descriptor |
| Val.Api.FuseRead | tbsa-v8m/test_pool/crypto/test_c003/non_secure.c:58 | `fuse_ops(FUSE_READ)`: on success, the first `size` words of the buffer are the fuse words for that caller and the rest are untouched; on failure, the buffer is untouched |
| Val.Api.Memset | tbsa-v8m/test_pool/base/test_b007/secure.c:56 | `memset`: logs a fill of `length` at `start` with the pattern |
| VersionCounters.MaskFaultsClearsOnlyFaultEnables | tbsa-v8m/test_pool/version_counters/test_v001/non_secure.c:144-155 | `shcsr & ~0xF0000` clears bits 16-19 (the four fault enables) and keeps every other bit |
| VersionCounters.EntryHook | tbsa-v8m/test_pool/version_counters/test_v001/non_secure.c:34-44 | initialises the test, then latches PASS |
| VersionCounters.CheckCounter | tbsa-v8m/test_pool/version_counters/test_v001/non_secure.c:73-134 | one instance's descriptor fetch, class floor and anti-rollback sequence, performed exactly as `CheckInstance` |
| VersionCounters.ProvokeFault | tbsa-v8m/test_pool/version_counters/test_v001/non_secure.c:137-169 | the last-instance sequence (record COLD_BOOT_REQUESTED, save and mask SHCSR, de-privileged update), performed exactly as `Provoke`; an early `return` is told apart from `goto cleanup` |
| VersionCounters.FirstPass | tbsa-v8m/test_pool/version_counters/test_v001/non_secure.c:72-174 | the first-boot do-while loop, performed exactly as `FirstPassFrom` from instance 0 |
| VersionCounters.ResumeAfterReset | tbsa-v8m/test_pool/version_counters/test_v001/non_secure.c:176-208 | the second-boot branch, performed exactly as `Resume`; it always ends at `cleanup:` |
| VersionCounters.ResumeCounters | tbsa-v8m/test_pool/version_counters/test_v001/non_secure.c:194-208 | the second-boot re-read loop, performed exactly as `ResumeFrom` from instance 0 |
| VersionCounters.TestPayload | tbsa-v8m/test_pool/version_counters/test_v001/non_secure.c:46-220 | the whole payload, `cleanup:` included: final state and flow are exactly those of `Payload` |
| VersionCounters.ExitHook | tbsa-v8m/test_pool/version_counters/test_v001/non_secure.c:222-224 | changes nothing |
| VersionCounterProofs.RollbackChecksFrame | tbsa-v8m/test_pool/version_counters/test_v001/non_secure.c:98-134 | the anti-rollback sequence changes only its own counter, the latch and the log, and every early exit latches a FAIL |
| VersionCounterProofs.RollbackChecksHeld | tbsa-v8m/test_pool/version_counters/test_v001/non_secure.c:98-134 | all checks hold exactly when the store accepts the increment, refuses the decrement, accepts the maximum, refuses maximum + 1, and reads the maximum back; the counter is then at its maximum and the latch untouched |
| VersionCounterProofs.CheckInstanceFrame | tbsa-v8m/test_pool/version_counters/test_v001/non_secure.c:73-134 | one instance's checks touch no other instance's counter and neither NVRAM nor SHCSR; each stop latches a FAIL; they stop at CHECKPOINT_6 with NOT_FOUND exactly when the instance's descriptor is not declared |
| VersionCounterProofs.CheckInstanceHeld | tbsa-v8m/test_pool/version_counters/test_v001/non_secure.c:73-134 | one instance's checks hold exactly when its descriptor is declared, meets the class floor and its store refuses rollback and overflow; the counter then reads its maximum |
| VersionCounterProofs.ClassFloor | tbsa-v8m/test_pool/version_counters/test_v001/non_secure.c:81-95 | a trusted maximum below 64 fails at CHECKPOINT_7, a non-trusted one below 256 at CHECKPOINT_8, both with INCORRECT_VALUE, before any counter is read or written |
| VersionCounterProofs.ProvokeFrame | tbsa-v8m/test_pool/version_counters/test_v001/non_secure.c:137-169 | the fault is reached exactly when every call succeeds, and otherwise a FAIL is latched; only an accepted de-privileged update can change a counter |
| VersionCounterProofs.ProvokeHalted | tbsa-v8m/test_pool/version_counters/test_v001/non_secure.c:137-169 | on reaching the fault: NVRAM holds COLD_BOOT_REQUESTED and the SHCSR found, SHCSR has its fault enables cleared, the latch is untouched, and the six calls appear in source order |
| VersionCounterProofs.AfterInstanceHaltsIff | tbsa-v8m/test_pool/version_counters/test_v001/non_secure.c:72-174 | on a consistent table (instances 0 to n-1 declared, each reporting n), from instance i, the loop reaches the fault exactly when every remaining instance conforms and the provoking calls succeed |
| VersionCounterProofs.AfterInstanceHalted | tbsa-v8m/test_pool/version_counters/test_v001/non_secure.c:137-174 | a loop that reaches the fault leaves the latch untouched, COLD_BOOT_REQUESTED and the original SHCSR in NVRAM, and SHCSR masked |
| VersionCounterProofs.AfterInstanceHaltedEarlier | tbsa-v8m/test_pool/version_counters/test_v001/non_secure.c:72-174 | a loop from instance i that reaches the fault leaves the counters of instances below i unchanged |
| VersionCounterProofs.AfterInstanceHaltedAtMax | tbsa-v8m/test_pool/version_counters/test_v001/non_secure.c:118-134 | a loop that reaches the fault leaves every instance before the last reading its maximum |
| VersionCounterProofs.AfterInstanceHaltedLast | tbsa-v8m/test_pool/version_counters/test_v001/non_secure.c:165-166 | when the store refuses de-privileged updates, the last instance also still reads its maximum at the fault |
| VersionCounterProofs.FirstPassOutcome | tbsa-v8m/test_pool/version_counters/test_v001/non_secure.c:72-174 | the first-boot loop over a consistent table either reaches the fault or latches a FAIL; it reaches the fault exactly when every instance conforms and the provoking calls succeed |
| VersionCounterProofs.ResumeFromPassIff | tbsa-v8m/test_pool/version_counters/test_v001/non_secure.c:194-208 | on a consistent table, the re-read loop always goes to `cleanup:`, and latches PASS exactly when every instance reads its maximum; otherwise it latches CHECKPOINT_18 INVALID |
| VersionCounterProofs.ResumeOutcome | tbsa-v8m/test_pool/version_counters/test_v001/non_secure.c:176-208 | on a consistent table with at least one instance, when the tag clear, the SHCSR load and the SHCSR write succeed, the second boot leaves counters unchanged, stores BOOT_UNKNOWN, restores SHCSR from NVRAM, and passes exactly when every counter reads its maximum; its calls come in source order: BOOT_UNKNOWN written, the saved word loaded, SHCSR written with it, then only descriptor fetches and counter reads |
| VersionCounterProofs.ResumeFromCalls | tbsa-v8m/test_pool/version_counters/test_v001/non_secure.c:194-208 | the re-read loop always goes to `cleanup:`, changes only the latch and the log, makes only descriptor fetches and counter reads, and ends in PASS, CHECKPOINT_18 INVALID, or CHECKPOINT_17 NOT_FOUND exactly when its last call was a fetch that found no descriptor |
| VersionCounterProofs.ResumeOrder | tbsa-v8m/test_pool/version_counters/test_v001/non_secure.c:176-208 | when the first three calls succeed, the second boot's log is BOOT_UNKNOWN written, the saved SHCSR loaded, SHCSR written with that word, then only descriptor fetches and counter reads |
| VersionCounterProofs.BodyBranches | tbsa-v8m/test_pool/version_counters/test_v001/non_secure.c:54-71 | after the setup calls succeed, the payload takes the first-boot branch exactly when the stored tag is not COLD_BOOT_REQUESTED |
| VersionCounterProofs.FirstBoot | tbsa-v8m/test_pool/version_counters/test_v001/non_secure.c:46-220 | on a consistent table with at least one instance and readable setup calls, a first boot waits for the reset exactly when every instance conforms and the provoking calls succeed; otherwise it returns with a FAIL; waiting, it leaves the continuation and the saved SHCSR in NVRAM, every counter but the provoked one at its maximum, and that one too when the de-privileged update is refused |
| VersionCounterProofs.SecondBoot | tbsa-v8m/test_pool/version_counters/test_v001/non_secure.c:46-220 | on a consistent table with at least one instance, when the setup calls, the tag clear, the SHCSR load and the SHCSR write succeed, a second boot returns, leaves counters unchanged and BOOT_UNKNOWN stored, restores SHCSR, and passes exactly when every counter reads its maximum and the handler restore succeeds; otherwise it fails at CHECKPOINT_19 or CHECKPOINT_18; its log, after the three setup calls, is the ordered second-boot calls followed by one handler restore |
| VersionCounterProofs.ConformingFirstBoot | tbsa-v8m/test_pool/version_counters/test_v001/non_secure.c:71-169 | on a conforming target, the first boot waits for the reset with COLD_BOOT_REQUESTED stored and every counter at its maximum |
| VersionCounterProofs.TwoBoots | tbsa-v8m/test_pool/version_counters/test_v001/non_secure.c:46-220 | on a conforming target, the first boot waits for the reset; a second boot from any state that kept those counters and NVRAM passes, restores the saved SHCSR and clears the tag |
| VersionCounterExits.RollbackFailures | tbsa-v8m/test_pool/version_counters/test_v001/non_secure.c:98-134 | a refused increment stops at CHECKPOINT_9 with the store's status; an accepted rollback, a refused maximum, an accepted overflow and a wrong read-back stop at CHECKPOINT_A, B, C and D with INVALID, each exactly when the calls before it answered as required |
| VersionCounterExits.CheckInstanceRollback | tbsa-v8m/test_pool/version_counters/test_v001/non_secure.c:73-134 | once a declared descriptor meets its class floor, the instance's checks are the anti-rollback sequence on the counter it names, after one logged fetch |
| VersionCounterExits.ProvokeFailures | tbsa-v8m/test_pool/version_counters/test_v001/non_secure.c:137-169 | a failed COLD_BOOT_REQUESTED write goes to `cleanup:` at CHECKPOINT_E; a failed SHCSR read, SHCSR save, SHCSR mask or privilege drop returns past `cleanup:` at CHECKPOINT_F, 10, 11 or 12; each carries its call's status and each happens exactly when the calls before it succeeded |
| VersionCounterExits.ResumeFailures | tbsa-v8m/test_pool/version_counters/test_v001/non_secure.c:176-192 | the second boot always goes to `cleanup:`; a failed tag clear, SHCSR load or SHCSR restore stops it at CHECKPOINT_14, 15 or 16 with that status, each exactly when the calls before it succeeded; a failed clear leaves NVRAM's tag and SHCSR as they were; every exit carries PASS or a FAIL at CHECKPOINT_14 to 18 |
| VersionCounterExits.SetupFailures | tbsa-v8m/test_pool/version_counters/test_v001/non_secure.c:54-69 | a refused base address returns past `cleanup:` at CHECKPOINT_2 with its status; a missing NVRAM descriptor goes to `cleanup:` at CHECKPOINT_2 with NOT_FOUND; a refused boot-tag read goes to `cleanup:` at CHECKPOINT_3 with its status; each exactly when the calls before it succeeded, and each leaves counters, NVRAM and SHCSR as they were |
| VersionCounterExits.CheckInstanceStops | tbsa-v8m/test_pool/version_counters/test_v001/non_secure.c:73-134 | one instance's checks stop only with a FAIL at CHECKPOINT_6, 7, 8, 9, A, B, C or D |
| VersionCounterExits.ResumePassed | tbsa-v8m/test_pool/version_counters/test_v001/non_secure.c:194-212 | on any table, a re-read loop that ends with PASS fetched every instance up to one whose descriptor reports at most one more instance, and each of them read its maximum; counters are unchanged |
| VersionCounterExits.FirstPassExits | tbsa-v8m/test_pool/version_counters/test_v001/non_secure.c:72-174 | the first-boot loop never restores the handler, returns past `cleanup:` only with a FAIL at CHECKPOINT_F, 10, 11 or 12, and reaches `cleanup:` only with PASS or a FAIL at CHECKPOINT_6 to E |
| VersionCounterExits.ResumeNoRestore | tbsa-v8m/test_pool/version_counters/test_v001/non_secure.c:176-208 | the second boot never restores the handler before `cleanup:` |
| VersionCounterExits.BodyExits | tbsa-v8m/test_pool/version_counters/test_v001/non_secure.c:54-210 | the payload before `cleanup:` never restores the handler, and returns past `cleanup:` only with a FAIL at CHECKPOINT_2, F, 10, 11 or 12 |
| VersionCounterExits.PayloadCleanup | tbsa-v8m/test_pool/version_counters/test_v001/non_secure.c:46-220 | an early return logs no handler restore; every exit to `cleanup:` ends with exactly one handler restore, keeps the latch when it succeeds and latches CHECKPOINT_19 with its status when it fails; the payload waits for the reset exactly when the body reaches the fault |
| VersionCounterExits.FirstPassPassed | tbsa-v8m/test_pool/version_counters/test_v001/non_secure.c:72-174 | on any table, a first-boot loop that ends with PASS stopped at an instance m whose descriptor reports at most m instances; every instance up to m is declared, meets its class floor, reads its maximum, and its store accepted the increment and the maximum, refused the rollback and the step past the maximum, and read the maximum back, each answer given for the value the counter held when the loop began; NVRAM and SHCSR are untouched and only counter calls were made |
| VersionCounterExits.FirstBootPassed | tbsa-v8m/test_pool/version_counters/test_v001/non_secure.c:46-220 | on any table, a first boot that returns with PASS stopped at an instance m reporting at most m instances; every instance up to m met its class floor, reads its maximum, and had a store that accepted the increment and the maximum, refused the rollback and the overflow and read the maximum back, for the value the counter held before the boot; the boot never wrote the boot tag, never attempted a de-privileged update, and left NVRAM and SHCSR untouched |
| VersionCounterExits.ZeroCountPassesUnprovoked | tbsa-v8m/test_pool/version_counters/test_v001/non_secure.c:137-174 | when instance 0 reports no instances and conforms, `GET_NUM_INSTANCE - 1` wraps, the fault is never provoked, and the first boot returns with PASS, both NVRAM fields and SHCSR untouched and instance 0 at its maximum |
| CryptoHuk.FirstMatch | tbsa-v8m/test_pool/crypto/test_c003/non_secure.c:75-81 | the first index at which the two reads agree, or none, in which case they differ at every index |
| CryptoHuk.EntryHook | tbsa-v8m/test_pool/crypto/test_c003/non_secure.c:28-38 | initialises the test, then latches PASS |
| CryptoHuk.TestPayload | tbsa-v8m/test_pool/crypto/test_c003/non_secure.c:40-89 | the whole payload: final state exactly `HukPayload` |
| CryptoHuk.CheckOpenKey | tbsa-v8m/test_pool/crypto/test_c003/non_secure.c:44-88 | the open-key branch, with both 32-word buffers, performed exactly as `OpenKeyChecks` |
| CryptoHuk.CheckUntrusted | tbsa-v8m/test_pool/crypto/test_c003/non_secure.c:63-88 | the de-privileged setup, the read and the comparison, performed exactly as `UntrustedChecks` |
| CryptoHuk.CompareKeys | tbsa-v8m/test_pool/crypto/test_c003/non_secure.c:75-88 | the comparison loop latches FAIL(CHECKPOINT_D, ERROR) exactly when the buffers agree at some word below `size`, and PASS otherwise |
| CryptoHuk.ExitHook | tbsa-v8m/test_pool/crypto/test_c003/non_secure.c:91-93 | changes nothing |
| CryptoHuk.HukFrame | tbsa-v8m/test_pool/crypto/test_c003/non_secure.c:40-89 | the payload changes only the latch and extends the log |
| CryptoHuk.ClosedKeyNeverRead | tbsa-v8m/test_pool/crypto/test_c003/non_secure.c:57 | a key whose fuses are not open is never read |
| CryptoHuk.HukSkipIff | tbsa-v8m/test_pool/crypto/test_c003/non_secure.c:82-86 | the payload skips exactly when both lookups succeed and the key is not open, and then it made only those two calls |
| CryptoHuk.HukPassIff | tbsa-v8m/test_pool/crypto/test_c003/non_secure.c:40-89 | the payload passes exactly when every call succeeds, the key is open, and the two reads differ at every word |
| CryptoHuk.HukFailures | tbsa-v8m/test_pool/crypto/test_c003/non_secure.c:47-81 | CHECKPOINT_8 to CHECKPOINT_C each latch exactly when their call is the first to fail, carrying its status; CHECKPOINT_D with ERROR latches exactly when all succeed on an open key whose reads share a word |
| CryptoHuk.SharedWordFails | tbsa-v8m/test_pool/crypto/test_c003/non_secure.c:75-81 | one shared word is enough to fail at CHECKPOINT_D |
| BaseSram.EntryHook | tbsa-v8m/test_pool/base/test_b007/secure.c:34-37 | latches PASS and changes nothing else |
| BaseSram.TestPayload | tbsa-v8m/test_pool/base/test_b007/secure.c:39-67 | the whole payload: final state exactly `SramPayload` |
| BaseSram.ExitHook | tbsa-v8m/test_pool/base/test_b007/secure.c:69-71 | changes nothing |
| BaseSram.ScanOutcome | tbsa-v8m/test_pool/base/test_b007/secure.c:45-66 | the scan changes only the latch and the log, ends in PASS, FAIL(CHECKPOINT_2, NOT_FOUND) or a CHECKPOINT_1 failure, and fills memory once, as its last call, exactly when it passes |
| BaseSram.ScanPassFillsFirstUnused | tbsa-v8m/test_pool/base/test_b007/secure.c:45-58 | on any table, a passing scan fetched only in-use descriptors before the unused one, and filled exactly that block with the pattern over `end - start` |
| BaseSram.ZeroCountFetchesOnce | tbsa-v8m/test_pool/base/test_b007/secure.c:45-61 | the do-while fetches instance 0 even when it reports no instances, then stops with NOT_FOUND |
| BaseSram.ScanFindsFirstUnused | tbsa-v8m/test_pool/base/test_b007/secure.c:45-64 | on a consistent table, the scan fetches exactly the descriptors up to the first unused block, fills that block alone and passes |
| BaseSram.ScanMissesAll | tbsa-v8m/test_pool/base/test_b007/secure.c:45-66 | on a consistent table with no unused block, the scan fetches every descriptor, fills nothing and fails with NOT_FOUND at CHECKPOINT_2 |
| BaseSram.UnusedBlockTwoOfFour | tbsa-v8m/test_pool/base/test_b007/secure.c:45-64 | with block 2 of 4 unused, the payload fetches instances 0 to 2, never 3, fills block 2 and passes |

## Left out

- Logging (`val->print`) is left out: it never affects a result.
- The BSS bounds passed to `test_initialize` are left out: initialisation is one logged event.
- Test registration (`TBSA_TEST_PUBLISH`) and the harness that runs entry, payload and exit are left out.
- Processor privilege, the SAU/MPU and the secure fault itself are not modelled. Privilege appears only as the `Caller` argument the platform answers by.
- Every VAL implementation is left out. Each call's status and every value it reads come from `Platform`.
- The provoked fault and the `while(1)` after it become the terminal flow `AwaitingReset`. The reset is modelled in `VersionCounterProofs.TwoBoots` as a new state that keeps the counters and NVRAM.
- Val.Api.SetStatus: a latch that refuses to overwrite a FAIL is not modelled; VAL's `set_status` is not part of this model, so the call is an unconditional write of the latch. None of the three payloads calls `set_status` after a FAIL on any path.
- `Platform.respond` answers every call of one kind with the same status, on every call and on both boots. A target on which an NVRAM or SHCSR access fails once and then succeeds cannot be expressed.
- Val.Api.Memset: records the fill as an event. The bytes written to memory are not modelled, because no payload reads them back.
- CryptoHuk.TestPayload: requires a HUK of at most 32 words. The source copies `size` words into two 32-word stack arrays, so a larger key overflows them.
- CryptoHuk.CheckOpenKey: the same 32-word bound, for the same reason.
- The numeric values of FUSE_OPEN and of the TEST_CHECKPOINT constants come from headers that are not part of this model. Checkpoints take the value of their hexadecimal suffix, and FUSE_OPEN is bit 0. The proofs rely only on the checkpoint values being pairwise distinct.
- Behaviours the model reproduces as written and does not flag:
  - In test_v001, a counter descriptor that reports 0 instances makes `GET_NUM_INSTANCE - 1` wrap. The first pass then ends with PASS without provoking the fault (`VersionCounterExits.ZeroCountPassesUnprovoked`).
  - In test_c003, a target that answers the de-privileged fuse read with an error status, rather than with different words, fails at CHECKPOINT_C.
