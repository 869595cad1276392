/**
 HUK confidentiality test (test_c003): the hardware unique key must sit in
 fuses that trusted code can read and non-trusted code cannot.

 When the key's fuses are open, the payload reads the key once through the
 privileged VAL table and once through the direct, de-privileged calls, and
 fails as soon as the two reads agree on any word. A key whose fuses are not
 open skips the test without reading them.

 `HukPayload` states the payload's behaviour on values; `TestPayload` is the
 payload itself, over two 32-word buffers, proved to behave exactly so.
 */
module CryptoHuk {
  import opened Val

  /** `(state & FUSE_OPEN) == FUSE_OPEN` */
  predicate KeyOpen(key: KeyDesc)
  {
    key.state & FuseOpen == FuseOpen
  }

  /** The first index from `from` on at which two reads of equal length agree */
  function FirstMatch(a: seq<u32>, b: seq<u32>, from: nat): (r: Option<nat>)
    requires |a| == |b| && from <= |a|
    ensures r.Some? ==>
      && from <= r.value < |a|
      && a[r.value] == b[r.value]
      && forall k :: from <= k < r.value ==> a[k] != b[k]
    ensures r.None? ==> forall k :: from <= k < |a| ==> a[k] != b[k]
    decreases |a| - from
  {
    if from == |a| then None
    else if a[from] == b[from] then Some(from)
    else FirstMatch(a, b, from + 1)
  }

  /** The key as the privileged read delivers it */
  function TrustedWords(p: Platform, key: KeyDesc): seq<u32>
  {
    FuseWords(p, Privileged, key.addr, key.size as nat)
  }

  /** The key as the de-privileged read delivers it */
  function UntrustedWords(p: Platform, key: KeyDesc): seq<u32>
  {
    FuseWords(p, Deprivileged, key.addr, key.size as nat)
  }

  /** test_payload on values: the state it leaves */
  function HukPayload(p: Platform, s: ValState): ValState
  {
    var (s1, st1) := BaseAddrStep(p, s, Privileged);
    if st1 != Success then Latched(s1, Checkpoint8, st1)
    else
      var (s2, st2, key) := KeyInfoStep(p, s1);
      if st2 != Success then Latched(s2, Checkpoint9, st2)
      else if !KeyOpen(key) then s2.(latch := Skip(1))
      else OpenKeyChecks(p, s2, key)
  }

  /** The open-key branch: the privileged read, then the rest */
  function OpenKeyChecks(p: Platform, s: ValState, key: KeyDesc): ValState
  {
    var (s3, st3) := FuseReadStep(p, s, Privileged, key.addr, key.size);
    if st3 != Success then Latched(s3, CheckpointA, st3)
    else UntrustedChecks(p, s3, key)
  }

  /** The de-privileged read and the word-by-word comparison */
  function UntrustedChecks(p: Platform, s: ValState, key: KeyDesc): ValState
  {
    var (s4, st4) := BaseAddrStep(p, s, Deprivileged);
    if st4 != Success then Latched(s4, CheckpointB, st4)
    else
      var (s5, st5) := FuseReadStep(p, s4, Deprivileged, key.addr, key.size);
      if st5 != Success then Latched(s5, CheckpointC, st5)
      else if FirstMatch(TrustedWords(p, key), UntrustedWords(p, key), 0).Some? then Latched(s5, CheckpointD, Error)
      else s5.(latch := Pass)
  }

  /** entry_hook: initialise the test, then latch PASS */
  method EntryHook(api: Api)
    modifies api
    ensures api.Snapshot() == InitializeStep(old(api.Snapshot())).(latch := Pass)
  {
    api.TestInitialize();
    api.SetStatus(Pass);
  }

  /** test_payload; the two key buffers are the source's 32-word stack arrays,
      so the key may be at most 32 words long */
  method TestPayload(api: Api)
    requires api.platform.huk.size <= 32
    modifies api
    ensures api.Snapshot() == HukPayload(api.platform, old(api.Snapshot()))
  {
    var status := api.CryptoSetBaseAddr(Privileged);
    var failed := api.ErrCheckSet(Checkpoint8, status);
    if failed {
      return;
    }
    var keyInfoHuk;
    status, keyInfoHuk := api.CryptoGetKeyInfo();
    failed := api.ErrCheckSet(Checkpoint9, status);
    if failed {
      return;
    }
    if KeyOpen(keyInfoHuk) {
      CheckOpenKey(api, keyInfoHuk);
    } else {
      api.SetStatus(Skip(1));
    }
  }

  /** Lines 44-88 of test_payload: read the key both ways into zeroed buffers
      and compare the words the reads filled */
  method CheckOpenKey(api: Api, keyInfoHuk: KeyDesc)
    requires keyInfoHuk.size <= 32
    modifies api
    ensures api.Snapshot() == OpenKeyChecks(api.platform, old(api.Snapshot()), keyInfoHuk)
  {
    var key := new u32[32](_ => 0);
    var keyNs := new u32[32](_ => 0);
    var status := api.FuseRead(Privileged, keyInfoHuk.addr, key, keyInfoHuk.size);
    var failed := api.ErrCheckSet(CheckpointA, status);
    if failed {
      return;
    }
    CheckUntrusted(api, keyInfoHuk, key, keyNs);
  }

  /** Lines 63-88 of test_payload, once `key` holds the privileged read */
  method CheckUntrusted(api: Api, keyInfoHuk: KeyDesc, key: array<u32>, keyNs: array<u32>)
    requires keyInfoHuk.size as int <= key.Length && keyInfoHuk.size as int <= keyNs.Length
    requires key != keyNs
    requires key[..keyInfoHuk.size] == TrustedWords(api.platform, keyInfoHuk)
    modifies api, keyNs
    ensures api.Snapshot() == UntrustedChecks(api.platform, old(api.Snapshot()), keyInfoHuk)
  {
    var status := api.CryptoSetBaseAddr(Deprivileged);
    var failed := api.ErrCheckSet(CheckpointB, status);
    if failed {
      return;
    }
    status := api.FuseRead(Deprivileged, keyInfoHuk.addr, keyNs, keyInfoHuk.size);
    failed := api.ErrCheckSet(CheckpointC, status);
    if failed {
      return;
    }
    CompareKeys(api, key, keyNs, keyInfoHuk.size);
  }

  /** Lines 75-88 of test_payload: fail at the first word the two buffers share,
      else latch PASS */
  method CompareKeys(api: Api, key: array<u32>, keyNs: array<u32>, size: u32)
    requires size as int <= key.Length && size as int <= keyNs.Length
    modifies api
    ensures api.Snapshot() ==
      if FirstMatch(key[..size], keyNs[..size], 0).Some? then Latched(old(api.Snapshot()), CheckpointD, Error)
      else old(api.Snapshot()).(latch := Pass)
  {
    ghost var read := api.Snapshot();
    for i := 0 to size as int
      invariant forall k :: 0 <= k < i ==> key[k] != keyNs[k]
      invariant api.Snapshot() == read
    {
      if key[i] == keyNs[i] {
        // the non-trusted read saw the key
        var failed := api.ErrCheckSet(CheckpointD, Error);
        return;
      }
    }
    api.SetStatus(Pass);
  }

  /** exit_hook: does nothing */
  method ExitHook(api: Api)
    ensures api.Snapshot() == old(api.Snapshot())
  {
  }

  // ---------------------------------------------------------------------------
  // Properties of the payload
  // ---------------------------------------------------------------------------

  /** Every setup and read call of the payload succeeds */
  ghost predicate ReadsAccepted(p: Platform)
  {
    && p.respond(BaseAddrRequest(Privileged)) == Success
    && p.respond(KeyInfoRequest) == Success
    && p.respond(FuseReadRequest(Privileged)) == Success
    && p.respond(BaseAddrRequest(Deprivileged)) == Success
    && p.respond(FuseReadRequest(Deprivileged)) == Success
  }

  /** The two reads agree on some word of the key */
  ghost predicate WordShared(p: Platform, key: KeyDesc)
  {
    exists k :: 0 <= k < key.size as int && TrustedWords(p, key)[k] == UntrustedWords(p, key)[k]
  }

  /** The payload changes only the latch and appends to the log */
  lemma HukFrame(p: Platform, s: ValState)
    ensures var t := HukPayload(p, s);
      t == s.(latch := t.latch, log := t.log) && s.log < t.log
  {
  }

  /** A key whose fuses are not open is never read: no fuse read appears among
      the calls the payload makes */
  lemma ClosedKeyNeverRead(p: Platform, s: ValState)
    requires !KeyOpen(p.huk)
    ensures var t := HukPayload(p, s);
      && s.log <= t.log
      && forall e :: e in t.log[|s.log|..] ==> !e.FuseWordsRead?
  {
    var t := HukPayload(p, s);
    var (s1, st1) := BaseAddrStep(p, s, Privileged);
    if st1 == Success {
      var (s2, st2, key) := KeyInfoStep(p, s1);
      assert t.log[|s.log|..] == [BaseAddrSet(Privileged, st1), KeyInfoFetched(st2, key)];
    } else {
      assert t.log[|s.log|..] == [BaseAddrSet(Privileged, st1)];
    }
  }

  /** The payload skips exactly when the key is found and its fuses are not
      open, and then it has made no call but those two lookups */
  lemma HukSkipIff(p: Platform, s: ValState)
    ensures var t := HukPayload(p, s);
      && (t.latch == Skip(1) <==>
            && p.respond(BaseAddrRequest(Privileged)) == Success
            && p.respond(KeyInfoRequest) == Success
            && !KeyOpen(p.huk))
      && (t.latch == Skip(1) ==>
            t.log == s.log + [BaseAddrSet(Privileged, Success), KeyInfoFetched(Success, p.huk)])
  {
    if p.respond(BaseAddrRequest(Privileged)) == Success && p.respond(KeyInfoRequest) == Success && KeyOpen(p.huk) {
      var s2 := KeyInfoStep(p, BaseAddrStep(p, s, Privileged).0).0;
      OpenKeyNeverSkips(p, s2, p.huk);
    }
  }

  /** The open-key branch latches a verdict other than SKIP */
  lemma OpenKeyNeverSkips(p: Platform, s: ValState, key: KeyDesc)
    ensures OpenKeyChecks(p, s, key).latch != Skip(1)
  {
  }

  /** The payload passes exactly when every call succeeds, the key's fuses are
      open, and the two reads differ at every word of the key */
  lemma HukPassIff(p: Platform, s: ValState)
    ensures HukPayload(p, s).latch == Pass <==>
      && ReadsAccepted(p)
      && KeyOpen(p.huk)
      && forall k :: 0 <= k < p.huk.size as int ==> TrustedWords(p, p.huk)[k] != UntrustedWords(p, p.huk)[k]
  {
    var m := FirstMatch(TrustedWords(p, p.huk), UntrustedWords(p, p.huk), 0);
    if m.Some? {
      assert TrustedWords(p, p.huk)[m.value] == UntrustedWords(p, p.huk)[m.value];
    }
  }

  /** Each way the payload fails latches its own checkpoint: CHECKPOINT_8 to
      CHECKPOINT_C exactly when the corresponding call is the first to fail,
      carrying that call's status, and CHECKPOINT_D with ERROR exactly when
      every call succeeded on an open key and the reads share a word */
  lemma HukFailures(p: Platform, s: ValState)
    ensures var t := HukPayload(p, s);
      var base := p.respond(BaseAddrRequest(Privileged));
      var info := p.respond(KeyInfoRequest);
      var trusted := p.respond(FuseReadRequest(Privileged));
      var direct := p.respond(BaseAddrRequest(Deprivileged));
      var untrusted := p.respond(FuseReadRequest(Deprivileged));
      && (t.latch.Fail? ==> t.latch.status != Success)
      && (t.latch == Fail(Checkpoint8, base) <==> base != Success)
      && (t.latch == Fail(Checkpoint9, info) <==> base == Success && info != Success)
      && (t.latch == Fail(CheckpointA, trusted) <==>
            base == Success && info == Success && KeyOpen(p.huk) && trusted != Success)
      && (t.latch == Fail(CheckpointB, direct) <==>
            base == Success && info == Success && KeyOpen(p.huk) && trusted == Success && direct != Success)
      && (t.latch == Fail(CheckpointC, untrusted) <==>
            base == Success && info == Success && KeyOpen(p.huk) && trusted == Success && direct == Success
            && untrusted != Success)
      && (t.latch == Fail(CheckpointD, Error) <==> ReadsAccepted(p) && KeyOpen(p.huk) && WordShared(p, p.huk))
  {
    var m := FirstMatch(TrustedWords(p, p.huk), UntrustedWords(p, p.huk), 0);
    if m.Some? {
      assert TrustedWords(p, p.huk)[m.value] == UntrustedWords(p, p.huk)[m.value];
    }
  }

  /** An open key whose two reads agree on any one word fails the test at
      CHECKPOINT_D, however many words differ */
  lemma SharedWordFails(p: Platform, s: ValState, k: nat)
    requires ReadsAccepted(p) && KeyOpen(p.huk)
    requires k < p.huk.size as int && TrustedWords(p, p.huk)[k] == UntrustedWords(p, p.huk)[k]
    ensures HukPayload(p, s).latch == Fail(CheckpointD, Error)
  {
    var m := FirstMatch(TrustedWords(p, p.huk), UntrustedWords(p, p.huk), 0);
    assert m.Some?;
  }
}
