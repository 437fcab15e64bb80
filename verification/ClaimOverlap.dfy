/**
 The one overlap that the claim protocol leaves open: a cosign reads the cosigned rows before it reads
 the claims, so the projection of a boarding input and the release of its claim fit between the two.
 */
module ClaimOverlap {
  import opened Outpoints
  import opened ClaimProtocol
  import opened ClaimInvariant
  import opened ClaimTheorems
  import ClaimProgress

  ghost predicate At(s0: State, run: seq<Action>, s: State) {
    ValidRun(s0, run) && Run(s0, run) == s
  }

  lemma Nothing(s0: State)
    ensures At(s0, [], s0)
  {
  }

  lemma Take(s0: State, run: seq<Action>, s: State, a: Action, s': State) returns (run': seq<Action>)
    requires At(s0, run, s) && Enabled(s, a) && Do(s, a) == s'
    ensures At(s0, run', s')
  {
    hide Do, Enabled;
    assert ValidRun(s, [a]) && Run(s, [a]) == Do(s, a);
    RunConcat(s0, run, [a]);
    run' := run + [a];
  }

  /** A boarding utxo, the request that registers it, the one that cosigns it, and the batch that settles it. */
  datatype Cast = Cast(utxo: Outpoint, reg: Tid, cos: Tid, batch: BatchId)

  /** The utxo is no vtxo, and there is no offchain tx. */
  ghost predicate Plain(c: Cast, db: Db, cache: Cache, h: Hist) {
    && c.utxo !in db.tracked && cache.txs == {} && c.reg != c.cos
    && Ins(h.inputs, c.reg) == {c.utxo} && Ins(h.inputs, c.cos) == {c.utxo}
  }

  function NextReg(pc: RegisterPc): RegisterPc {
    match pc
    case RegBegin => RegReadRows
    case RegReadRows => RegLockCosign
    case RegLockCosign => RegReadCosigning
    case RegReadCosigning => RegReadCosigned
    case RegReadCosigned => RegLockOffchain
    case RegLockOffchain => RegReadCache
    case RegReadCache => RegRereadRows
    case RegRereadRows => RegReadPending
    case RegReadPending => RegReadCosignedRows
    case RegReadCosignedRows => RegPush
    case RegPush => RegUnlockOffchain
    case RegUnlockOffchain => RegUnlockCosign
    case RegUnlockCosign => RegEnd
    case RegEnd => RegDone
    case RegDone => RegDone
  }

  function Registering(c: Cast, pc: RegisterPc): Thread {
    Register({c.utxo}, {}, if pc.RegBegin? || pc.RegReadRows? then {} else {c.utxo}, pc)
  }

  predicate AfterPush(pc: RegisterPc) {
    pc.RegUnlockOffchain? || pc.RegUnlockCosign? || pc.RegEnd? || pc.RegDone?
  }

  /** What the stores say before and after the registration pushes its intent. */
  ghost predicate Stores(c: Cast, db: Db, cache: Cache, h: Hist, pushed: bool) {
    && Plain(c, db, cache, h) && c.utxo !in db.cosignedRows && c.utxo !in cache.cosigning && h.settled == map[]
    && (if pushed
        then && c.reg in cache.queue && c.utxo in cache.claims && cache.claims[c.utxo] == Queued(c.reg)
             && c.reg in h.pushed && h.pushed[c.reg] == {}
        else c.utxo !in cache.claims)
  }

  /** The registration is at pc, nothing else has happened. */
  ghost predicate Registration(c: Cast, s: State, pc: RegisterPc) {
    && Stores(c, s.db, s.cache, s.hist, AfterPush(pc))
    && s.round == RoundIdle && c.batch !in s.usedBatches && s.inflight == map[]
    && c.reg in s.threads && s.threads[c.reg] == Registering(c, pc)
    && c.cos in s.threads && s.threads[c.cos] == Cosign({c.utxo}, CosLock)
    && s.offchainMu == Mu(c, HoldsOffchain(Registering(c, pc)))
    && s.cosignMu == Mu(c, HoldsCosign(Registering(c, pc)))
    && (forall t :: t in s.registering <==> t == c.reg && HoldsRegistration(Registering(c, pc)))
  }

  function Mu(c: Cast, held: bool): Option<Tid> {
    if held then Some(c.reg) else None
  }

  lemma RegisterBoards(c: Cast, s: State, pc: RegisterPc)
    requires Registration(c, s, pc)
    requires pc.RegBegin? || pc.RegLockCosign? || pc.RegReadCosigning? || pc.RegReadCosigned?
    ensures CanAcquire(s, c.reg) && Registration(c, RegisterStep(s, c.reg, true), NextReg(pc))
  {
    hide RegReadRowsStep, PushStep, CacheIncludesAny;
  }

  lemma RegisterClassifies(c: Cast, s: State)
    requires Registration(c, s, RegReadRows)
    ensures Registration(c, RegisterStep(s, c.reg, true), RegLockCosign)
  {
    var th := s.threads[c.reg];
    assert (th.ins - s.db.tracked) + (th.ins * s.db.unrolled) == {c.utxo} && th.ins * s.db.tracked == {};
    assert RegisterStep(s, c.reg, true) == RegReadRowsStep(s, c.reg);
    hide RegisterStep, PushStep, CacheIncludesAny;
  }

  lemma RegisterReads(c: Cast, s: State, pc: RegisterPc)
    requires Registration(c, s, pc)
    requires pc.RegLockOffchain? || pc.RegReadCache? || pc.RegRereadRows? || pc.RegReadPending? || pc.RegReadCosignedRows?
    ensures CanAcquire(s, c.reg) && Registration(c, RegisterStep(s, c.reg, true), NextReg(pc))
  {
    hide RegReadRowsStep, PushStep;
  }

  lemma RegisterPushes(c: Cast, s: State)
    requires Registration(c, s, RegPush)
    ensures Registration(c, RegisterStep(s, c.reg, true), RegUnlockOffchain)
  {
    assert RegisterStep(s, c.reg, true) == PushStep(s, c.reg);
    hide RegisterStep, RegReadRowsStep, CacheIncludesAny;
  }

  lemma RegisterUnlocksOffchain(c: Cast, s: State)
    requires Registration(c, s, RegUnlockOffchain)
    ensures Registration(c, RegisterStep(s, c.reg, true), RegUnlockCosign)
  {
    hide Stores, RegReadRowsStep, PushStep, CacheIncludesAny, PushAllowed;
    assert c.utxo in s.threads[c.reg].boardIns;
  }

  lemma RegisterUnlocksCosign(c: Cast, s: State)
    requires Registration(c, s, RegUnlockCosign)
    ensures Registration(c, RegisterStep(s, c.reg, true), RegEnd)
  {
    hide Stores, RegReadRowsStep, PushStep, CacheIncludesAny, PushAllowed;
  }

  lemma RegisterEnds(c: Cast, s: State)
    requires Registration(c, s, RegEnd)
    ensures Registration(c, RegisterStep(s, c.reg, true), RegDone)
  {
    hide Stores, RegReadRowsStep, PushStep, CacheIncludesAny, PushAllowed;
  }

  lemma RegisterMoves(c: Cast, s: State, pc: RegisterPc)
    requires Registration(c, s, pc) && pc != RegDone
    ensures Enabled(s, Step(c.reg, true)) && Registration(c, Do(s, Step(c.reg, true)), NextReg(pc))
  {
    assert Do(s, Step(c.reg, true)) == RegisterStep(s, c.reg, true);
    hide RegisterStep, Stores;
    match pc
    case RegReadRows => RegisterClassifies(c, s);
    case RegPush => RegisterPushes(c, s);
    case RegUnlockOffchain => RegisterUnlocksOffchain(c, s);
    case RegUnlockCosign => RegisterUnlocksCosign(c, s);
    case RegEnd => RegisterEnds(c, s);
    case RegBegin | RegLockCosign | RegReadCosigning | RegReadCosigned => RegisterBoards(c, s, pc);
    case _ => RegisterReads(c, s, pc);
  }

  lemma {:induction false} Registers(c: Cast, s0: State, run: seq<Action>, s: State, pc: RegisterPc)
    returns (run': seq<Action>, s': State)
    requires At(s0, run, s) && Registration(c, s, pc)
    ensures At(s0, run', s') && Registration(c, s', RegDone)
    decreases ClaimProgress.Rank(Registering(c, pc))
  {
    hide At, Registration, Do, Enabled;
    if pc == RegDone {
      return run, s;
    }
    RegisterMoves(c, s, pc);
    run' := Take(s0, run, s, Step(c.reg, true), Do(s, Step(c.reg, true)));
    run', s' := Registers(c, s0, run', Do(s, Step(c.reg, true)), NextReg(pc));
  }

  // The cosign reads the cosigned rows and the offchain cache, then waits before it reads the claims.

  function NextCos(pc: CosignPc): CosignPc {
    match pc
    case CosLock => CosAdd
    case CosAdd => CosReadRows
    case CosReadRows => CosLockOffchain
    case CosLockOffchain => CosReadCache
    case _ => CosReadClaims
  }

  predicate BeforeClaims(pc: CosignPc) {
    pc.CosLock? || pc.CosAdd? || pc.CosReadRows? || pc.CosLockOffchain? || pc.CosReadCache?
  }

  ghost predicate Pushed(c: Cast, s: State) {
    && s.round == RoundIdle && c.batch !in s.usedBatches && s.inflight == map[] && s.registering == {}
    && c.reg in s.cache.queue && c.utxo in s.cache.claims && s.cache.claims[c.utxo] == Queued(c.reg)
    && c.reg in s.hist.pushed && s.hist.pushed[c.reg] == {} && s.hist.settled == map[]
  }

  ghost predicate Cosigning(c: Cast, s: State, pc: CosignPc) {
    && Plain(c, s.db, s.cache, s.hist) && c.cos in s.threads && s.threads[c.cos] == Cosign({c.utxo}, pc)
    && c.utxo !in s.db.cosignedRows && (pc.CosLock? || pc.CosAdd? ==> c.utxo !in s.cache.cosigning)
    && (pc.CosLock? ==> s.cosignMu.None?)
    && (BeforeClaims(pc) && !pc.CosReadCache? ==> s.offchainMu.None?)
  }

  lemma CosignMoves(c: Cast, s: State, pc: CosignPc)
    requires Pushed(c, s) && Cosigning(c, s, pc) && BeforeClaims(pc)
    ensures CanAcquire(s, c.cos)
    ensures Pushed(c, CosignStep(s, c.cos, true)) && Cosigning(c, CosignStep(s, c.cos, true), NextCos(pc))
  {
    hide Pushed;
    CosignKeepsPushed(c, s, pc);
  }

  lemma CosignKeepsPushed(c: Cast, s: State, pc: CosignPc)
    requires Pushed(c, s) && Cosigning(c, s, pc) && BeforeClaims(pc) && CanAcquire(s, c.cos)
    ensures Pushed(c, CosignStep(s, c.cos, true))
  {
  }

  lemma {:induction false} StartsCosign(c: Cast, s0: State, run: seq<Action>, s: State, pc: CosignPc)
    returns (run': seq<Action>, s': State)
    requires At(s0, run, s) && Pushed(c, s) && Cosigning(c, s, pc) && (BeforeClaims(pc) || pc == CosReadClaims)
    ensures At(s0, run', s') && Pushed(c, s') && Cosigning(c, s', CosReadClaims)
    decreases ClaimProgress.Rank(Cosign({c.utxo}, pc))
  {
    hide At, Pushed, CosignStep;
    if !BeforeClaims(pc) {
      return run, s;
    }
    CosignMoves(c, s, pc);
    run' := Take(s0, run, s, Step(c.cos, true), CosignStep(s, c.cos, true));
    run', s' := StartsCosign(c, s0, run', CosignStep(s, c.cos, true), NextCos(pc));
  }

  // The batch settles the utxo, is projected and releases its claim.

  ghost predicate Halfway(c: Cast, s: State) {
    && Plain(c, s.db, s.cache, s.hist) && c.cos in s.threads && s.threads[c.cos] == Cosign({c.utxo}, CosReadClaims)
    && s.registering == {} && c.reg in s.hist.pushed && s.hist.pushed[c.reg] == {}
  }

  ghost predicate Settled(c: Cast, s: State) {
    && Halfway(c, s) && s.hist.settled == map[c.reg := c.batch]
    && c.utxo in s.cache.claims && s.cache.claims[c.utxo] == Popped(c.batch, c.reg)
  }

  lemma Settles(c: Cast, s0: State, run: seq<Action>, s: State) returns (run': seq<Action>, s': State)
    requires At(s0, run, s) && Pushed(c, s) && Halfway(c, s)
    ensures At(s0, run', s') && Settled(c, s') && s'.round == RoundEnded(c.batch) && s'.inflight == map[]
  {
    hide At, ThreadStep, BackgroundStep;
    run' := Take(s0, run, s, RoundStart(c.batch), Do(s, RoundStart(c.batch)));
    s' := Do(s, RoundStart(c.batch));
    run' := Take(s0, run', s', RoundPop({c.reg}), Do(s', RoundPop({c.reg})));
    s' := Do(s', RoundPop({c.reg}));
    assert s'.hist == s.hist && s'.db == s.db && s'.threads == s.threads && s'.cache.txs == s.cache.txs;
    EndSettles(c, s');
    run' := Take(s0, run', s', RoundEnd({c.reg}), Do(s', RoundEnd({c.reg})));
    s' := Do(s', RoundEnd({c.reg}));
  }

  lemma EndSettles(c: Cast, s: State)
    requires Halfway(c, s) && s.round == RoundSelected(c.batch, {c.reg}) && s.hist.settled == map[]
    requires c.utxo in s.cache.claims && s.cache.claims[c.utxo] == Popped(c.batch, c.reg) && s.inflight == map[]
    ensures Enabled(s, RoundEnd({c.reg}))
    ensures var s' := Do(s, RoundEnd({c.reg}));
            Settled(c, s') && s'.round == RoundEnded(c.batch) && s'.inflight == map[]
  {
  }

  lemma Saves(c: Cast, s0: State, run: seq<Action>, s: State) returns (run': seq<Action>, s': State)
    requires At(s0, run, s) && Settled(c, s) && s.round == RoundEnded(c.batch) && s.inflight == map[]
    ensures At(s0, run', s') && Settled(c, s') && s'.round == RoundCollecting(c.batch, true, {}) && c.batch in s'.inflight
    ensures c.batch in s'.log.savedBatches
  {
    hide At, ThreadStep, BackgroundStep;
    run' := Take(s0, run, s, RoundTrack, Do(s, RoundTrack));
    s' := Do(s, RoundTrack);
    run' := Take(s0, run', s', RoundSave(true), Do(s', RoundSave(true)));
    s' := Do(s', RoundSave(true));
  }

  lemma Projects(c: Cast, s0: State, run: seq<Action>, s: State) returns (run': seq<Action>, s': State)
    requires At(s0, run, s) && Settled(c, s) && s.round == RoundCollecting(c.batch, true, {}) && c.batch in s.inflight
    requires c.batch in s.log.savedBatches
    ensures At(s0, run', s') && Settled(c, s') && s'.round == RoundCollecting(c.batch, true, {}) && c.batch in s'.inflight
    ensures c.batch in s'.log.boardingLanded
  {
    hide At, ThreadStep, RoundStep;
    assert SettledVtxos(s.hist, c.batch) == {};
    run' := Take(s0, run, s, ProjectRows(c.batch), Do(s, ProjectRows(c.batch)));
    s' := Do(s, ProjectRows(c.batch));
    hide SettledVtxos, SettledBoarding;
    run' := Take(s0, run', s', ProjectBoarding(c.batch), Do(s', ProjectBoarding(c.batch)));
    s' := Do(s', ProjectBoarding(c.batch));
  }

  lemma Marks(c: Cast, s0: State, run: seq<Action>, s: State) returns (run': seq<Action>, s': State)
    requires At(s0, run, s) && Settled(c, s) && s.round == RoundCollecting(c.batch, true, {}) && c.batch in s.inflight
    requires c.batch in s.log.boardingLanded
    ensures At(s0, run', s') && Settled(c, s') && s'.round == RoundCollecting(c.batch, true, {}) && c.batch in s'.inflight && s'.inflight[c.batch]
  {
    hide At, ThreadStep, RoundStep, Settled;
    s' := Do(s, MarkProjected(c.batch));
    SettledStays(c, s, s');
    run' := Take(s0, run, s, MarkProjected(c.batch), s');
  }

  lemma SettledStays(c: Cast, s: State, s': State)
    requires Settled(c, s) && s'.db == s.db && s'.cache == s.cache && s'.hist == s.hist && s'.threads == s.threads
    requires s'.registering == s.registering
    ensures Settled(c, s')
  {
  }

  lemma Wants(c: Cast, s0: State, run: seq<Action>, s: State) returns (run': seq<Action>, s': State)
    requires At(s0, run, s) && Settled(c, s) && s.round == RoundCollecting(c.batch, true, {}) && c.batch in s.inflight && s.inflight[c.batch]
    ensures At(s0, run', s') && Settled(c, s') && s'.round.RoundWanting? && c.batch in s'.round.done
  {
    hide At, ThreadStep, BackgroundStep, Settled;
    s' := s;
    run' := Take(s0, run, s', RoundCollect, Do(s', RoundCollect));
    s' := Do(s', RoundCollect);
    run' := Take(s0, run', s', RoundWant, Do(s', RoundWant));
    s' := Do(s', RoundWant);
    SettledStays(c, s, s');
  }

  lemma Releases(c: Cast, s0: State, run: seq<Action>, s: State) returns (run': seq<Action>, s': State)
    requires At(s0, run, s) && Settled(c, s) && s.round.RoundWanting? && c.batch in s.round.done
    ensures At(s0, run', s') && Halfway(c, s') && s'.hist.settled == map[c.reg := c.batch] && c.utxo !in s'.cache.claims
  {
    hide At, ThreadStep, BackgroundStep;
    run' := Take(s0, run, s, RoundHold, Do(s, RoundHold));
    s' := Do(s, RoundHold);
    run' := Take(s0, run', s', RoundRelease(c.batch, true), Do(s', RoundRelease(c.batch, true)));
    s' := Do(s', RoundRelease(c.batch, true));
  }

  // The cosign finds no claim and passes.

  ghost predicate Released(c: Cast, s: State, pc: CosignPc) {
    && Plain(c, s.db, s.cache, s.hist) && c.cos in s.threads && s.threads[c.cos] == Cosign({c.utxo}, pc)
    && s.hist.settled == map[c.reg := c.batch] && c.utxo !in s.cache.claims
  }

  lemma Reads(c: Cast, s: State, pc: CosignPc)
    requires Released(c, s, pc) && (pc == CosReadClaims || pc == CosReadVtxos)
    ensures Released(c, CosignStep(s, c.cos, true), if pc == CosReadClaims then CosReadVtxos else CosReadCheckpoints)
  {
  }

  lemma Passes(c: Cast, s0: State, run: seq<Action>, s: State) returns (run': seq<Action>, s': State)
    requires At(s0, run, s) && Released(c, s, CosReadClaims)
    ensures At(s0, run', s')
    ensures Holds(s', Intent(c.reg), c.utxo) && Holds(s', OnchainCosign(c.cos), c.utxo)
  {
    hide At, CosignStep;
    Reads(c, s, CosReadClaims);
    run' := Take(s0, run, s, Step(c.cos, true), CosignStep(s, c.cos, true));
    s' := CosignStep(s, c.cos, true);
    Reads(c, s', CosReadVtxos);
    run' := Take(s0, run', s', Step(c.cos, true), CosignStep(s', c.cos, true));
    s' := CosignStep(s', c.cos, true);
    CosignHeld(c, s');
    run' := Take(s0, run', s', Step(c.cos, true), CosignStep(s', c.cos, true));
    s' := CosignStep(s', c.cos, true);
  }

  lemma CosignHeld(c: Cast, s: State)
    requires Released(c, s, CosReadCheckpoints)
    ensures var s' := CosignStep(s, c.cos, true);
            && Holds(s', Intent(c.reg), c.utxo) && Holds(s', OnchainCosign(c.cos), c.utxo)
  {
  }

  /** The utxo is no vtxo and was not cosigned before; the batch is new. */
  ghost predicate Possible(c: Cast, s0: State) {
    c.utxo !in s0.db.tracked && c.utxo !in s0.db.cosignedRows && c.batch !in s0.usedBatches && c.reg != c.cos
  }

  lemma Arrive(c: Cast, s0: State) returns (run: seq<Action>, s: State)
    requires Init(s0) && Possible(c, s0)
    ensures At(s0, run, s) && Registration(c, s, RegBegin)
  {
    hide At, ThreadStep, RoundStep, BackgroundStep;
    var first, second := Spawn(c.reg, Registering(c, RegBegin)), Spawn(c.cos, Cosign({c.utxo}, CosLock));
    assert c.utxo in {c.utxo};
    Nothing(s0);
    s := Do(s0, first);
    run := Take(s0, [], s0, first, s);
    assert Enabled(s, second);
    run := Take(s0, run, s, second, Do(s, second));
    s := Do(s, second);
  }

  /**
   For every boarding utxo, every two requests, every batch and every initial database there is a run in
   which the cosign passes lockUtxos although the batch has settled the utxo.
   */
  lemma BoardingCanOverlap(c: Cast, s0: State) returns (run: seq<Action>)
    requires Init(s0) && Possible(c, s0)
    ensures ValidRun(s0, run)
    ensures Holds(Run(s0, run), Intent(c.reg), c.utxo) && Holds(Run(s0, run), OnchainCosign(c.cos), c.utxo)
    ensures BoardingOverlap(Run(s0, run), Intent(c.reg), OnchainCosign(c.cos), c.utxo)
  {
    hide ValidRun, Run, Registration, Holds, BoardingOverlap, Settled, Init;
    var s;
    run, s := Arrive(c, s0);
    run, s := Registers(c, s0, run, s, RegBegin);
    RegisteredPushed(c, s);
    run, s := StartsCosign(c, s0, run, s, CosLock);
    run, s := Settles(c, s0, run, s);
    run, s := Saves(c, s0, run, s);
    run, s := Projects(c, s0, run, s);
    run, s := Marks(c, s0, run, s);
    run, s := Wants(c, s0, run, s);
    run, s := Releases(c, s0, run, s);
    run, s := Passes(c, s0, run, s);
    ClaimExclusion(s0, run, Intent(c.reg), OnchainCosign(c.cos), c.utxo);
  }

  lemma RegisteredPushed(c: Cast, s: State)
    requires Registration(c, s, RegDone)
    ensures Pushed(c, s) && Cosigning(c, s, CosLock)
  {
  }
}
