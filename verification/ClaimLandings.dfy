/**
 What becomes of requests that got through: spends and cosigns land in the rows and leave the caches, queued
 intents are withdrawn, settled or given back.
 */
module ClaimLandings {
  import opened Outpoints
  import opened ClaimProtocol
  import opened ClaimInvariant
  import opened ClaimRuns
  import opened ClaimOutcomes
  import ClaimOverlap

  /** A saved spend can land: its vtxos are marked spent and its tx leaves the cache. */
  lemma SpendLands(s0: State, before: seq<Action>, t: Tid)
    requires Init(s0) && ValidRun(s0, before) && t in Run(s0, before).log.savedTxs
    ensures var s := Run(s0, before); var run := [ProjectSpend(t), RemoveCached(t)];
            && ValidRun(s, run) && t in s.hist.inputs && t in s.hist.accepted
            && var s' := Run(s, run);
            && s'.db == s.db.(spent := s.db.spent + s.hist.inputs[t])
            && s'.cache == s.cache.(txs := s.cache.txs - {t}) && s'.hist == s.hist && s'.threads == s.threads
  {
    var s := Run(s0, before);
    ReachableInv(s0, before);
    SavedAreKnown(s, t);
    hide Init, Inv, Do, Enabled;
    SpendSteps(s, t);
    TwoSteps(s, ProjectSpend(t), RemoveCached(t));
  }

  lemma SavedAreKnown(s: State, t: Tid)
    requires Inv(s)
    ensures t in s.log.savedTxs ==> t in s.hist.accepted && t in s.hist.inputs
    ensures t in s.log.savedCosigns ==> t in s.hist.cosigned && t in s.hist.inputs
    ensures t in s.cache.queue ==> t in s.hist.inputs
    ensures ClaimsInv(s.hist, s.cache.queue, s.cache.claims, s.usedBatches)
  {
    hide LockInv, ThreadsInv, RowsInv, OffchainHandoff, CosignHandoff, BatchHandoff, LandedInv, InflightInv, RoundInv,
         QueueInv, Exclusive, ClaimsInv;
  }

  lemma SpendSteps(s: State, t: Tid)
    requires t in s.log.savedTxs && t in s.hist.inputs
    ensures Enabled(s, ProjectSpend(t)) && Enabled(Do(s, ProjectSpend(t)), RemoveCached(t))
    ensures var s' := Do(Do(s, ProjectSpend(t)), RemoveCached(t));
            && s'.db == s.db.(spent := s.db.spent + s.hist.inputs[t])
            && s'.cache == s.cache.(txs := s.cache.txs - {t}) && s'.hist == s.hist && s'.threads == s.threads
  {
    hide ThreadStep, RoundStep;
  }

  /** A recorded cosign can land: its inputs get rows and leave the cosign cache. */
  lemma CosignLands(s0: State, before: seq<Action>, t: Tid)
    requires Init(s0) && ValidRun(s0, before) && t in Run(s0, before).log.savedCosigns
    ensures var s := Run(s0, before); var run := [ProjectCosign(t), UnlockUtxos(t)];
            && ValidRun(s, run) && t in s.hist.inputs && t in s.hist.cosigned
            && var s' := Run(s, run);
            && s'.db == s.db.(cosignedRows := s.db.cosignedRows + s.hist.inputs[t])
            && s'.cache == s.cache.(cosigning := s.cache.cosigning - s.hist.inputs[t])
            && s'.hist == s.hist && s'.threads == s.threads
  {
    var s := Run(s0, before);
    ReachableInv(s0, before);
    SavedAreKnown(s, t);
    hide Init, Inv, Do, Enabled;
    CosignSteps(s, t);
    TwoSteps(s, ProjectCosign(t), UnlockUtxos(t));
  }

  lemma CosignSteps(s: State, t: Tid)
    requires t in s.log.savedCosigns && t in s.hist.inputs
    ensures Enabled(s, ProjectCosign(t)) && Enabled(Do(s, ProjectCosign(t)), UnlockUtxos(t))
    ensures var s' := Do(Do(s, ProjectCosign(t)), UnlockUtxos(t));
            && s'.db == s.db.(cosignedRows := s.db.cosignedRows + s.hist.inputs[t])
            && s'.cache == s.cache.(cosigning := s.cache.cosigning - s.hist.inputs[t])
            && s'.hist == s.hist && s'.threads == s.threads
  {
    hide ThreadStep, RoundStep;
  }

  /** A cosign whose broadcast fails gives back what it reserved. */
  lemma CosignReleased(s0: State, before: seq<Action>, t: Tid)
    requires Init(s0) && ValidRun(s0, before)
    requires var s := Run(s0, before); t in s.threads && s.threads[t] == Cosign(s.threads[t].ins, CosBroadcast)
    ensures var s := Run(s0, before); var run := [Step(t, false), Step(t, true)];
            && ValidRun(s, run) && t in s.hist.cosigned && t !in s.log.savedCosigns
            && var s' := Run(s, run);
            && s'.hist == s.hist.(cosigned := s.hist.cosigned - {t})
            && s'.cache == s.cache.(cosigning := s.cache.cosigning - s.threads[t].ins)
            && s'.db == s.db && s'.log == s.log && s'.threads == s.threads[t := Cosign(s.threads[t].ins, CosDone)]
  {
    var s := Run(s0, before);
    ReachableInv(s0, before);
    BroadcastingCosign(s, t);
    hide Init, Inv, Do, Enabled;
    ReleaseSteps(s, t);
    TwoSteps(s, Step(t, false), Step(t, true));
  }

  lemma BroadcastingCosign(s: State, t: Tid)
    requires Inv(s) && t in s.threads && s.threads[t] == Cosign(s.threads[t].ins, CosBroadcast)
    ensures t in s.hist.cosigned && t !in s.log.savedCosigns
  {
    hide LockInv, DataInv, Knows;
    assert Progress(s.hist, s.log, t, s.threads[t]);
  }

  lemma ReleaseSteps(s: State, t: Tid)
    requires t in s.threads && s.threads[t] == Cosign(s.threads[t].ins, CosBroadcast)
    ensures Enabled(s, Step(t, false)) && Enabled(Do(s, Step(t, false)), Step(t, true))
    ensures var s' := Do(Do(s, Step(t, false)), Step(t, true));
            && s'.hist == s.hist.(cosigned := s.hist.cosigned - {t})
            && s'.cache == s.cache.(cosigning := s.cache.cosigning - s.threads[t].ins)
            && s'.db == s.db && s'.log == s.log && s'.threads == s.threads[t := Cosign(s.threads[t].ins, CosDone)]
  {
    hide SubmitStep, RegisterStep, RoundStep, BackgroundStep, CacheIncludesAny;
    var s1 := Do(s, Step(t, false));
    assert s1.threads[t] == Cosign(s.threads[t].ins, CosRelease);
  }

  /** A queued intent can be deleted; its inputs, and no others, are free again. */
  lemma IntentWithdrawn(s0: State, before: seq<Action>, t: Tid)
    requires Init(s0) && ValidRun(s0, before) && t in Run(s0, before).cache.queue
    ensures var s := Run(s0, before); var run := [DeleteIntent(t)];
            && ValidRun(s, run) && t in s.hist.inputs
            && var s' := Run(s, run);
            && s'.cache.queue == s.cache.queue - {t}
            && s'.cache.claims.Keys == s.cache.claims.Keys - s.hist.inputs[t]
            && (forall op :: op in s'.cache.claims ==> s'.cache.claims[op] == s.cache.claims[op])
            && (forall op :: op in s.hist.inputs[t] ==> op in s.cache.claims && s.cache.claims[op] == Queued(t))
            && s'.cache.txs == s.cache.txs && s'.cache.cosigning == s.cache.cosigning
            && s'.db == s.db && s'.hist == s.hist && s'.threads == s.threads
  {
    var s := Run(s0, before);
    ReachableInv(s0, before);
    SavedAreKnown(s, t);
    hide Init, Inv, Do, Enabled, ClaimsInv;
    DeleteStep(s, t);
    OneStep(s, DeleteIntent(t));
  }

  lemma DeleteStep(s: State, t: Tid)
    requires t in s.cache.queue && t in s.hist.inputs
    requires ClaimsInv(s.hist, s.cache.queue, s.cache.claims, s.usedBatches)
    ensures Enabled(s, DeleteIntent(t))
    ensures var s' := Do(s, DeleteIntent(t));
            && s'.cache.queue == s.cache.queue - {t}
            && s'.cache.claims.Keys == s.cache.claims.Keys - s.hist.inputs[t]
            && (forall op :: op in s'.cache.claims ==> s'.cache.claims[op] == s.cache.claims[op])
            && (forall op :: op in s.hist.inputs[t] ==> op in s.cache.claims && s.cache.claims[op] == Queued(t))
            && s'.cache.txs == s.cache.txs && s'.cache.cosigning == s.cache.cosigning
            && s'.db == s.db && s'.hist == s.hist && s'.threads == s.threads
  {
    hide ThreadStep, RoundStep;
  }

  // Batches.

  /** The claims that are left when the intents have given up theirs. */
  function ClaimsWithout(claims: Claims, intents: set<Tid>): Claims {
    map op | op in claims && claims[op].intent !in intents :: claims[op]
  }

  lemma ReleaseLeaves(s: State, b: BatchId, intents: set<Tid>)
    requires ClaimsInv(s.hist, s.cache.queue, s.cache.claims, s.usedBatches)
    requires b !in s.usedBatches && intents <= s.cache.queue
    ensures ReleaseClaims(PopClaims(s.cache.claims, b, intents), b) == ClaimsWithout(s.cache.claims, intents)
  {
    var left, right := ReleaseClaims(PopClaims(s.cache.claims, b, intents), b), ClaimsWithout(s.cache.claims, intents);
    forall op | op in s.cache.claims ensures (op in left <==> op in right) && (op in left ==> left[op] == right[op]) {
    }
    assert left.Keys == right.Keys;
  }

  /** The batch has popped its intents; settled tells whether it has ended. */
  ghost predicate Popped(s: State, s': State, b: BatchId, intents: set<Tid>, settled: bool) {
    && s'.cache == s.cache.(queue := s.cache.queue - intents, claims := PopClaims(s.cache.claims, b, intents))
    && s'.hist == (if settled then s.hist.(settled := s.hist.settled + map i | i in intents :: b) else s.hist)
    && s'.threads == s.threads && s'.registering == s.registering
  }

  lemma Pops(s: State, b: BatchId, intents: set<Tid>) returns (run: seq<Action>, s': State)
    requires s.round.RoundIdle? && b !in s.usedBatches && intents <= s.cache.queue
    ensures ClaimOverlap.At(s, run, s') && Popped(s, s', b, intents, false) && s'.round == RoundSelected(b, intents)
    ensures s'.db == s.db && s'.log == s.log && s'.inflight == s.inflight
  {
    hide ClaimOverlap.At, ThreadStep, BackgroundStep, PopClaims;
    ClaimOverlap.Nothing(s);
    s' := Do(s, RoundStart(b));
    run := ClaimOverlap.Take(s, [], s, RoundStart(b), s');
    run := ClaimOverlap.Take(s, run, s', RoundPop(intents), Do(s', RoundPop(intents)));
    s' := Do(s', RoundPop(intents));
  }

  lemma Ends(s0: State, s: State, run: seq<Action>, s1: State, b: BatchId, intents: set<Tid>)
    returns (run': seq<Action>, s': State)
    requires ClaimOverlap.At(s0, run, s1) && Popped(s, s1, b, intents, false) && s1.round == RoundSelected(b, intents)
    ensures ClaimOverlap.At(s0, run', s') && Popped(s, s', b, intents, true) && s'.round == RoundCollecting(b, true, {})
    ensures s'.db == s1.db && b in s'.log.savedBatches && b in s'.inflight
  {
    hide ClaimOverlap.At, ThreadStep, BackgroundStep, PopClaims;
    s' := Do(s1, RoundEnd(intents));
    run' := ClaimOverlap.Take(s0, run, s1, RoundEnd(intents), s');
    run' := ClaimOverlap.Take(s0, run', s', RoundTrack, Do(s', RoundTrack));
    s' := Do(s', RoundTrack);
    run' := ClaimOverlap.Take(s0, run', s', RoundSave(true), Do(s', RoundSave(true)));
    s' := Do(s', RoundSave(true));
  }

  lemma Projects(s0: State, s: State, run: seq<Action>, s1: State, b: BatchId, intents: set<Tid>)
    returns (run': seq<Action>, s': State)
    requires ClaimOverlap.At(s0, run, s1) && Popped(s, s1, b, intents, true) && s1.round == RoundCollecting(b, true, {})
    requires b in s1.log.savedBatches && b in s1.inflight
    ensures ClaimOverlap.At(s0, run', s') && Popped(s, s', b, intents, true) && s'.round == RoundCollecting(b, true, {})
    ensures b in s'.inflight && s'.inflight[b]
    ensures s'.db == s1.db.(spent := s1.db.spent + SettledVtxos(s1.hist, b),
                            cosignedRows := s1.db.cosignedRows + SettledBoarding(s1.hist, b))
  {
    hide ClaimOverlap.At, ThreadStep, RoundStep, Popped, SettledVtxos, SettledBoarding;
    s' := Do(s1, ProjectRows(b));
    run' := ClaimOverlap.Take(s0, run, s1, ProjectRows(b), s');
    run' := ClaimOverlap.Take(s0, run', s', ProjectBoarding(b), Do(s', ProjectBoarding(b)));
    s' := Do(s', ProjectBoarding(b));
    run', s' := Marks(s0, run', s', b);
    PoppedStays(s, s1, s', b, intents);
  }

  lemma Marks(s0: State, run: seq<Action>, s: State, b: BatchId) returns (run': seq<Action>, s': State)
    requires ClaimOverlap.At(s0, run, s) && b in s.log.boardingLanded && b in s.inflight
    ensures ClaimOverlap.At(s0, run', s') && s' == s.(inflight := s.inflight[b := true])
  {
    hide ClaimOverlap.At, ThreadStep, RoundStep;
    s' := Do(s, MarkProjected(b));
    run' := ClaimOverlap.Take(s0, run, s, MarkProjected(b), s');
  }

  lemma PoppedStays(s: State, s1: State, s': State, b: BatchId, intents: set<Tid>)
    requires Popped(s, s1, b, intents, true)
    requires s'.cache == s1.cache && s'.hist == s1.hist && s'.threads == s1.threads && s'.registering == s1.registering
    ensures Popped(s, s', b, intents, true)
  {
  }

  /** The round loop collects what is projected, waits for registrations and releases the batch. */
  lemma Releases(s0: State, run: seq<Action>, s: State, b: BatchId) returns (run': seq<Action>, s': State)
    requires ClaimOverlap.At(s0, run, s) && s.round.RoundCollecting? && s.registering == {}
    requires if s.round.ended then b in s.inflight && s.inflight[b] else s.round.batch == b
    ensures ClaimOverlap.At(s0, run', s') && s'.db == s.db && s'.hist == s.hist && s'.threads == s.threads
    ensures s'.cache == s.cache.(claims := ReleaseClaims(s.cache.claims, b))
  {
    hide ClaimOverlap.At, ThreadStep, BackgroundStep, ReleaseClaims;
    s' := Do(s, RoundCollect);
    run' := ClaimOverlap.Take(s0, run, s, RoundCollect, s');
    run', s' := Holds(s0, run', s', b);
    run' := ClaimOverlap.Take(s0, run', s', RoundRelease(b, true), Do(s', RoundRelease(b, true)));
    s' := Do(s', RoundRelease(b, true));
  }

  lemma Holds(s0: State, run: seq<Action>, s: State, b: BatchId) returns (run': seq<Action>, s': State)
    requires ClaimOverlap.At(s0, run, s) && s.round.RoundCollecting? && s.registering == {}
    requires b in s.round.done || (!s.round.ended && s.round.batch == b)
    ensures ClaimOverlap.At(s0, run', s') && s'.db == s.db && s'.hist == s.hist && s'.threads == s.threads
    ensures s'.cache == s.cache && s'.round.RoundReleasing? && b in s'.round.todo
  {
    hide ClaimOverlap.At, ThreadStep, BackgroundStep, ReleaseClaims;
    s' := Do(s, RoundWant);
    run' := ClaimOverlap.Take(s0, run, s, RoundWant, s');
    run' := ClaimOverlap.Take(s0, run', s', RoundHold, Do(s', RoundHold));
    s' := Do(s', RoundHold);
  }

  lemma SettledByBatch(h: Hist, b: BatchId, intents: set<Tid>)
    requires NothingSettled(h, b) && intents !! h.settled.Keys
    ensures var h' := h.(settled := h.settled + map i | i in intents :: b);
            && SettledVtxos(h', b) == (set i, op | i in intents && op in VtxoIns(h.pushed, i) :: op)
            && SettledBoarding(h', b) == (set i, op | i in intents && op in Ins(h.inputs, i) - VtxoIns(h.pushed, i) :: op)
  {
    var h' := h.(settled := h.settled + map i | i in intents :: b);
    forall i ensures i in h'.settled && h'.settled[i] == b <==> i in intents {
    }
  }

  /**
   Any queued intents can be settled by a new batch: their vtxos end up spent, their boarding inputs in the
   rows, and their claims are released, while all other claims stay.
   */
  lemma BatchSettles(s0: State, before: seq<Action>, b: BatchId, intents: set<Tid>) returns (run: seq<Action>)
    requires Init(s0) && ValidRun(s0, before)
    requires var s := Run(s0, before);
             s.round.RoundIdle? && b !in s.usedBatches && intents <= s.cache.queue && s.registering == {}
    ensures ValidRun(Run(s0, before), run)
    ensures var s := Run(s0, before); var s' := Run(s, run);
            && s'.hist == s.hist.(settled := s.hist.settled + map i | i in intents :: b)
            && s'.db == s.db.(spent := s.db.spent + (set i, op | i in intents && op in VtxoIns(s.hist.pushed, i) :: op),
                              cosignedRows := s.db.cosignedRows
                                + (set i, op | i in intents && op in Ins(s.hist.inputs, i) - VtxoIns(s.hist.pushed, i) :: op))
            && s'.cache.queue == s.cache.queue - intents
            && s'.cache.claims == (map op | op in s.cache.claims && s.cache.claims[op].intent !in intents :: s.cache.claims[op])
            && s'.cache.txs == s.cache.txs && s'.cache.cosigning == s.cache.cosigning && s'.threads == s.threads
  {
    var s := Run(s0, before);
    ReachableInv(s0, before);
    BatchIsNew(s, b, intents);
    ReleaseLeaves(s, b, intents);
    SettledByBatch(s.hist, b, intents);
    hide Init, Inv, PopClaims, ReleaseClaims, SettledVtxos, SettledBoarding;
    var s';
    run, s' := Pops(s, b, intents);
    run, s' := Ends(s, s, run, s', b, intents);
    run, s' := Projects(s, s, run, s', b, intents);
    run, s' := Releases(s, run, s', b);
  }

  lemma BatchIsNew(s: State, b: BatchId, intents: set<Tid>)
    requires Inv(s) && b !in s.usedBatches && intents <= s.cache.queue
    ensures NothingSettled(s.hist, b) && intents !! s.hist.settled.Keys
    ensures ClaimsInv(s.hist, s.cache.queue, s.cache.claims, s.usedBatches)
  {
    hide LockInv, ThreadsInv, RowsInv, OffchainHandoff, CosignHandoff, BatchHandoff, LandedInv, InflightInv, RoundInv,
         QueueInv, Exclusive, ClaimsInv;
  }

  /** A batch that does not end gives the inputs of its intents back; nothing is settled. */
  lemma BatchAborts(s0: State, before: seq<Action>, b: BatchId, intents: set<Tid>) returns (run: seq<Action>)
    requires Init(s0) && ValidRun(s0, before)
    requires var s := Run(s0, before);
             s.round.RoundIdle? && b !in s.usedBatches && intents <= s.cache.queue && s.registering == {}
    ensures ValidRun(Run(s0, before), run)
    ensures var s := Run(s0, before); var s' := Run(s, run);
            && s'.hist == s.hist && s'.db == s.db && s'.cache.queue == s.cache.queue - intents
            && s'.cache.claims == (map op | op in s.cache.claims && s.cache.claims[op].intent !in intents :: s.cache.claims[op])
            && s'.cache.txs == s.cache.txs && s'.cache.cosigning == s.cache.cosigning && s'.threads == s.threads
  {
    var s := Run(s0, before);
    ReachableInv(s0, before);
    BatchIsNew(s, b, intents);
    ReleaseLeaves(s, b, intents);
    hide Init, Inv, PopClaims, ReleaseClaims, ClaimOverlap.At, ThreadStep, BackgroundStep;
    var s1;
    run, s1 := Pops(s, b, intents);
    var s' := Do(s1, RoundAbort);
    run := ClaimOverlap.Take(s, run, s1, RoundAbort, s');
    run, s' := Releases(s, run, s', b);
    assert ValidRun(s, run) && Run(s, run) == s' by { AtMeans(s, run, s'); }
  }

  lemma AtMeans(s0: State, run: seq<Action>, s: State)
    requires ClaimOverlap.At(s0, run, s)
    ensures ValidRun(s0, run) && Run(s0, run) == s
  {
  }
}
