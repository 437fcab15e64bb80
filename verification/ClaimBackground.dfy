/** Projections, update handlers, chain notifications and the round loop keep the invariant. */
module ClaimBackground {
  import opened Outpoints
  import opened ClaimProtocol
  import opened ClaimInvariant
  import opened ClaimSteps

  ghost predicate AllStable(s: State, s': State) {
    && s'.threads == s.threads && s'.hist.inputs == s.hist.inputs
    && (forall u :: u in s.threads ==> Rely(s, s', s.threads[u]) && Untouched(s, s', u))
  }

  lemma ComposeBackground(s: State, s': State)
    requires Inv(s) && LockInv(s') && DataInv(s') && AllStable(s, s')
    ensures Inv(s')
  {
    hide LockInv, DataInv, Rely, Untouched, Knows, Progress;
    forall u | u in s'.threads
      ensures Knows(s'.db, s'.cache, s'.hist, s'.threads[u]) && Progress(s'.hist, s'.log, u, s'.threads[u])
    {
      KeepsKnowledge(s, s', u);
    }
  }

  lemma SameLocks(s: State, s': State)
    requires LockInv(s) && s'.threads == s.threads && s'.offchainMu == s.offchainMu
    requires s'.cosignMu == s.cosignMu && s'.registering == s.registering
    requires s'.round.RoundReleasing? ==> s.round.RoundReleasing? || s.registering == {}
    ensures LockInv(s')
  {
    hide HoldsOffchain, HoldsCosign, HoldsRegistration;
  }

  // Database rows only grow.

  ghost predicate RowsGrow(s: State, s': State) {
    && s' == s.(db := s'.db, log := s'.log)
    && s.db.tracked <= s'.db.tracked && s.db.spent <= s'.db.spent && s.db.unrolled <= s'.db.unrolled
    && s.db.cosignedRows <= s'.db.cosignedRows
    && s'.log.savedTxs == s.log.savedTxs && s'.log.savedCosigns == s.log.savedCosigns
    && s'.log.savedBatches == s.log.savedBatches
    && s.log.spentLanded <= s'.log.spentLanded <= s.log.savedTxs
    && s.log.cosignLanded <= s'.log.cosignLanded <= s.log.savedCosigns
    && s.log.rowsLanded <= s'.log.rowsLanded <= s.log.savedBatches
    && s.log.boardingLanded <= s'.log.boardingLanded <= s'.log.rowsLanded
    && (forall op :: op in s'.db.tracked && op !in s.db.tracked ==> !Relied(s, op))
    && LandedInv(s.hist, s'.db, s'.log)
  }

  lemma RowsGrowExclusive(s: State, tracked: set<Outpoint>)
    requires Exclusive(s.hist, s.cache.claims, s.db.tracked)
    requires forall op :: op in tracked && op !in s.db.tracked ==> !Relied(s, op)
    ensures Exclusive(s.hist, s.cache.claims, tracked)
  {
  }

  lemma RowsGrowData(s: State, s': State)
    requires DataInv(s) && RowsGrow(s, s')
    ensures DataInv(s')
  {
    hide Exclusive, LandedInv, ClaimsInv, QueueInv;
    RowsGrowExclusive(s, s'.db.tracked);
  }

  lemma RowsGrowStable(s: State, s': State)
    requires RowsGrow(s, s')
    ensures AllStable(s, s')
  {
    hide LandedInv;
  }

  lemma RowsGrowInv(s: State, s': State)
    requires Inv(s) && RowsGrow(s, s')
    ensures Inv(s')
  {
    hide LockInv, DataInv, ThreadsInv, AllStable, LandedInv;
    SameLocks(s, s');
    RowsGrowData(s, s');
    RowsGrowStable(s, s');
    ComposeBackground(s, s');
  }

  predicate GrowsRows(a: Action) {
    a.TrackVtxos? || a.UnrollVtxos? || a.ProjectSpend? || a.ProjectCosign? || a.ProjectRows? || a.ProjectBoarding?
  }

  lemma ProjectionGrows(s: State, a: Action)
    requires GrowsRows(a) && Enabled(s, a) && LandedInv(s.hist, s.db, s.log)
    requires LogScoped(s.hist, s.log, s.usedBatches) && RowsInv(s.hist, s.cache.claims, s.db.tracked, s.db.unrolled)
    ensures RowsGrow(s, BackgroundStep(s, a))
  {
    var s' := BackgroundStep(s, a);
    match a
    case ProjectRows(b) =>
      forall i | i in s.hist.settled && s.hist.settled[i] == b ensures VtxoIns(s.hist.pushed, i) <= s'.db.spent {
      }
    case ProjectBoarding(b) =>
      forall i | i in s.hist.settled && s.hist.settled[i] == b
        ensures Ins(s.hist.inputs, i) - VtxoIns(s.hist.pushed, i) <= s'.db.cosignedRows
      {
      }
    case _ =>
  }

  lemma ProjectionInv(s: State, a: Action)
    requires Inv(s) && GrowsRows(a) && Enabled(s, a)
    ensures Inv(BackgroundStep(s, a))
  {
    hide LockInv, ThreadsInv, RowsGrow, LandedInv, LogScoped, RowsInv, Exclusive, RoundInv, ClaimsInv,
         BatchHandoff, OffchainHandoff, CosignHandoff, Scoped, BackgroundStep;
    ProjectionGrows(s, a);
    RowsGrowInv(s, BackgroundStep(s, a));
  }

  // Cache removals.

  lemma RemoveCachedInv(s: State, t: Tid)
    requires Inv(s) && Enabled(s, RemoveCached(t))
    ensures Inv(BackgroundStep(s, RemoveCached(t)))
  {
    hide LockInv, ThreadsInv, AllStable, Exclusive, RoundInv, ClaimsInv, BatchHandoff, CosignHandoff,
         InflightInv, QueueInv, LogScoped, RowsInv;
    var s' := BackgroundStep(s, RemoveCached(t));
    SameLocks(s, s');
    RemoveCachedStable(s, t);
    ComposeBackground(s, s');
  }

  lemma RemoveCachedStable(s: State, t: Tid)
    requires Enabled(s, RemoveCached(t))
    ensures AllStable(s, BackgroundStep(s, RemoveCached(t)))
  {
  }

  lemma UnlockUtxosStable(s: State, t: Tid)
    requires LandedInv(s.hist, s.db, s.log)
    requires LogScoped(s.hist, s.log, s.usedBatches) && Enabled(s, UnlockUtxos(t))
    ensures AllStable(s, BackgroundStep(s, UnlockUtxos(t)))
  {
    hide Rely;
    var s' := BackgroundStep(s, UnlockUtxos(t));
    forall u | u in s.threads ensures Rely(s, s', s.threads[u]) {
      UnlockUtxosRely(s, s', s.threads[u], t);
    }
  }

  lemma UnlockUtxosRely(s: State, s': State, th: Thread, t: Tid)
    requires t in s.hist.cosigned
    requires Ins(s.hist.inputs, t) <= s.db.cosignedRows
    requires s'.db == s.db && s'.hist == s.hist
    requires s'.cache == s.cache.(cosigning := s.cache.cosigning - Ins(s.hist.inputs, t))
    ensures Rely(s, s', th)
  {
  }

  lemma UnlockUtxosInv(s: State, t: Tid)
    requires Inv(s) && Enabled(s, UnlockUtxos(t))
    ensures Inv(BackgroundStep(s, UnlockUtxos(t)))
  {
    hide LockInv, ThreadsInv, AllStable, Exclusive, RoundInv, ClaimsInv, BatchHandoff, OffchainHandoff,
         InflightInv, QueueInv, LogScoped, RowsInv;
    var s' := BackgroundStep(s, UnlockUtxos(t));
    SameLocks(s, s');
    UnlockUtxosStable(s, t);
    ComposeBackground(s, s');
  }

  lemma MarkProjectedInv(s: State, b: BatchId)
    requires Inv(s) && Enabled(s, MarkProjected(b))
    ensures Inv(BackgroundStep(s, MarkProjected(b)))
  {
    hide LockInv, ThreadsInv, AllStable, Exclusive, RoundInv, ClaimsInv, BatchHandoff, OffchainHandoff,
         CosignHandoff, QueueInv, LogScoped, RowsInv, Scoped, LandedInv;
    var s' := BackgroundStep(s, MarkProjected(b));
    SameLocks(s, s');
    LoopStable(s, s');
    ComposeBackground(s, s');
  }

  lemma LoopStable(s: State, s': State)
    requires s'.threads == s.threads && s'.db == s.db && s'.cache == s.cache && s'.hist == s.hist
    requires s'.log.savedTxs == s.log.savedTxs && s'.log.savedCosigns == s.log.savedCosigns
    ensures AllStable(s, s')
  {
    hide Rely;
    forall u | u in s.threads ensures Rely(s, s', s.threads[u]) {
      LogRely(s, s', s.threads[u]);
    }
  }

  // Deleting a queued intent.

  ghost predicate Fewer(claims: Claims, claims': Claims) {
    forall op :: op in claims' ==> op in claims && claims'[op] == claims[op]
  }

  lemma FewerRows(h: Hist, claims: Claims, claims': Claims, tracked: set<Outpoint>, unrolled: set<Outpoint>)
    requires RowsInv(h, claims, tracked, unrolled) && Fewer(claims, claims')
    ensures RowsInv(h, claims', tracked, unrolled)
  {
  }

  lemma FewerExclusive(h: Hist, claims: Claims, claims': Claims, tracked: set<Outpoint>)
    requires Exclusive(h, claims, tracked) && Fewer(claims, claims')
    ensures Exclusive(h, claims', tracked)
  {
  }

  ghost predicate KeepsPopped(claims: Claims, claims': Claims) {
    forall op :: op in claims && claims[op].Popped? ==> op in claims' && claims'[op] == claims[op]
  }

  lemma KeepsPoppedFrame(s: State, claims': Claims)
    requires BatchHandoff(s.hist, s.cache.claims, s.db.spent, s.db.cosignedRows)
    requires RoundInv(s.hist, s.cache.claims, s.log, s.usedBatches, s.round) && KeepsPopped(s.cache.claims, claims')
    ensures BatchHandoff(s.hist, claims', s.db.spent, s.db.cosignedRows)
    ensures RoundInv(s.hist, claims', s.log, s.usedBatches, s.round)
  {
  }

  lemma DeleteClaims(h: Hist, queue: set<Tid>, claims: Claims, used: set<BatchId>, t: Tid)
    requires ClaimsInv(h, queue, claims, used) && t in queue
    ensures ClaimsInv(h, queue - {t}, claims - Ins(h.inputs, t), used)
    ensures Fewer(claims, claims - Ins(h.inputs, t)) && KeepsPopped(claims, claims - Ins(h.inputs, t))
  {
    forall i, op | i in queue - {t} && op in Ins(h.inputs, i) ensures op !in Ins(h.inputs, t) {
      assert claims[op] == Queued(i);
    }
  }

  lemma DeleteData(s: State, t: Tid)
    requires DataInv(s) && t in s.cache.queue
    ensures DataInv(BackgroundStep(s, DeleteIntent(t)))
  {
    hide LandedInv, OffchainHandoff, CosignHandoff, LogScoped, RowsInv, InflightInv, Exclusive, BatchHandoff,
         ClaimsInv, RoundInv, Fewer, KeepsPopped;
    var claims' := s.cache.claims - Ins(s.hist.inputs, t);
    DeleteClaims(s.hist, s.cache.queue, s.cache.claims, s.usedBatches, t);
    FewerExclusive(s.hist, s.cache.claims, claims', s.db.tracked);
    FewerRows(s.hist, s.cache.claims, claims', s.db.tracked, s.db.unrolled);
    KeepsPoppedFrame(s, claims');
  }

  lemma DeleteStable(s: State, t: Tid)
    requires DataInv(s) && t in s.cache.queue
    ensures AllStable(s, BackgroundStep(s, DeleteIntent(t)))
  {
    hide LandedInv, OffchainHandoff, CosignHandoff, BatchHandoff, LogScoped, InflightInv, Rely, RoundInv, Exclusive,
         RowsInv, Scoped, ClaimsInv, QueueInv, KeepsSettledClaims;
    var s' := BackgroundStep(s, DeleteIntent(t));
    DeleteKeepsSettled(s.hist, s.cache, s.usedBatches, s.db.tracked, t);
    forall u | u in s.threads ensures Rely(s, s', s.threads[u]) {
      FewerClaimsRely(s, s', s.threads[u]);
    }
  }

  lemma DeleteKeepsSettled(h: Hist, cache: Cache, used: set<BatchId>, tracked: set<Outpoint>, t: Tid)
    requires ClaimsInv(h, cache.queue, cache.claims, used) && Exclusive(h, cache.claims, tracked)
    requires Scoped(h, cache) && t in cache.queue
    ensures KeepsSettledClaims(h, cache.claims, cache.claims - Ins(h.inputs, t))
  {
  }

  lemma FewerClaimsRely(s: State, s': State, th: Thread)
    requires s'.db == s.db && s'.hist == s.hist
    requires s'.cache == s.cache.(queue := s'.cache.queue, claims := s'.cache.claims)
    requires s'.cache.claims.Keys <= s.cache.claims.Keys
    requires HoldsRegistration(th) ==> KeepsSettledClaims(s.hist, s.cache.claims, s'.cache.claims)
    ensures Rely(s, s', th)
  {
    hide KeepsSettledClaims;
  }

  lemma DeleteInv(s: State, t: Tid)
    requires Inv(s) && Enabled(s, DeleteIntent(t))
    ensures Inv(BackgroundStep(s, DeleteIntent(t)))
  {
    hide LockInv, ThreadsInv, AllStable, DataInv;
    var s' := BackgroundStep(s, DeleteIntent(t));
    SameLocks(s, s');
    DeleteData(s, t);
    DeleteStable(s, t);
    ComposeBackground(s, s');
  }

  lemma BackgroundInv(s: State, a: Action)
    requires Inv(s) && Enabled(s, a) && !RoundAction(a) && !a.Spawn? && !a.Step? && !a.SaveOneShot?
    ensures Inv(BackgroundStep(s, a))
  {
    hide Inv, BackgroundStep;
    match a
    case RemoveCached(t) => RemoveCachedInv(s, t);
    case UnlockUtxos(t) => UnlockUtxosInv(s, t);
    case MarkProjected(b) => MarkProjectedInv(s, b);
    case DeleteIntent(t) => DeleteInv(s, t);
    case _ => ProjectionInv(s, a);
  }

  // The round loop.

  lemma PopClaimsInv(h: Hist, queue: set<Tid>, claims: Claims, used: set<BatchId>, b: BatchId, intents: set<Tid>)
    requires ClaimsInv(h, queue, claims, used) && intents <= queue && b in used
    ensures ClaimsInv(h, queue - intents, PopClaims(claims, b, intents), used)
    ensures forall i, op :: i in intents && op in Ins(h.inputs, i) ==>
              op in PopClaims(claims, b, intents) && PopClaims(claims, b, intents)[op] == Popped(b, i)
  {
  }

  lemma PopExclusive(h: Hist, claims: Claims, tracked: set<Outpoint>, b: BatchId, intents: set<Tid>)
    requires Exclusive(h, claims, tracked)
    ensures Exclusive(h, PopClaims(claims, b, intents), tracked)
  {
  }

  lemma PopRows(h: Hist, claims: Claims, tracked: set<Outpoint>, unrolled: set<Outpoint>, b: BatchId, intents: set<Tid>)
    requires RowsInv(h, claims, tracked, unrolled)
    ensures RowsInv(h, PopClaims(claims, b, intents), tracked, unrolled)
  {
  }

  lemma PopHandoff(h: Hist, claims: Claims, db: Db, b: BatchId, intents: set<Tid>)
    requires BatchHandoff(h, claims, db.spent, db.cosignedRows)
    ensures BatchHandoff(h, PopClaims(claims, b, intents), db.spent, db.cosignedRows)
  {
  }

  lemma PopData(s: State, intents: set<Tid>)
    requires DataInv(s) && Enabled(s, RoundPop(intents))
    ensures DataInv(RoundStep(s, RoundPop(intents)))
  {
    hide LandedInv, OffchainHandoff, CosignHandoff, LogScoped, RowsInv, InflightInv, Exclusive, ClaimsInv, BatchHandoff;
    PopHandoff(s.hist, s.cache.claims, s.db, s.round.batch, intents);
    PopClaimsInv(s.hist, s.cache.queue, s.cache.claims, s.usedBatches, s.round.batch, intents);
    PopExclusive(s.hist, s.cache.claims, s.db.tracked, s.round.batch, intents);
    PopRows(s.hist, s.cache.claims, s.db.tracked, s.db.unrolled, s.round.batch, intents);
  }

  lemma PopStable(s: State, intents: set<Tid>)
    requires Enabled(s, RoundPop(intents))
    ensures AllStable(s, RoundStep(s, RoundPop(intents)))
  {
    hide Rely;
    var s' := RoundStep(s, RoundPop(intents));
    assert s'.cache.claims.Keys == s.cache.claims.Keys;
    assert KeepsSettledClaims(s.hist, s.cache.claims, s'.cache.claims);
    forall u | u in s.threads ensures Rely(s, s', s.threads[u]) {
      FewerClaimsRely(s, s', s.threads[u]);
    }
  }

  lemma PopInv(s: State, intents: set<Tid>)
    requires Inv(s) && Enabled(s, RoundPop(intents))
    ensures Inv(RoundStep(s, RoundPop(intents)))
  {
    hide LockInv, ThreadsInv, AllStable, LandedInv, OffchainHandoff, CosignHandoff, LogScoped, InflightInv,
         Exclusive, ClaimsInv, BatchHandoff, RoundInv, Scoped, RowsInv;
    var s' := RoundStep(s, RoundPop(intents));
    SameLocks(s, s');
    PopData(s, intents);
    PopStable(s, intents);
    ComposeBackground(s, s');
  }

  // A batch ends: its intents become settled while their inputs are still claimed.

  function Settle(h: Hist, b: BatchId, intents: set<Tid>): Hist {
    h.(settled := h.settled + map i | i in intents :: b)
  }

  ghost predicate AllPopped(h: Hist, claims: Claims, b: BatchId, intents: set<Tid>) {
    forall i, op :: i in intents && op in Ins(h.inputs, i) ==> op in claims && claims[op] == Popped(b, i)
  }

  /** What the claim on its inputs says about an intent that a batch is about to settle. */
  lemma PoppedExclusive(h: Hist, claims: Claims, tracked: set<Outpoint>, b: BatchId, i: Tid, op: Outpoint)
    requires Exclusive(h, claims, tracked) && op in claims && claims[op] == Popped(b, i)
    ensures forall u :: u in h.accepted || u in h.cosigned ==> op !in Ins(h.inputs, u)
    ensures forall j :: j in h.settled && op in Ins(h.inputs, j) ==> j == i
  {
  }

  lemma SettleExclusive(h: Hist, claims: Claims, tracked: set<Outpoint>, b: BatchId, intents: set<Tid>)
    requires Exclusive(h, claims, tracked) && AllPopped(h, claims, b, intents) && intents !! h.settled.Keys
    ensures Exclusive(Settle(h, b, intents), claims, tracked)
  {
    var h' := Settle(h, b, intents);
    SettledApart(h, claims, tracked, b, intents);
    SettledOnce(h, claims, tracked, b, intents);
    assert h'.accepted == h.accepted && h'.cosigned == h.cosigned && h'.inputs == h.inputs;
    assert h'.settled.Keys == h.settled.Keys + intents;
    hide AllPopped, Settle;
  }

  lemma SettledApart(h: Hist, claims: Claims, tracked: set<Outpoint>, b: BatchId, intents: set<Tid>)
    requires Exclusive(h, claims, tracked) && AllPopped(h, claims, b, intents)
    ensures forall i, u, op :: (i in h.settled || i in intents) && u in h.accepted && op in Ins(h.inputs, u) ==>
              op !in Ins(h.inputs, i)
    ensures forall i, v, op ::
              (i in h.settled || i in intents) && v in h.cosigned && op in Ins(h.inputs, i) && op in Ins(h.inputs, v)
              ==> op !in tracked
  {
    hide Exclusive;
    forall i, op | i in intents && op in Ins(h.inputs, i)
      ensures forall u :: u in h.accepted || u in h.cosigned ==> op !in Ins(h.inputs, u)
    {
      PoppedExclusive(h, claims, tracked, b, i, op);
    }
    SettledBefore(h, claims, tracked);
  }

  lemma SettledBefore(h: Hist, claims: Claims, tracked: set<Outpoint>)
    requires Exclusive(h, claims, tracked)
    ensures forall i, u, op :: i in h.settled && u in h.accepted && op in Ins(h.inputs, u) ==>
              op !in Ins(h.inputs, i)
    ensures forall i, v, op ::
              i in h.settled && v in h.cosigned && op in Ins(h.inputs, i) && op in Ins(h.inputs, v) ==> op !in tracked
    ensures forall i, j, op :: i in h.settled && j in h.settled && op in Ins(h.inputs, i) && op in Ins(h.inputs, j) ==> i == j
    ensures forall i, op :: i in h.settled && op in Ins(h.inputs, i) && op in claims ==> claims[op].intent == i
  {
  }

  lemma SettledOnce(h: Hist, claims: Claims, tracked: set<Outpoint>, b: BatchId, intents: set<Tid>)
    requires Exclusive(h, claims, tracked) && AllPopped(h, claims, b, intents)
    ensures forall i, op :: (i in h.settled || i in intents) && op in Ins(h.inputs, i) && op in claims ==>
              claims[op].intent == i
    ensures forall i, j, op ::
              i in h.settled.Keys + intents && j in h.settled.Keys + intents && op in Ins(h.inputs, i) && op in Ins(h.inputs, j)
              ==> i == j
  {
    SettledBefore(h, claims, tracked);
    hide Exclusive;
    forall i, j, op | i in h.settled.Keys + intents && j in h.settled.Keys + intents && op in Ins(h.inputs, i)
      && op in Ins(h.inputs, j) ensures i == j
    {
      assert i in intents || j in intents ==> op in claims;
    }
  }

  lemma SettleHandoff(s: State, b: BatchId, intents: set<Tid>)
    requires BatchHandoff(s.hist, s.cache.claims, s.db.spent, s.db.cosignedRows)
    requires AllPopped(s.hist, s.cache.claims, b, intents) && intents !! s.hist.settled.Keys
    ensures BatchHandoff(Settle(s.hist, b, intents), s.cache.claims, s.db.spent, s.db.cosignedRows)
  {
    var h' := Settle(s.hist, b, intents);
    assert forall i :: i in s.hist.settled ==> h'.settled[i] == s.hist.settled[i];
  }

  lemma SettleRows(s: State, b: BatchId, intents: set<Tid>)
    requires RowsInv(s.hist, s.cache.claims, s.db.tracked, s.db.unrolled) && AllPopped(s.hist, s.cache.claims, b, intents)
    ensures RowsInv(Settle(s.hist, b, intents), s.cache.claims, s.db.tracked, s.db.unrolled)
  {
    assert forall i :: i in Settle(s.hist, b, intents).settled ==> i in s.hist.settled || i in intents;
  }

  lemma SettleFrame(s: State, b: BatchId, intents: set<Tid>)
    requires DataInv(s) && b !in s.log.savedBatches && intents !! s.hist.settled.Keys
    ensures var h' := Settle(s.hist, b, intents);
            && LandedInv(h', s.db, s.log)
            && OffchainHandoff(h', s.cache.txs, s.db.spent)
            && CosignHandoff(h', s.cache.cosigning, s.db.cosignedRows)
            && ClaimsInv(h', s.cache.queue, s.cache.claims, s.usedBatches)
  {
    hide BatchHandoff, InflightInv, Exclusive, RoundInv, RowsInv;
    var h' := Settle(s.hist, b, intents);
    assert forall i :: i in h'.settled ==> h'.settled[i] == if i in s.hist.settled then s.hist.settled[i] else b;
  }

  lemma EndData(s: State, intents: set<Tid>)
    requires DataInv(s) && Enabled(s, RoundEnd(intents))
    ensures DataInv(RoundStep(s, RoundEnd(intents)))
  {
    hide LandedInv, OffchainHandoff, CosignHandoff, RowsInv, InflightInv, Exclusive, ClaimsInv, BatchHandoff;
    var b := s.round.batch;
    assert AllPopped(s.hist, s.cache.claims, b, intents);
    SettleExclusive(s.hist, s.cache.claims, s.db.tracked, b, intents);
    SettleHandoff(s, b, intents);
    SettleFrame(s, b, intents);
    SettleRows(s, b, intents);
    assert forall i :: i in Settle(s.hist, b, intents).settled ==>
      Settle(s.hist, b, intents).settled[i] == if i in s.hist.settled then s.hist.settled[i] else b;
  }

  lemma EndStable(s: State, intents: set<Tid>)
    requires Enabled(s, RoundEnd(intents))
    requires RoundInv(s.hist, s.cache.claims, s.log, s.usedBatches, s.round)
    ensures AllStable(s, RoundStep(s, RoundEnd(intents)))
  {
    hide Rely;
    var s' := RoundStep(s, RoundEnd(intents));
    assert AllPopped(s.hist, s.cache.claims, s.round.batch, intents);
    forall u | u in s.threads ensures Rely(s, s', s.threads[u]) {
      EndRely(s, s', s.threads[u], s.round.batch, intents);
    }
  }

  lemma EndRely(s: State, s': State, th: Thread, b: BatchId, intents: set<Tid>)
    requires AllPopped(s.hist, s.cache.claims, b, intents)
    requires s'.db == s.db && s'.cache == s.cache && s'.hist == Settle(s.hist, b, intents)
    ensures Rely(s, s', th)
  {
  }

  lemma EndInv(s: State, intents: set<Tid>)
    requires Inv(s) && Enabled(s, RoundEnd(intents))
    ensures Inv(RoundStep(s, RoundEnd(intents)))
  {
    hide LockInv, ThreadsInv, AllStable, LandedInv, OffchainHandoff, CosignHandoff, LogScoped, InflightInv,
         Exclusive, ClaimsInv, BatchHandoff, RoundInv, Scoped, RowsInv;
    var s' := RoundStep(s, RoundEnd(intents));
    SameLocks(s, s');
    EndData(s, intents);
    EndStable(s, intents);
    ComposeBackground(s, s');
  }

  // Releasing the claims of a batch, with no registration in flight.

  lemma ReleaseHandoff(s: State, b: BatchId)
    requires BatchHandoff(s.hist, s.cache.claims, s.db.spent, s.db.cosignedRows)
    requires LandedInv(s.hist, s.db, s.log) && Scoped(s.hist, s.cache)
    requires LogScoped(s.hist, s.log, s.usedBatches)
    requires b in s.log.boardingLanded || NothingSettled(s.hist, b)
    ensures BatchHandoff(s.hist, ReleaseClaims(s.cache.claims, b), s.db.spent, s.db.cosignedRows)
  {
    var claims' := ReleaseClaims(s.cache.claims, b);
    forall i, op | i in s.hist.settled && op in Ins(s.hist.inputs, i)
      ensures || (op in claims' && claims'[op] == Popped(s.hist.settled[i], i))
              || (op in VtxoIns(s.hist.pushed, i) && op in s.db.spent)
              || (op !in VtxoIns(s.hist.pushed, i) && op in s.db.cosignedRows)
    {
      if s.hist.settled[i] == b {
        assert VtxoIns(s.hist.pushed, i) <= s.db.spent;
        assert op !in VtxoIns(s.hist.pushed, i) ==> op in Ins(s.hist.inputs, i) - VtxoIns(s.hist.pushed, i);
      }
    }
  }

  lemma ReleaseClaimsInv(h: Hist, queue: set<Tid>, claims: Claims, used: set<BatchId>, b: BatchId)
    requires ClaimsInv(h, queue, claims, used)
    ensures ClaimsInv(h, queue, ReleaseClaims(claims, b), used) && Fewer(claims, ReleaseClaims(claims, b))
  {
  }

  lemma ReleaseData(s: State, b: BatchId, ok: bool)
    requires DataInv(s) && Enabled(s, RoundRelease(b, ok))
    ensures DataInv(RoundStep(s, RoundRelease(b, ok)))
  {
    hide LandedInv, OffchainHandoff, CosignHandoff, RowsInv, InflightInv, Exclusive, ClaimsInv, BatchHandoff,
         LogScoped, Fewer;
    if ok {
      ReleaseHandoff(s, b);
      ReleaseClaimsInv(s.hist, s.cache.queue, s.cache.claims, s.usedBatches, b);
      FewerExclusive(s.hist, s.cache.claims, ReleaseClaims(s.cache.claims, b), s.db.tracked);
      FewerRows(s.hist, s.cache.claims, ReleaseClaims(s.cache.claims, b), s.db.tracked, s.db.unrolled);
    }
  }

  lemma ReleaseStable(s: State, b: BatchId, ok: bool)
    requires LockInv(s) && Enabled(s, RoundRelease(b, ok))
    ensures AllStable(s, RoundStep(s, RoundRelease(b, ok)))
  {
    hide Rely;
    var s' := RoundStep(s, RoundRelease(b, ok));
    assert s.registering == {};
    forall u | u in s.threads ensures Rely(s, s', s.threads[u]) {
      assert !HoldsRegistration(s.threads[u]);
      FewerClaimsRely(s, s', s.threads[u]);
    }
  }

  lemma ReleaseInv(s: State, b: BatchId, ok: bool)
    requires Inv(s) && Enabled(s, RoundRelease(b, ok))
    ensures Inv(RoundStep(s, RoundRelease(b, ok)))
  {
    hide LockInv, ThreadsInv, AllStable, LandedInv, OffchainHandoff, CosignHandoff, LogScoped, InflightInv,
         Exclusive, ClaimsInv, BatchHandoff, RoundInv, Scoped, RowsInv;
    var s' := RoundStep(s, RoundRelease(b, ok));
    SameLocks(s, s');
    ReleaseData(s, b, ok);
    ReleaseStable(s, b, ok);
    ComposeBackground(s, s');
  }

  // The other steps of the loop move no claim.

  predicate Bookkeeping(a: Action) {
    a.RoundStart? || a.RoundAbort? || a.RoundTrack? || a.RoundSave? || a.RoundCollect? || a.RoundWant?
    || a.RoundHold? || a.RoundResume?
  }

  lemma BookkeepingData(s: State, a: Action)
    requires DataInv(s) && Enabled(s, a) && Bookkeeping(a)
    ensures DataInv(RoundStep(s, a))
  {
    hide OffchainHandoff, CosignHandoff, RowsInv, Exclusive, BatchHandoff, Scoped;
  }

  lemma BookkeepingStable(s: State, a: Action)
    requires Enabled(s, a) && Bookkeeping(a)
    ensures AllStable(s, RoundStep(s, a))
    ensures LockInv(s) ==> LockInv(RoundStep(s, a))
  {
    hide AllStable, LockInv;
    var s' := RoundStep(s, a);
    LoopStable(s, s');
    if LockInv(s) {
      SameLocks(s, s');
    }
  }

  lemma BookkeepingInv(s: State, a: Action)
    requires Inv(s) && Enabled(s, a) && Bookkeeping(a)
    ensures Inv(RoundStep(s, a))
  {
    hide LockInv, ThreadsInv, AllStable, LandedInv, OffchainHandoff, CosignHandoff, LogScoped, InflightInv,
         Exclusive, ClaimsInv, BatchHandoff, RoundInv, Scoped, RowsInv, RoundStep;
    BookkeepingData(s, a);
    BookkeepingStable(s, a);
    ComposeBackground(s, RoundStep(s, a));
  }

  lemma RoundInvariant(s: State, a: Action)
    requires Inv(s) && Enabled(s, a) && RoundAction(a)
    ensures Inv(RoundStep(s, a))
  {
    hide Inv, RoundStep;
    match a
    case RoundPop(intents) => PopInv(s, intents);
    case RoundEnd(intents) => EndInv(s, intents);
    case RoundRelease(b, ok) => ReleaseInv(s, b, ok);
    case _ => BookkeepingInv(s, a);
  }
}
