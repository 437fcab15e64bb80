/** Every step of CosignOnchainTx keeps the invariant. */
module ClaimCosign {
  import opened Outpoints
  import opened ClaimProtocol
  import opened ClaimInvariant
  import opened ClaimSteps

  // Reads, lock operations and failures.

  predicate Writes(pc: CosignPc, ok: bool) {
    || (ok && (pc == CosAdd || pc == CosReadCheckpoints || pc == CosBroadcast || pc == CosRollback))
    || pc == CosRelease
  }

  lemma CosignReadKnows(s: State, t: Tid, ok: bool)
    requires Scoped(s.hist, s.cache) && RowsInv(s.hist, s.cache.claims, s.db.tracked, s.db.unrolled)
    requires OffchainHandoff(s.hist, s.cache.txs, s.db.spent)
    requires BatchHandoff(s.hist, s.cache.claims, s.db.spent, s.db.cosignedRows)
    requires t in s.threads && s.threads[t].Cosign? && (ok ==> CanAcquire(s, t))
    requires !Writes(s.threads[t].cpc, ok) && CosignKnows(s.db, s.cache, s.hist, s.threads[t])
    ensures CosignKnows(s.db, s.cache, s.hist, CosignStep(s, t, ok).threads[t])
  {
    hide RowsInv, OffchainHandoff, BatchHandoff, Scoped, AcceptedSpent, SettledSpent;
    var th, s' := s.threads[t], CosignStep(s, t, ok);
    var pc' := s'.threads[t].cpc;
    if th.cpc == CosReadRows && pc' == CosLockOffchain {
      NoRowNotCosigned(s, th.ins);
    } else if th.cpc == CosReadCache && pc' == CosReadClaims {
      CacheMiss(s, th.ins);
    } else if th.cpc == CosReadClaims && pc' == CosReadVtxos {
      ClaimMiss(s, th.ins);
    } else if th.cpc == CosReadVtxos && pc' == CosReadCheckpoints {
      VtxosRead(s, th);
    }
  }

  /** The rows were read last: an input that is neither spent nor offchain is free, unless it is no vtxo. */
  lemma VtxosRead(s: State, th: Thread)
    requires RowsInv(s.hist, s.cache.claims, s.db.tracked, s.db.unrolled)
    requires th.Cosign? && th.cpc == CosReadVtxos && CosignKnows(s.db, s.cache, s.hist, th)
    requires th.ins * s.db.tracked <= s.db.unrolled && th.ins * s.db.tracked !! s.db.spent
    ensures CosignKnows(s.db, s.cache, s.hist, th.(cpc := CosReadCheckpoints))
  {
    forall u, op | u in s.hist.accepted && op in Ins(s.hist.inputs, u) ensures op !in th.ins {
      assert op in s.db.tracked;
    }
  }

  lemma CosignQuiet(s: State, t: Tid, ok: bool)
    requires t in s.threads && s.threads[t].Cosign? && (ok ==> CanAcquire(s, t)) && !Finished(s.threads[t])
    requires Progress(s.hist, s.log, t, s.threads[t]) && !Writes(s.threads[t].cpc, ok)
    ensures SameStores(s, CosignStep(s, t, ok))
    ensures Progress(s.hist, s.log, t, CosignStep(s, t, ok).threads[t])
  {
  }

  // Before, during and after the section under the offchain mutex.

  predicate Before(pc: CosignPc) {
    pc == CosLock || pc == CosAdd || pc == CosReadRows || pc == CosLockOffchain
  }

  predicate During(pc: CosignPc) {
    pc == CosReadCache || pc == CosReadClaims || pc == CosReadVtxos || pc == CosReadCheckpoints
    || pc == CosUnlockOffchain || pc == CosFailOffchain
  }

  lemma CosignLocksBefore(s: State, t: Tid, ok: bool)
    requires t in s.threads && s.threads[t].Cosign? && (ok ==> CanAcquire(s, t)) && Before(s.threads[t].cpc)
    ensures LocksFollow(s, CosignStep(s, t, ok), t)
  {
    hide CacheIncludesAny;
  }

  lemma CosignLocksDuring(s: State, t: Tid, ok: bool)
    requires t in s.threads && s.threads[t].Cosign? && During(s.threads[t].cpc)
    ensures LocksFollow(s, CosignStep(s, t, ok), t)
  {
    hide CacheIncludesAny;
  }

  lemma CosignLocksAfter(s: State, t: Tid, ok: bool)
    requires t in s.threads && s.threads[t].Cosign? && (ok ==> CanAcquire(s, t))
    requires !Before(s.threads[t].cpc) && !During(s.threads[t].cpc) && !Finished(s.threads[t])
    ensures LocksFollow(s, CosignStep(s, t, ok), t)
  {
  }

  lemma CosignLocks(s: State, t: Tid, ok: bool)
    requires t in s.threads && s.threads[t].Cosign? && (ok ==> CanAcquire(s, t)) && !Finished(s.threads[t])
    ensures LocksFollow(s, CosignStep(s, t, ok), t)
  {
    hide LocksFollow, CosignStep;
    if Before(s.threads[t].cpc) {
      CosignLocksBefore(s, t, ok);
    } else if During(s.threads[t].cpc) {
      CosignLocksDuring(s, t, ok);
    } else {
      CosignLocksAfter(s, t, ok);
    }
  }

  lemma CosignQuietInv(s: State, t: Tid, ok: bool)
    requires Inv(s) && Enabled(s, Step(t, ok)) && s.threads[t].Cosign? && !Writes(s.threads[t].cpc, ok)
    ensures Inv(CosignStep(s, t, ok))
  {
    hide LockInv, Scoped, LogScoped, RowsInv, OffchainHandoff, CosignHandoff, BatchHandoff, ClaimsInv,
         LandedInv, InflightInv, RoundInv, Exclusive, SubmitKnows, RegisterKnows, CosignKnows, Progress,
         LocksFollow;
    var th, s' := s.threads[t], CosignStep(s, t, ok);
    assert Knows(s.db, s.cache, s.hist, th) && Progress(s.hist, s.log, t, th);
    CosignQuiet(s, t, ok);
    CosignLocks(s, t, ok);
    CosignReadKnows(s, t, ok);
    QuietInv(s, s', t);
  }

  // Writes. Each one is a change of the stores, its effect on the others, and the request's own gain.

  lemma AddData(s: State, cosigning: set<Outpoint>)
    requires DataInv(s) && s.cache.cosigning <= cosigning
    ensures DataInv(s.(cache := s.cache.(cosigning := cosigning)))
  {
    hide Exclusive, RoundInv, LandedInv, ClaimsInv, BatchHandoff, RowsInv, OffchainHandoff, LogScoped, InflightInv;
  }

  lemma AddOthers(s: State, t: Tid)
    requires t in s.threads && s.threads[t].Cosign? && s.threads[t].cpc == CosAdd
    ensures OthersStable(s, CosignStep(s, t, true), t)
  {
  }

  lemma AddOwn(s: State, t: Tid)
    requires CosignHandoff(s.hist, s.cache.cosigning, s.db.cosignedRows)
    requires t in s.threads && s.threads[t].Cosign? && s.threads[t].cpc == CosAdd
    requires Progress(s.hist, s.log, t, s.threads[t]) && s.threads[t].ins !! s.cache.cosigning
    ensures Own(CosignStep(s, t, true), t)
  {
    CosigningMiss(s, s.threads[t].ins);
  }

  ghost predicate Own(s: State, t: Tid) {
    t in s.threads && Knows(s.db, s.cache, s.hist, s.threads[t]) && Progress(s.hist, s.log, t, s.threads[t])
  }

  lemma WriteInv(s: State, t: Tid, ok: bool)
    requires Inv(s) && Enabled(s, Step(t, ok)) && s.threads[t].Cosign?
    requires DataInv(CosignStep(s, t, ok)) && OthersStable(s, CosignStep(s, t, ok), t)
    requires Own(CosignStep(s, t, ok), t) && CosignStep(s, t, ok).hist.inputs == s.hist.inputs
    ensures Inv(CosignStep(s, t, ok))
  {
    hide LockInv, DataInv, OthersStable, Knows, Progress, LocksFollow, CosignStep;
    var s' := CosignStep(s, t, ok);
    CosignLocks(s, t, ok);
    LockStep(s, s', t);
    FollowsThreads(s, s', t);
    Compose(s, s', t);
  }

  lemma AddInv(s: State, t: Tid)
    requires Inv(s) && Enabled(s, Step(t, true)) && s.threads[t].Cosign? && s.threads[t].cpc == CosAdd
    requires s.threads[t].ins !! s.cache.cosigning
    ensures Inv(CosignStep(s, t, true))
  {
    hide LockInv, OthersStable, RowsInv, OffchainHandoff, CosignHandoff, BatchHandoff, LandedInv, Scoped,
         ClaimsInv, InflightInv, RoundInv, Exclusive, LogScoped, Own, Progress, Knows;
    var th, s' := s.threads[t], CosignStep(s, t, true);
    assert Progress(s.hist, s.log, t, th);
    AddData(s, s.cache.cosigning + th.ins);
    DataInvSame(s.(cache := s.cache.(cosigning := s.cache.cosigning + th.ins)), s');
    AddOthers(s, t);
    AddOwn(s, t);
    WriteInv(s, t, true);
  }

  // Passing lockUtxos.

  lemma PassExclusive(h: Hist, claims: Claims, tracked: set<Outpoint>, t: Tid)
    requires Exclusive(h, claims, tracked) && Ins(h.inputs, t) !! claims.Keys
    requires NotAccepted(h, Ins(h.inputs, t)) && NotCosigned(h, Ins(h.inputs, t))
    requires NotSettled(h, Ins(h.inputs, t) * tracked)
    ensures Exclusive(h.(cosigned := h.cosigned + {t}), claims, tracked)
  {
    forall i, op | i in h.settled && op in Ins(h.inputs, i) && op in Ins(h.inputs, t) ensures op !in tracked {
      assert op !in Ins(h.inputs, t) * tracked;
    }
  }

  lemma CosignedFrame(s: State, cosigned: set<Tid>)
    requires DataInv(s)
    ensures var h' := s.hist.(cosigned := cosigned);
            && OffchainHandoff(h', s.cache.txs, s.db.spent)
            && BatchHandoff(h', s.cache.claims, s.db.spent, s.db.cosignedRows)
            && ClaimsInv(h', s.cache.queue, s.cache.claims, s.usedBatches)
            && LandedInv(h', s.db, s.log)
            && RoundInv(h', s.cache.claims, s.log, s.usedBatches, s.round)
  {
    hide LogScoped, InflightInv, Scoped, RowsInv, CosignHandoff, Exclusive;
  }

  lemma PassData(s: State, t: Tid)
    requires DataInv(s) && t in s.hist.inputs && Ins(s.hist.inputs, t) <= s.cache.cosigning
    requires Ins(s.hist.inputs, t) !! s.cache.claims.Keys
    requires Ins(s.hist.inputs, t) * s.db.tracked <= s.db.unrolled
    requires NotAccepted(s.hist, Ins(s.hist.inputs, t)) && NotCosigned(s.hist, Ins(s.hist.inputs, t))
    requires NotSettled(s.hist, Ins(s.hist.inputs, t) * s.db.tracked)
    ensures DataInv(s.(hist := s.hist.(cosigned := s.hist.cosigned + {t})))
  {
    hide Exclusive, RoundInv, LandedInv, ClaimsInv, BatchHandoff, OffchainHandoff, NotAccepted, NotSettled,
         NotCosigned;
    PassExclusive(s.hist, s.cache.claims, s.db.tracked, t);
    CosignedFrame(s, s.hist.cosigned + {t});
  }

  lemma PassOthers(s: State, t: Tid)
    requires LockInv(s)
    requires t in s.threads && s.threads[t].Cosign? && s.threads[t].cpc == CosReadCheckpoints
    ensures OthersStable(s, CosignStep(s, t, true), t)
  {
    hide LockInv, Rely, HoldsOffchain, HoldsCosign;
    var s' := CosignStep(s, t, true);
    assert HoldsOffchain(s.threads[t]) && HoldsCosign(s.threads[t]) by { HoldsBoth(s.threads[t]); }
    OnlyOffchainHolder(s, t);
    OnlyCosignHolder(s, t);
    forall u | u in s.threads && u != t ensures Rely(s, s', s.threads[u]) && Untouched(s, s', u) {
      PassRely(s, s', s.threads[u]);
    }
  }

  lemma HoldsBoth(th: Thread)
    requires th.Cosign? && th.cpc == CosReadCheckpoints
    ensures HoldsOffchain(th) && HoldsCosign(th)
  {
  }

  lemma PassRely(s: State, s': State, th: Thread)
    requires !HoldsOffchain(th) && !HoldsCosign(th)
    requires s'.db == s.db && s'.cache == s.cache && s'.hist == s.hist.(cosigned := s'.hist.cosigned)
    ensures Rely(s, s', th)
  {
  }

  lemma PassOwn(s: State, t: Tid)
    requires t in s.threads && s.threads[t].Cosign? && s.threads[t].cpc == CosReadCheckpoints && Own(s, t)
    requires LogScoped(s.hist, s.log, s.usedBatches)
    ensures Own(CosignStep(s, t, true), t)
  {
  }

  lemma PassInv(s: State, t: Tid)
    requires Inv(s) && Enabled(s, Step(t, true)) && s.threads[t].Cosign? && s.threads[t].cpc == CosReadCheckpoints
    ensures Inv(CosignStep(s, t, true))
  {
    hide LockInv, OthersStable, RowsInv, OffchainHandoff, CosignHandoff, BatchHandoff, LandedInv, Scoped,
         ClaimsInv, InflightInv, RoundInv, Exclusive, LogScoped, NotAccepted, NotSettled, NotCosigned;
    var th, s' := s.threads[t], CosignStep(s, t, true);
    assert Own(s, t);
    PassData(s, t);
    DataInvSame(s.(hist := s.hist.(cosigned := s.hist.cosigned + {t})), s');
    PassOthers(s, t);
    PassOwn(s, t);
    WriteInv(s, t, true);
  }

  // Saving the broadcast event.

  lemma BroadcastOwn(s: State, t: Tid)
    requires t in s.threads && s.threads[t].Cosign? && s.threads[t].cpc == CosBroadcast && Own(s, t)
    ensures Own(CosignStep(s, t, true), t)
  {
  }

  lemma BroadcastOthers(s: State, t: Tid)
    requires t in s.threads && s.threads[t].Cosign? && s.threads[t].cpc == CosBroadcast
    ensures OthersStable(s, CosignStep(s, t, true), t)
  {
    hide Rely;
    var s' := CosignStep(s, t, true);
    forall u | u in s.threads && u != t ensures Rely(s, s', s.threads[u]) && Untouched(s, s', u) {
      LogRely(s, s', s.threads[u]);
    }
  }

  lemma BroadcastInv(s: State, t: Tid)
    requires Inv(s) && Enabled(s, Step(t, true)) && s.threads[t].Cosign? && s.threads[t].cpc == CosBroadcast
    ensures Inv(CosignStep(s, t, true))
  {
    hide LockInv, OthersStable, RowsInv, OffchainHandoff, CosignHandoff, BatchHandoff, Scoped,
         ClaimsInv, Exclusive, Knows;
    assert Own(s, t);
    BroadcastOthers(s, t);
    BroadcastOwn(s, t);
    WriteInv(s, t, true);
  }

  // Giving up: after the checks passed, or inside lockUtxos.

  lemma ReleaseExclusive(h: Hist, claims: Claims, tracked: set<Outpoint>, t: Tid)
    requires Exclusive(h, claims, tracked)
    ensures Exclusive(h.(cosigned := h.cosigned - {t}), claims, tracked)
  {
  }

  lemma ReleaseData(s: State, t: Tid, cosigning: set<Outpoint>)
    requires DataInv(s) && t in s.hist.cosigned && t !in s.log.savedCosigns
    requires s.cache.cosigning - Ins(s.hist.inputs, t) <= cosigning
    ensures DataInv(s.(hist := s.hist.(cosigned := s.hist.cosigned - {t}), cache := s.cache.(cosigning := cosigning)))
  {
    hide RoundInv, LandedInv, ClaimsInv, BatchHandoff, OffchainHandoff, InflightInv, Exclusive, CosignHandoff;
    ReleaseExclusive(s.hist, s.cache.claims, s.db.tracked, t);
    CosignedFrame(s, s.hist.cosigned - {t});
    ReleaseHandoff(s, t, cosigning);
  }

  /** The cache entries of a request that gives up are nobody else's. */
  lemma ReleaseHandoff(s: State, t: Tid, cosigning: set<Outpoint>)
    requires Exclusive(s.hist, s.cache.claims, s.db.tracked) && t in s.hist.cosigned
    requires CosignHandoff(s.hist, s.cache.cosigning, s.db.cosignedRows)
    requires s.cache.cosigning - Ins(s.hist.inputs, t) <= cosigning
    ensures CosignHandoff(s.hist.(cosigned := s.hist.cosigned - {t}), cosigning, s.db.cosignedRows)
  {
    forall u, op | u in s.hist.cosigned && u != t && op in Ins(s.hist.inputs, u)
      ensures op in cosigning || op in s.db.cosignedRows
    {
      assert CosigningOrRow(s.cache.cosigning, s.db.cosignedRows, Ins(s.hist.inputs, u));
      assert op !in Ins(s.hist.inputs, t);
    }
  }

  lemma ReleaseRely(s: State, s': State, th: Thread, t: Tid)
    requires t in s.hist.cosigned
    requires s'.db == s.db && s'.hist == s.hist.(cosigned := s.hist.cosigned - {t})
    requires s'.cache == s.cache.(cosigning := s'.cache.cosigning)
    requires s.cache.cosigning - Ins(s.hist.inputs, t) <= s'.cache.cosigning
    ensures Rely(s, s', th)
  {
  }

  lemma ReleaseOthers(s: State, t: Tid, ok: bool)
    requires t in s.threads && s.threads[t].Cosign? && s.threads[t].cpc == CosRelease && Own(s, t)
    ensures OthersStable(s, CosignStep(s, t, ok), t)
  {
    hide Rely, Knows;
    var s' := CosignStep(s, t, ok);
    forall u | u in s.threads && u != t ensures Rely(s, s', s.threads[u]) && Untouched(s, s', u) {
      ReleaseRely(s, s', s.threads[u], t);
    }
  }

  lemma ReleaseInv(s: State, t: Tid, ok: bool)
    requires Inv(s) && Enabled(s, Step(t, ok)) && s.threads[t].Cosign? && s.threads[t].cpc == CosRelease
    ensures Inv(CosignStep(s, t, ok))
  {
    hide LockInv, OthersStable, RowsInv, OffchainHandoff, CosignHandoff, BatchHandoff, LandedInv, Scoped,
         ClaimsInv, InflightInv, RoundInv, Exclusive, LogScoped, SubmitKnows, RegisterKnows;
    var s' := CosignStep(s, t, ok);
    assert Own(s, t);
    ReleaseData(s, t, s'.cache.cosigning);
    DataInvSame(s.(hist := s.hist.(cosigned := s.hist.cosigned - {t}),
                   cache := s.cache.(cosigning := s'.cache.cosigning)), s');
    ReleaseOthers(s, t, ok);
    WriteInv(s, t, ok);
  }

  lemma RollbackData(s: State, t: Tid)
    requires DataInv(s) && CosignedHasRow(s.hist, s.db.cosignedRows, Ins(s.hist.inputs, t))
    ensures DataInv(s.(cache := s.cache.(cosigning := s.cache.cosigning - Ins(s.hist.inputs, t))))
  {
    hide Exclusive, RoundInv, LandedInv, ClaimsInv, BatchHandoff, RowsInv, OffchainHandoff, LogScoped, InflightInv;
  }

  lemma RollbackOthers(s: State, t: Tid)
    requires LockInv(s)
    requires t in s.threads && s.threads[t].Cosign? && s.threads[t].cpc == CosRollback
    ensures OthersStable(s, CosignStep(s, t, true), t)
  {
    hide LockInv;
    OnlyCosignHolder(s, t);
  }

  lemma RollbackInv(s: State, t: Tid)
    requires Inv(s) && Enabled(s, Step(t, true)) && s.threads[t].Cosign? && s.threads[t].cpc == CosRollback
    ensures Inv(CosignStep(s, t, true))
  {
    hide LockInv, OthersStable, RowsInv, OffchainHandoff, CosignHandoff, BatchHandoff, LandedInv, Scoped,
         ClaimsInv, InflightInv, RoundInv, Exclusive, LogScoped, SubmitKnows, RegisterKnows, CosignedHasRow;
    var th, s' := s.threads[t], CosignStep(s, t, true);
    assert Own(s, t);
    RollbackData(s, t);
    DataInvSame(s.(cache := s.cache.(cosigning := s.cache.cosigning - Ins(s.hist.inputs, t))), s');
    RollbackOthers(s, t);
    WriteInv(s, t, true);
  }

  lemma CosignInv(s: State, t: Tid, ok: bool)
    requires Inv(s) && Enabled(s, Step(t, ok)) && s.threads[t].Cosign?
    ensures Inv(CosignStep(s, t, ok))
  {
    hide LockInv, DataInv, ThreadsInv;
    var th := s.threads[t];
    if !Writes(th.cpc, ok) {
      CosignQuietInv(s, t, ok);
    } else {
      match th.cpc
      case CosAdd =>
        if th.ins !! s.cache.cosigning { AddInv(s, t); } else { AddRefusedInv(s, t); }
      case CosReadCheckpoints => PassInv(s, t);
      case CosBroadcast => BroadcastInv(s, t);
      case CosRelease => ReleaseInv(s, t, ok);
      case _ => RollbackInv(s, t);
    }
  }

  lemma AddRefusedInv(s: State, t: Tid)
    requires Inv(s) && Enabled(s, Step(t, true)) && s.threads[t].Cosign? && s.threads[t].cpc == CosAdd
    requires !(s.threads[t].ins !! s.cache.cosigning)
    ensures Inv(CosignStep(s, t, true))
  {
    hide LockInv, DataInv, ThreadsInv;
    CosignQuietInv(s, t, false);
    assert CosignStep(s, t, true) == CosignStep(s, t, false);
  }
}
