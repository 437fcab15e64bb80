/** Every step of SubmitOffchainTx keeps the invariant. */
module ClaimSubmit {
  import opened Outpoints
  import opened ClaimProtocol
  import opened ClaimInvariant
  import opened ClaimSteps

  lemma RowsRead(s: State, th: Thread)
    requires RowsInv(s.hist, s.cache.claims, s.db.tracked, s.db.unrolled)
    requires th.Submit? && th.spc == SubmitReadRows && SubmitKnows(s.db, s.cache, s.hist, th)
    requires th.ins <= s.db.tracked && th.ins !! s.db.spent && th.ins !! s.db.unrolled
    ensures SubmitKnows(s.db, s.cache, s.hist, th.(spc := SubmitAdd))
  {
  }

  lemma SubmitReadKnows(s: State, t: Tid, ok: bool)
    requires Scoped(s.hist, s.cache) && RowsInv(s.hist, s.cache.claims, s.db.tracked, s.db.unrolled)
    requires OffchainHandoff(s.hist, s.cache.txs, s.db.spent)
    requires BatchHandoff(s.hist, s.cache.claims, s.db.spent, s.db.cosignedRows)
    requires t in s.threads && s.threads[t].Submit? && (ok ==> CanAcquire(s, t))
    requires s.threads[t].spc != SubmitAdd && SubmitKnows(s.db, s.cache, s.hist, s.threads[t])
    ensures SubmitKnows(s.db, s.cache, s.hist, SubmitStep(s, t, ok).threads[t])
  {
    var th, s' := s.threads[t], SubmitStep(s, t, ok);
    if th.spc == SubmitReadCache && s'.threads[t].spc == SubmitReadClaims {
      CacheMiss(s, th.ins);
    } else if th.spc == SubmitReadClaims && s'.threads[t].spc == SubmitReadRows {
      ClaimMiss(s, th.ins);
    } else if th.spc == SubmitReadRows && s'.threads[t].spc == SubmitAdd {
      RowsRead(s, th);
    }
  }

  lemma SubmitQuiet(s: State, t: Tid, ok: bool)
    requires t in s.threads && s.threads[t].Submit? && (ok ==> CanAcquire(s, t)) && !Finished(s.threads[t])
    requires Progress(s.hist, s.log, t, s.threads[t])
    requires s.threads[t].spc == SubmitAdd ==> SubmitStep(s, t, ok).threads[t].spc == SubmitUnlock
    requires s.threads[t].spc == SubmitSaveLater ==> !ok
    ensures var s' := SubmitStep(s, t, ok);
            && SameStores(s, s') && LocksFollow(s, s', t) && Progress(s.hist, s.log, t, s'.threads[t])
  {
  }

  lemma AcceptExclusive(h: Hist, claims: Claims, tracked: set<Outpoint>, t: Tid)
    requires Exclusive(h, claims, tracked)
    requires NotAccepted(h, Ins(h.inputs, t)) && Ins(h.inputs, t) !! claims.Keys
    requires NotSettled(h, Ins(h.inputs, t)) && NotCosigned(h, Ins(h.inputs, t))
    ensures Exclusive(h.(accepted := h.accepted + {t}), claims, tracked)
  {
  }

  lemma AcceptData(s: State, t: Tid)
    requires DataInv(s) && Ins(s.hist.inputs, t) <= s.db.tracked && t in s.hist.inputs
    requires NotAccepted(s.hist, Ins(s.hist.inputs, t)) && Ins(s.hist.inputs, t) !! s.cache.claims.Keys
    requires NotSettled(s.hist, Ins(s.hist.inputs, t)) && NotCosigned(s.hist, Ins(s.hist.inputs, t))
    ensures DataInv(s.(cache := s.cache.(txs := s.cache.txs + {t}),
                       hist := s.hist.(accepted := s.hist.accepted + {t})))
  {
    hide OffchainHandoff, CosignHandoff, BatchHandoff, RowsInv, ClaimsInv, LandedInv, RoundInv, Exclusive;
    AcceptExclusive(s.hist, s.cache.claims, s.db.tracked, t);
    AcceptFrame(s, t);
  }

  lemma AcceptFrame(s: State, t: Tid)
    requires DataInv(s) && Ins(s.hist.inputs, t) <= s.db.tracked
    ensures var h' := s.hist.(accepted := s.hist.accepted + {t});
            && RowsInv(h', s.cache.claims, s.db.tracked, s.db.unrolled)
            && OffchainHandoff(h', s.cache.txs + {t}, s.db.spent)
            && CosignHandoff(h', s.cache.cosigning, s.db.cosignedRows)
            && BatchHandoff(h', s.cache.claims, s.db.spent, s.db.cosignedRows)
            && ClaimsInv(h', s.cache.queue, s.cache.claims, s.usedBatches)
            && LandedInv(h', s.db, s.log)
            && RoundInv(h', s.cache.claims, s.log, s.usedBatches, s.round)
  {
    hide Exclusive, LogScoped, InflightInv;
  }

  lemma SubmitAddInv(s: State, t: Tid)
    requires Inv(s) && t in s.threads && s.threads[t].Submit? && s.threads[t].spc == SubmitAdd
    requires !CacheIncludesAny(s, s.threads[t].ins)
    ensures Inv(SubmitStep(s, t, true))
  {
    hide LockInv, Rely, Scoped, OffchainHandoff, CosignHandoff, BatchHandoff, ClaimsInv, LandedInv,
         InflightInv, RoundInv, Exclusive, RegisterKnows, CosignKnows;
    var th, s' := s.threads[t], SubmitStep(s, t, true);
    assert Knows(s.db, s.cache, s.hist, th) && Progress(s.hist, s.log, t, th);
    AcceptLocks(s, t);
    AcceptData(s, t);
    DataInvSame(s.(cache := s.cache.(txs := s.cache.txs + {t}),
                   hist := s.hist.(accepted := s.hist.accepted + {t})), s');
    OnlyOffchainHolder(s, t);
    forall u | u in s.threads && u != t ensures Rely(s, s', s.threads[u]) && Untouched(s, s', u) {
      AcceptRely(s, s', s.threads[u], t);
    }
    Compose(s, s', t);
  }

  lemma AcceptLocks(s: State, t: Tid)
    requires LockInv(s) && t in s.threads && s.threads[t].Submit? && s.threads[t].spc == SubmitAdd
    requires !CacheIncludesAny(s, s.threads[t].ins)
    ensures LockInv(SubmitStep(s, t, true))
  {
    hide LockInv, CacheIncludesAny;
    LockStep(s, SubmitStep(s, t, true), t);
  }

  lemma AcceptRely(s: State, s': State, th: Thread, t: Tid)
    requires !HoldsOffchain(th)
    requires s'.db == s.db && s'.cache == s.cache.(txs := s'.cache.txs)
    requires s'.hist == s.hist.(accepted := s'.hist.accepted)
    ensures Rely(s, s', th)
  {
  }

  /** Saving the events only extends the log. */
  lemma SavedInv(s: State, s': State, t: Tid)
    requires Inv(s) && t in s.threads && s.threads[t].Submit? && t in s'.threads
    requires s.threads[t].spc == SubmitSave || s.threads[t].spc == SubmitSaveLater
    requires s'.threads[t] == s.threads[t].(spc := if s.threads[t].spc == SubmitSave then SubmitUnlock else SubmitDone)
    requires LocksFollow(s, s', t) && s'.log == s.log.(savedTxs := s.log.savedTxs + {t})
    requires SameStores(s, s'.(log := s.log))
    ensures Inv(s')
  {
    hide LockInv, Rely, Scoped, RowsInv, OffchainHandoff, CosignHandoff, BatchHandoff, ClaimsInv, Exclusive,
         SubmitKnows, RegisterKnows, CosignKnows, LocksFollow;
    var th := s.threads[t];
    assert Knows(s.db, s.cache, s.hist, th) && Progress(s.hist, s.log, t, th);
    LockStep(s, s', t);
    FollowsThreads(s, s', t);
    forall u | u in s.threads && u != t ensures Rely(s, s', s.threads[u]) && Untouched(s, s', u) {
      LogRely(s, s', s.threads[u]);
    }
    LateKnows(s'.db, s'.cache, s'.hist, s'.threads[t]);
    Compose(s, s', t);
  }

  lemma LateKnows(db: Db, cache: Cache, h: Hist, th: Thread)
    requires th.Submit? && (th.spc == SubmitUnlock || th.spc == SubmitDone)
    ensures SubmitKnows(db, cache, h, th)
  {
  }

  lemma WithdrawData(s: State, t: Tid)
    requires DataInv(s) && t !in s.log.savedTxs
    ensures DataInv(s.(cache := s.cache.(txs := s.cache.txs - {t}),
                       hist := s.hist.(accepted := s.hist.accepted - {t})))
  {
    hide Exclusive, RoundInv, LandedInv, ClaimsInv, BatchHandoff;
    WithdrawExclusive(s.hist, s.cache.claims, s.db.tracked, t);
    WithdrawFrame(s, t);
  }

  lemma WithdrawExclusive(h: Hist, claims: Claims, tracked: set<Outpoint>, t: Tid)
    requires Exclusive(h, claims, tracked)
    ensures Exclusive(h.(accepted := h.accepted - {t}), claims, tracked)
  {
  }

  lemma WithdrawFrame(s: State, t: Tid)
    requires DataInv(s)
    ensures var h' := s.hist.(accepted := s.hist.accepted - {t});
            && BatchHandoff(h', s.cache.claims, s.db.spent, s.db.cosignedRows)
            && ClaimsInv(h', s.cache.queue, s.cache.claims, s.usedBatches)
            && LandedInv(h', s.db, s.log)
            && RoundInv(h', s.cache.claims, s.log, s.usedBatches, s.round)
  {
    hide Exclusive, LogScoped, InflightInv, Scoped, RowsInv, OffchainHandoff, CosignHandoff;
  }

  lemma WithdrawInv(s: State, t: Tid)
    requires Inv(s) && t in s.threads && s.threads[t].Submit? && s.threads[t].spc == SubmitSave
    ensures Inv(SaveStep(s, t, false))
  {
    hide LockInv, Rely, Scoped, OffchainHandoff, CosignHandoff, BatchHandoff, ClaimsInv, LandedInv,
         InflightInv, RoundInv, Exclusive, RegisterKnows, CosignKnows, LogScoped;
    var th, s' := s.threads[t], SaveStep(s, t, false);
    assert Knows(s.db, s.cache, s.hist, th) && Progress(s.hist, s.log, t, th);
    LockStep(s, s', t);
    WithdrawData(s, t);
    DataInvSame(s.(cache := s.cache.(txs := s.cache.txs - {t}),
                   hist := s.hist.(accepted := s.hist.accepted - {t})), s');
    OnlyOffchainHolder(s, t);
    forall u | u in s.threads && u != t ensures Rely(s, s', s.threads[u]) && Untouched(s, s', u) {
      AcceptRely(s, s', s.threads[u], t);
    }
    Compose(s, s', t);
  }

  lemma SubmitInv(s: State, t: Tid, ok: bool)
    requires Inv(s) && Enabled(s, Step(t, ok)) && s.threads[t].Submit?
    ensures Inv(SubmitStep(s, t, ok))
  {
    hide LockInv, DataInv, Knows;
    var th, s' := s.threads[t], SubmitStep(s, t, ok);
    if th.spc == SubmitAdd && ok && !CacheIncludesAny(s, th.ins) {
      SubmitAddInv(s, t);
    } else if th.spc == SubmitSaveLater && ok {
      SavedInv(s, s', t);
    } else {
      SubmitQuietInv(s, t, ok);
    }
  }

  lemma SubmitQuietInv(s: State, t: Tid, ok: bool)
    requires Inv(s) && Enabled(s, Step(t, ok)) && s.threads[t].Submit?
    requires s.threads[t].spc == SubmitAdd ==> !ok || CacheIncludesAny(s, s.threads[t].ins)
    requires s.threads[t].spc == SubmitSaveLater ==> !ok
    ensures Inv(SubmitStep(s, t, ok))
  {
    hide LockInv, Scoped, LogScoped, RowsInv, OffchainHandoff, CosignHandoff, BatchHandoff, ClaimsInv,
         LandedInv, InflightInv, RoundInv, Exclusive, SubmitKnows, RegisterKnows, CosignKnows, Progress,
         LocksFollow;
    var th, s' := s.threads[t], SubmitStep(s, t, ok);
    assert Knows(s.db, s.cache, s.hist, th) && Progress(s.hist, s.log, t, th);
    SubmitQuiet(s, t, ok);
    if th.spc == SubmitAdd {
      LateKnows(s.db, s.cache, s.hist, s'.threads[t]);
    } else {
      SubmitReadKnows(s, t, ok);
    }
    QuietInv(s, s', t);
  }

  lemma SaveInv(s: State, t: Tid, ok: bool)
    requires Inv(s) && Enabled(s, SaveOneShot(t, ok))
    ensures Inv(SaveStep(s, t, ok))
  {
    hide LockInv, DataInv, Knows;
    if ok {
      SavedInv(s, SaveStep(s, t, ok), t);
    } else {
      WithdrawInv(s, t);
    }
  }
}
