/** Every step of RegisterIntent keeps the invariant. */
module ClaimRegister {
  import opened Outpoints
  import opened ClaimProtocol
  import opened ClaimInvariant
  import opened ClaimSteps

  // The reads.

  /** A boarding input without a cosigned row is not settled, unless its batch still claims it. */
  lemma BoardingRead(s: State, th: Thread)
    requires BatchHandoff(s.hist, s.cache.claims, s.db.spent, s.db.cosignedRows)
    requires RowsInv(s.hist, s.cache.claims, s.db.tracked, s.db.unrolled) && Scoped(s.hist, s.cache)
    requires th.Register? && th.rpc == RegReadCosigned && RegisterKnows(s.db, s.cache, s.hist, th)
    requires th.boardIns !! s.db.cosignedRows
    ensures BoardingChecked(s.db, s.cache, s.hist, th.(rpc := RegLockOffchain))
  {
    var ops := th.ins - th.vtxoIns;
    forall i, op | i in s.hist.settled && op in Ins(s.hist.inputs, i) && op in ops
      ensures op in s.cache.claims
    {
      assert op !in s.db.tracked && op in th.boardIns;
    }
  }

  lemma RowsReread(s: State, th: Thread)
    requires BatchHandoff(s.hist, s.cache.claims, s.db.spent, s.db.cosignedRows)
    requires RowsInv(s.hist, s.cache.claims, s.db.tracked, s.db.unrolled) && Scoped(s.hist, s.cache)
    requires th.Register? && th.rpc == RegRereadRows && RegisterKnows(s.db, s.cache, s.hist, th)
    requires th.vtxoIns !! s.db.spent
    ensures RowsChecked(s.db, s.cache, s.hist, th.(rpc := RegReadPending))
  {
    forall i, op | i in s.hist.settled && op in Ins(s.hist.inputs, i) && op in th.vtxoIns
      ensures op in s.cache.claims
    {
      assert op in s.db.tracked;
    }
  }

  lemma RegisterReadKnows(s: State, t: Tid, ok: bool)
    requires Scoped(s.hist, s.cache) && RowsInv(s.hist, s.cache.claims, s.db.tracked, s.db.unrolled)
    requires OffchainHandoff(s.hist, s.cache.txs, s.db.spent)
    requires CosignHandoff(s.hist, s.cache.cosigning, s.db.cosignedRows)
    requires BatchHandoff(s.hist, s.cache.claims, s.db.spent, s.db.cosignedRows)
    requires t in s.threads && s.threads[t].Register? && (ok ==> CanAcquire(s, t))
    requires s.threads[t].rpc != RegReadRows && s.threads[t].rpc != RegPush
    requires RegisterKnows(s.db, s.cache, s.hist, s.threads[t])
    ensures RegisterKnows(s.db, s.cache, s.hist, RegisterStep(s, t, ok).threads[t])
  {
    hide RowsInv, OffchainHandoff, CosignHandoff, BatchHandoff, Scoped, AcceptedSpent, CosignedHasRow;
    var th, s' := s.threads[t], RegisterStep(s, t, ok);
    var pc' := s'.threads[t].rpc;
    if th.rpc == RegReadCosigning && pc' == RegReadCosigned {
      CosigningMiss(s, th.boardIns);
    } else if th.rpc == RegReadCosigned && pc' == RegLockOffchain {
      BoardingRead(s, th);
    } else if th.rpc == RegReadCache && pc' == RegRereadRows {
      CacheMiss(s, th.vtxoIns);
    } else if th.rpc == RegRereadRows && pc' == RegReadPending {
      RowsReread(s, th);
    } else if th.rpc == RegReadPending && pc' == RegReadCosignedRows {
      CosigningMiss(s, th.vtxoIns);
    } else if th.rpc == RegReadCosignedRows && pc' == RegPush {
      NoRowNotCosigned(s, th.vtxoIns);
    }
  }

  lemma RegisterQuiet(s: State, t: Tid, ok: bool)
    requires t in s.threads && s.threads[t].Register? && (ok ==> CanAcquire(s, t)) && !Finished(s.threads[t])
    requires Progress(s.hist, s.log, t, s.threads[t])
    requires s.threads[t].rpc == RegReadRows ==> RegisterStep(s, t, ok).threads[t].rpc == RegEnd
    requires s.threads[t].rpc == RegPush ==> !ok || !PushAllowed(s, t, s.threads[t].ins)
    ensures SameStores(s, RegisterStep(s, t, ok))
    ensures Progress(s.hist, s.log, t, RegisterStep(s, t, ok).threads[t])
  {
  }

  predicate BeforeBoardingChecked(pc: RegisterPc) {
    pc == RegLockCosign || pc == RegReadCosigning || pc == RegReadCosigned
  }

  lemma RegisterLocks(s: State, t: Tid, ok: bool)
    requires t in s.threads && s.threads[t].Register? && (ok ==> CanAcquire(s, t)) && !Finished(s.threads[t])
    requires BeforeBoardingChecked(s.threads[t].rpc) ==> s.threads[t].boardIns != {}
    requires s.threads[t].rpc == RegReadRows ==> RegisterStep(s, t, ok).threads[t].rpc == RegEnd
    requires s.threads[t].rpc == RegPush ==> !ok || !PushAllowed(s, t, s.threads[t].ins)
    ensures LocksFollow(s, RegisterStep(s, t, ok), t)
  {
    hide LocksFollow, PushAllowed, CacheIncludesAny;
    if HoldsOffchain(s.threads[t]) {
      RegisterLocksInside(s, t, ok);
    } else if s.threads[t].rpc == RegReadRows {
      RegisterLocksRefused(s, t, ok);
    } else if s.threads[t].rpc == RegBegin {
      RegisterLocksBegin(s, t, ok);
    } else if s.threads[t].rpc == RegEnd {
      RegisterLocksEnd(s, t, ok);
    } else {
      RegisterLocksOutside(s, t, ok);
    }
  }

  lemma RegisterLocksBegin(s: State, t: Tid, ok: bool)
    requires t in s.threads && s.threads[t].Register? && (ok ==> CanAcquire(s, t)) && s.threads[t].rpc == RegBegin
    ensures LocksFollow(s, RegisterStep(s, t, ok), t)
  {
    hide PushAllowed, CacheIncludesAny, RegReadRowsStep, PushStep;
  }

  lemma RegisterLocksEnd(s: State, t: Tid, ok: bool)
    requires t in s.threads && s.threads[t].Register? && (ok ==> CanAcquire(s, t)) && s.threads[t].rpc == RegEnd
    ensures LocksFollow(s, RegisterStep(s, t, ok), t)
  {
    hide PushAllowed, CacheIncludesAny, RegReadRowsStep, PushStep;
  }

  lemma RegisterLocksRefused(s: State, t: Tid, ok: bool)
    requires t in s.threads && s.threads[t].Register? && s.threads[t].rpc == RegReadRows
    requires RegisterStep(s, t, ok).threads[t].rpc == RegEnd
    ensures LocksFollow(s, RegisterStep(s, t, ok), t)
  {
    assert RegisterStep(s, t, ok) == SetR(s, t, RegEnd);
    hide RegisterStep;
  }

  lemma RegisterLocksInside(s: State, t: Tid, ok: bool)
    requires t in s.threads && s.threads[t].Register? && (ok ==> CanAcquire(s, t)) && HoldsOffchain(s.threads[t])
    requires s.threads[t].rpc == RegPush ==> !ok || !PushAllowed(s, t, s.threads[t].ins)
    ensures LocksFollow(s, RegisterStep(s, t, ok), t)
  {
    hide PushAllowed, CacheIncludesAny, RegReadRowsStep, PushStep;
  }

  lemma RegisterLocksOutside(s: State, t: Tid, ok: bool)
    requires t in s.threads && s.threads[t].Register? && (ok ==> CanAcquire(s, t)) && !Finished(s.threads[t])
    requires !HoldsOffchain(s.threads[t]) && s.threads[t].rpc != RegReadRows && s.threads[t].rpc != RegBegin
    requires s.threads[t].rpc != RegEnd
    requires BeforeBoardingChecked(s.threads[t].rpc) ==> s.threads[t].boardIns != {}
    ensures LocksFollow(s, RegisterStep(s, t, ok), t)
  {
    hide PushAllowed, CacheIncludesAny, RegReadRowsStep, PushStep;
  }

  lemma RegisterQuietInv(s: State, t: Tid, ok: bool)
    requires Inv(s) && Enabled(s, Step(t, ok)) && s.threads[t].Register?
    requires s.threads[t].rpc == RegReadRows ==> RegisterStep(s, t, ok).threads[t].rpc == RegEnd
    requires s.threads[t].rpc == RegPush ==> !ok || !PushAllowed(s, t, s.threads[t].ins)
    ensures Inv(RegisterStep(s, t, ok))
  {
    hide LockInv, Scoped, LogScoped, RowsInv, OffchainHandoff, CosignHandoff, BatchHandoff, ClaimsInv,
         LandedInv, InflightInv, RoundInv, Exclusive, SubmitKnows, RegisterKnows, CosignKnows, Progress,
         LocksFollow;
    var th, s' := s.threads[t], RegisterStep(s, t, ok);
    assert Knows(s.db, s.cache, s.hist, th) && Progress(s.hist, s.log, t, th);
    RegisterQuiet(s, t, ok);
    HasBoarding(s.db, s.cache, s.hist, th);
    RegisterLocks(s, t, ok);
    if th.rpc == RegReadRows || th.rpc == RegPush {
      LateKnows(s.db, s.cache, s.hist, s'.threads[t]);
    } else {
      RegisterReadKnows(s, t, ok);
    }
    QuietInv(s, s', t);
  }

  lemma HasBoarding(db: Db, cache: Cache, h: Hist, th: Thread)
    requires th.Register? && RegisterKnows(db, cache, h, th)
    ensures th.rpc in {RegLockCosign, RegReadCosigning, RegReadCosigned} ==> th.boardIns != {}
  {
    hide Classified, BoardingChecked, RowsChecked, CosignedHasRow, NotCosigned, AcceptedSpent;
  }

  lemma LateKnows(db: Db, cache: Cache, h: Hist, th: Thread)
    requires th.Register? && (th.rpc == RegEnd || th.rpc == RegUnlockOffchain)
    ensures RegisterKnows(db, cache, h, th)
  {
  }

  // The first read of the rows tells the vtxo inputs from the boarding inputs.

  lemma RegReadRowsOwn(s: State, t: Tid)
    requires t in s.threads && s.threads[t].Register? && s.threads[t].rpc == RegReadRows
    requires Progress(s.hist, s.log, t, s.threads[t])
    ensures var s' := RegReadRowsStep(s, t);
            && Knows(s'.db, s'.cache, s'.hist, s'.threads[t]) && Progress(s'.hist, s'.log, t, s'.threads[t])
            && LocksFollow(s, s', t) && s'.hist.inputs == s.hist.inputs
  {
  }

  lemma RegReadRowsInv(s: State, t: Tid)
    requires Inv(s) && t in s.threads && s.threads[t].Register? && s.threads[t].rpc == RegReadRows
    ensures Inv(RegReadRowsStep(s, t))
  {
    hide LockInv, DataInv, Knows, Progress, LocksFollow;
    assert Progress(s.hist, s.log, t, s.threads[t]);
    RegReadRowsOwn(s, t);
    QuietInv(s, RegReadRowsStep(s, t), t);
  }

  // Push.

  /** At the push no input is held by anyone: this is where the registration fence pays off. */
  lemma PushIsExclusive(s: State, t: Tid)
    requires Scoped(s.hist, s.cache) && RowsInv(s.hist, s.cache.claims, s.db.tracked, s.db.unrolled)
    requires ClaimsInv(s.hist, s.cache.queue, s.cache.claims, s.usedBatches)
    requires t in s.threads && s.threads[t].Register? && s.threads[t].rpc == RegPush
    requires RegisterKnows(s.db, s.cache, s.hist, s.threads[t]) && t !in s.hist.pushed
    requires PushAllowed(s, t, s.threads[t].ins)
    ensures s.threads[t].ins !! s.cache.claims.Keys
    ensures NotSettled(s.hist, s.threads[t].ins)
    ensures NotAccepted(s.hist, s.threads[t].ins)
    ensures NotCosigned(s.hist, s.threads[t].ins)
  {
    var th := s.threads[t];
    assert th.ins == th.vtxoIns + (th.ins - th.vtxoIns);
  }

  function PushClaims(claims: Claims, ops: set<Outpoint>, t: Tid): Claims {
    claims + map op | op in ops :: Queued(t)
  }

  lemma PushExclusive(h: Hist, claims: Claims, tracked: set<Outpoint>, t: Tid, ops: set<Outpoint>, vtxoIns: set<Outpoint>)
    requires Exclusive(h, claims, tracked)
    requires NotSettled(h, ops) && NotAccepted(h, ops) && NotCosigned(h, ops)
    ensures Exclusive(h.(pushed := h.pushed[t := vtxoIns]), PushClaims(claims, ops, t), tracked)
  {
  }

  lemma PushFrame(s: State, t: Tid, ops: set<Outpoint>, vtxoIns: set<Outpoint>)
    requires DataInv(s) && t !in s.hist.pushed && Ins(s.hist.inputs, t) == ops && ops !! s.cache.claims.Keys
    ensures var h' := s.hist.(pushed := s.hist.pushed[t := vtxoIns]);
            && BatchHandoff(h', PushClaims(s.cache.claims, ops, t), s.db.spent, s.db.cosignedRows)
            && ClaimsInv(h', s.cache.queue + {t}, PushClaims(s.cache.claims, ops, t), s.usedBatches)
            && LandedInv(h', s.db, s.log)
            && RoundInv(h', PushClaims(s.cache.claims, ops, t), s.log, s.usedBatches, s.round)
            && QueueInv(s.cache.queue + {t}, s.round)
  {
    hide LogScoped, InflightInv, RowsInv, OffchainHandoff, CosignHandoff, Exclusive;
    var h' := s.hist.(pushed := s.hist.pushed[t := vtxoIns]);
    assert forall i :: i in s.hist.settled ==> VtxoIns(h'.pushed, i) == VtxoIns(s.hist.pushed, i);
  }

  lemma PushData(s: State, t: Tid, ops: set<Outpoint>, vtxoIns: set<Outpoint>)
    requires DataInv(s) && t in s.hist.inputs && t !in s.hist.pushed
    requires Ins(s.hist.inputs, t) == ops && ops !! s.cache.claims.Keys
    requires NotSettled(s.hist, ops) && NotAccepted(s.hist, ops) && NotCosigned(s.hist, ops)
    requires vtxoIns <= s.db.tracked && vtxoIns <= ops && ops - vtxoIns !! s.db.tracked
    ensures DataInv(s.(cache := s.cache.(queue := s.cache.queue + {t}, claims := PushClaims(s.cache.claims, ops, t)),
                       hist := s.hist.(pushed := s.hist.pushed[t := vtxoIns])))
  {
    hide Exclusive, RoundInv, LandedInv, ClaimsInv, BatchHandoff, NotSettled, NotAccepted, NotCosigned;
    PushExclusive(s.hist, s.cache.claims, s.db.tracked, t, ops, vtxoIns);
    PushFrame(s, t, ops, vtxoIns);
  }

  lemma PushRely(s: State, s': State, th: Thread, t: Tid)
    requires !HoldsOffchain(th)
    requires s'.db == s.db && s.cache.claims.Keys <= s'.cache.claims.Keys
    requires s'.cache == s.cache.(queue := s'.cache.queue, claims := s'.cache.claims)
    requires s'.hist == s.hist.(pushed := s'.hist.pushed)
    ensures Rely(s, s', th)
  {
  }

  lemma PushLocks(s: State, t: Tid)
    requires t in s.threads && s.threads[t].Register? && s.threads[t].rpc == RegPush
    ensures LocksFollow(s, PushStep(s, t), t)
  {
  }

  lemma PushOthers(s: State, t: Tid)
    requires LockInv(s)
    requires t in s.threads && s.threads[t].Register? && s.threads[t].rpc == RegPush
    ensures OthersStable(s, PushStep(s, t), t)
  {
    hide LockInv, Rely;
    var s' := PushStep(s, t);
    OnlyOffchainHolder(s, t);
    forall u | u in s.threads && u != t ensures Rely(s, s', s.threads[u]) && Untouched(s, s', u) {
      PushRely(s, s', s.threads[u], t);
    }
  }

  lemma PushOwn(s: State, t: Tid)
    requires t in s.threads && s.threads[t].Register? && s.threads[t].rpc == RegPush
    requires Progress(s.hist, s.log, t, s.threads[t])
    ensures var s' := PushStep(s, t);
            && Knows(s'.db, s'.cache, s'.hist, s'.threads[t]) && Progress(s'.hist, s'.log, t, s'.threads[t])
            && s'.threads == s.threads[t := s'.threads[t]] && s'.hist.inputs == s.hist.inputs
  {
  }

  lemma PushStores(s: State, t: Tid)
    requires DataInv(s) && t in s.threads && s.threads[t].Register? && s.threads[t].rpc == RegPush
    requires RegisterKnows(s.db, s.cache, s.hist, s.threads[t]) && Progress(s.hist, s.log, t, s.threads[t])
    requires PushAllowed(s, t, s.threads[t].ins)
    ensures DataInv(PushStep(s, t))
  {
    hide OffchainHandoff, CosignHandoff, BatchHandoff, LandedInv, Scoped, ClaimsInv, RowsInv, InflightInv,
         RoundInv, Exclusive, LogScoped, NotSettled, NotAccepted, NotCosigned, SettledClaimed, PushAllowed;
    var th := s.threads[t];
    PushIsExclusive(s, t);
    PushData(s, t, th.ins, th.vtxoIns);
    DataInvSame(s.(cache := s.cache.(queue := s.cache.queue + {t}, claims := PushClaims(s.cache.claims, th.ins, t)),
                   hist := s.hist.(pushed := s.hist.pushed[t := th.vtxoIns])), PushStep(s, t));
  }

  lemma PushInv(s: State, t: Tid)
    requires Inv(s) && t in s.threads && s.threads[t].Register? && s.threads[t].rpc == RegPush
    requires PushAllowed(s, t, s.threads[t].ins)
    ensures Inv(PushStep(s, t))
  {
    hide LockInv, OthersStable, RowsInv, OffchainHandoff, CosignHandoff, BatchHandoff, LandedInv, Scoped,
         ClaimsInv, InflightInv, RoundInv, Exclusive, LogScoped, RegisterKnows, Progress, PushAllowed,
         LocksFollow;
    var th, s' := s.threads[t], PushStep(s, t);
    assert Knows(s.db, s.cache, s.hist, th) && Progress(s.hist, s.log, t, th);
    PushLocks(s, t);
    LockStep(s, s', t);
    PushStores(s, t);
    PushOthers(s, t);
    PushOwn(s, t);
    Compose(s, s', t);
  }

  lemma RegisterInv(s: State, t: Tid, ok: bool)
    requires Inv(s) && Enabled(s, Step(t, ok)) && s.threads[t].Register?
    ensures Inv(RegisterStep(s, t, ok))
  {
    hide LockInv, DataInv, Knows, Progress;
    var th := s.threads[t];
    if th.rpc == RegReadRows && ok && th.ins * s.db.tracked !! s.db.spent {
      RegReadRowsInv(s, t);
    } else if th.rpc == RegPush && ok && PushAllowed(s, t, th.ins) {
      PushInv(s, t);
    } else {
      RegisterQuietInv(s, t, ok);
    }
  }
}
