/**
 When a request gets through. A request that runs alone from where it stands reaches its end, and it is
 accepted exactly if its inputs are free; otherwise it leaves no trace.
 */
module ClaimOutcomes {
  import opened Outpoints
  import opened ClaimProtocol
  import opened ClaimInvariant
  import opened ClaimRuns
  import opened ClaimTheorems
  import opened ClaimProgress

  /** Own steps of t lead from s0 to s. */
  ghost predicate Leads(s0: State, t: Tid, run: seq<Action>, s: State) {
    ValidRun(s0, run) && Run(s0, run) == s && forall i :: 0 <= i < |run| ==> run[i] == Step(t, true)
  }

  lemma Stays(s: State, t: Tid)
    ensures Leads(s, t, [], s)
  {
  }

  lemma GoesOn(s0: State, t: Tid, run: seq<Action>, s: State)
    requires Leads(s0, t, run, s) && Enabled(s, Step(t, true))
    ensures Leads(s0, t, run + [Step(t, true)], Do(s, Step(t, true)))
  {
    hide Do, Enabled;
    var next := [Step(t, true)];
    assert ValidRun(s, next) && Run(s, next) == Do(s, Step(t, true));
    RunConcat(s0, run, next);
  }

  /** No cached offchain tx spends one of the outpoints. */
  ghost predicate Uncached(s: State, ops: set<Outpoint>) {
    forall u, op :: u in s.cache.txs && op in Ins(s.hist.inputs, u) ==> op !in ops
  }

  lemma UncachedMeans(s: State, ops: set<Outpoint>)
    ensures CacheIncludesAny(s, ops) <==> !Uncached(s, ops)
  {
    if !Uncached(s, ops) {
      var u, op :| u in s.cache.txs && op in Ins(s.hist.inputs, u) && op in ops;
      assert op in Ins(s.hist.inputs, u) * ops;
    }
  }

  // Submissions.

  ghost predicate FreeToSpend(s: State, ins: set<Outpoint>) {
    && Uncached(s, ins) && ins !! s.cache.claims.Keys
    && ins <= s.db.tracked && ins !! s.db.spent && ins !! s.db.unrolled
  }

  function Submitting(s: State, t: Tid, pc: SubmitPc, mu: Option<Tid>): State
    requires t in s.threads && s.threads[t].Submit?
  {
    s.(threads := s.threads[t := Submit(s.threads[t].ins, pc)], offchainMu := mu)
  }

  function Accepting(s: State, t: Tid): State {
    s.(cache := s.cache.(txs := s.cache.txs + {t}), hist := s.hist.(accepted := s.hist.accepted + {t}))
  }

  function Saving(s: State, t: Tid): State {
    s.(log := s.log.(savedTxs := s.log.savedTxs + {t}))
  }

  /** The submission t, alone since s0, is where s says, with what it has found out so far. */
  ghost predicate SubmitAt(s0: State, s: State, t: Tid) {
    && t in s0.threads && s0.threads[t].Submit? && t in s.threads && s.threads[t].Submit?
    && t !in s0.hist.accepted && t !in s0.log.savedTxs
    && var ins, pc := s0.threads[t].ins, s.threads[t].spc;
       match pc
       case SubmitLock => s == Submitting(s0, t, pc, None)
       case SubmitReadCache => s == Submitting(s0, t, pc, Some(t))
       case SubmitReadClaims => s == Submitting(s0, t, pc, Some(t)) && Uncached(s0, ins)
       case SubmitReadRows =>
         s == Submitting(s0, t, pc, Some(t)) && Uncached(s0, ins) && ins !! s0.cache.claims.Keys
       case SubmitAdd => s == Submitting(s0, t, pc, Some(t)) && FreeToSpend(s0, ins)
       case SubmitSave => s == Accepting(Submitting(s0, t, pc, Some(t)), t) && FreeToSpend(s0, ins)
       case SubmitUnlock =>
         if FreeToSpend(s0, ins) then s == Accepting(Submitting(s0, t, pc, Some(t)), t)
         else s == Submitting(s0, t, pc, Some(t))
       case SubmitSaveLater => s == Accepting(Submitting(s0, t, pc, None), t) && FreeToSpend(s0, ins)
       case SubmitDone =>
         if FreeToSpend(s0, ins) then s == Saving(Accepting(Submitting(s0, t, pc, None), t), t)
         else s == Submitting(s0, t, pc, None)
  }

  lemma SubmitReads(s0: State, s: State, t: Tid)
    requires SubmitAt(s0, s, t) && (s.threads[t].spc.SubmitLock? || s.threads[t].spc.SubmitReadCache?
                                    || s.threads[t].spc.SubmitReadClaims? || s.threads[t].spc.SubmitReadRows?)
    ensures CanAcquire(s, t) && SubmitAt(s0, SubmitStep(s, t, true), t)
  {
    UncachedMeans(s, s0.threads[t].ins);
    hide CacheIncludesAny;
    assert Uncached(s, s0.threads[t].ins) <==> Uncached(s0, s0.threads[t].ins);
    hide Uncached;
    var s' := SubmitStep(s, t, true);
    assert s'.threads == s0.threads[t := s'.threads[t]];
  }

  lemma SubmitWrites(s0: State, s: State, t: Tid)
    requires SubmitAt(s0, s, t) && (s.threads[t].spc.SubmitAdd? || s.threads[t].spc.SubmitSave?
                                    || s.threads[t].spc.SubmitUnlock? || s.threads[t].spc.SubmitSaveLater?)
    ensures CanAcquire(s, t) && SubmitAt(s0, SubmitStep(s, t, true), t)
  {
    UncachedMeans(s, s0.threads[t].ins);
    hide CacheIncludesAny;
    assert s.threads[t].spc.SubmitAdd? ==> Uncached(s, s0.threads[t].ins);
    hide Uncached;
    var s' := SubmitStep(s, t, true);
    assert s'.threads == s0.threads[t := s'.threads[t]];
  }

  lemma SubmitMoves(s0: State, s: State, t: Tid)
    requires SubmitAt(s0, s, t) && s.threads[t].spc != SubmitDone
    ensures CanStep(s, t) && Enabled(s, Step(t, true)) && SubmitAt(s0, Do(s, Step(t, true)), t)
  {
    hide SubmitAt, SubmitStep;
    assert t in s.threads && s.threads[t].Submit? by { IsSubmission(s0, s, t); }
    match s.threads[t].spc
    case SubmitAdd | SubmitSave | SubmitUnlock | SubmitSaveLater => SubmitWrites(s0, s, t);
    case _ => SubmitReads(s0, s, t);
  }

  lemma IsSubmission(s0: State, s: State, t: Tid)
    requires SubmitAt(s0, s, t)
    ensures t in s.threads && s.threads[t].Submit?
  {
  }

  lemma {:induction false} Submits(s0: State, t: Tid, run: seq<Action>, s: State) returns (own: seq<Action>, end: State)
    requires Leads(s0, t, run, s) && SubmitAt(s0, s, t)
    ensures Leads(s0, t, own, end) && SubmitAt(s0, end, t) && end.threads[t].spc == SubmitDone
    decreases Rank(s.threads[t])
  {
    hide Leads, SubmitAt, Do, Enabled, Rank;
    IsSubmission(s0, s, t);
    if s.threads[t].spc == SubmitDone {
      return run, s;
    }
    SubmitMoves(s0, s, t);
    RanksByStep(s, t);
    GoesOn(s0, t, run, s);
    own, end := Submits(s0, t, run + [Step(t, true)], Do(s, Step(t, true)));
  }

  lemma RanksByStep(s: State, t: Tid)
    requires CanStep(s, t) && Enabled(s, Step(t, true))
    ensures t in Do(s, Step(t, true)).threads && Rank(Do(s, Step(t, true)).threads[t]) < Rank(s.threads[t])
  {
    hide ThreadStep, Rank;
    StepRanksDown(s, t);
  }

  /**
   A submission that has the offchain mutex, or finds it free, is accepted, cached and saved exactly if
   no cached tx spends one of its inputs and all of them are unclaimed vtxos, neither spent nor unrolled.
   */
  lemma SubmissionOutcome(s0: State, before: seq<Action>, t: Tid) returns (own: seq<Action>)
    requires Init(s0) && ValidRun(s0, before)
    requires var s := Run(s0, before);
             t in s.threads && (s.threads[t] == Submit(s.threads[t].ins, SubmitReadCache)
                                || (s.threads[t] == Submit(s.threads[t].ins, SubmitLock) && s.offchainMu.None?))
    ensures var s := Run(s0, before);
            (forall i :: 0 <= i < |own| ==> own[i] == Step(t, true)) && ValidRun(s, own)
    ensures var s := Run(s0, before); var s', ins := Run(s, own), s.threads[t].ins;
            var free := && (forall u, op :: u in s.cache.txs && op in Ins(s.hist.inputs, u) ==> op !in ins)
                        && ins !! s.cache.claims.Keys
                        && ins <= s.db.tracked && ins !! s.db.spent && ins !! s.db.unrolled;
            && t !in s.hist.accepted && t !in s.cache.txs && t !in s.log.savedTxs
            && s'.hist == s.hist.(accepted := s.hist.accepted + if free then {t} else {})
            && s'.cache == s.cache.(txs := s.cache.txs + if free then {t} else {})
            && s'.log == s.log.(savedTxs := s.log.savedTxs + if free then {t} else {})
            && s'.db == s.db && s'.offchainMu.None? && s'.threads == s.threads[t := Submit(ins, SubmitDone)]
  {
    var s := Run(s0, before);
    ReachableInv(s0, before);
    SubmissionStarts(s, t);
    hide Inv, Init, SubmitAt;
    Stays(s, t);
    var end;
    own, end := Submits(s, t, [], s);
    SubmissionEnds(s, end, t);
  }

  lemma SubmissionStarts(s: State, t: Tid)
    requires Inv(s) && t in s.threads
    requires s.threads[t] == Submit(s.threads[t].ins, SubmitReadCache)
             || (s.threads[t] == Submit(s.threads[t].ins, SubmitLock) && s.offchainMu.None?)
    ensures SubmitAt(s, s, t) && t !in s.cache.txs
  {
    hide RowsInv, OffchainHandoff, CosignHandoff, BatchHandoff, ClaimsInv, LandedInv, InflightInv, RoundInv, QueueInv,
         Exclusive, Knows;
    assert Progress(s.hist, s.log, t, s.threads[t]);
    assert s.threads == s.threads[t := s.threads[t]];
    assert HoldsOffchain(s.threads[t]) ==> s.offchainMu == Some(t);
  }

  lemma SubmissionEnds(s: State, end: State, t: Tid)
    requires SubmitAt(s, end, t) && end.threads[t].spc == SubmitDone
    ensures var ins := s.threads[t].ins;
            var free := FreeToSpend(s, ins);
            && t !in s.hist.accepted && t !in s.log.savedTxs
            && end.hist == s.hist.(accepted := s.hist.accepted + if free then {t} else {})
            && end.cache == s.cache.(txs := s.cache.txs + if free then {t} else {})
            && end.log == s.log.(savedTxs := s.log.savedTxs + if free then {t} else {})
            && end.db == s.db && end.offchainMu.None? && end.threads == s.threads[t := Submit(ins, SubmitDone)]
  {
    hide FreeToSpend;
    assert s.hist.accepted + {} == s.hist.accepted && s.cache.txs + {} == s.cache.txs && s.log.savedTxs + {} == s.log.savedTxs;
  }

  /**
   A one-shot submission that is in the cache: once its events are saved it stays accepted; if they cannot be
   saved it is taken back as if it had never been accepted.
   */
  lemma OneShotOutcome(s0: State, before: seq<Action>, t: Tid, ok: bool)
    requires Init(s0) && ValidRun(s0, before)
    requires var s := Run(s0, before); t in s.threads && s.threads[t] == Submit(s.threads[t].ins, SubmitSave)
    ensures var s := Run(s0, before); var run := [SaveOneShot(t, ok), Step(t, true)];
            && ValidRun(s, run) && t in s.hist.accepted && t !in s.log.savedTxs
            && var s' := Run(s, run);
            && s'.hist == s.hist.(accepted := if ok then s.hist.accepted else s.hist.accepted - {t})
            && s'.cache == s.cache.(txs := if ok then s.cache.txs else s.cache.txs - {t})
            && s'.log == s.log.(savedTxs := if ok then s.log.savedTxs + {t} else s.log.savedTxs)
            && s'.db == s.db && s'.offchainMu.None? && s'.threads == s.threads[t := Submit(s.threads[t].ins, SubmitDone)]
  {
    var s := Run(s0, before);
    ReachableInv(s0, before);
    assert t in s.hist.accepted && t !in s.log.savedTxs by {
      assert Progress(s.hist, s.log, t, s.threads[t]);
    }
    hide Inv, Init;
    OneShotEnds(s, t, ok);
    TwoSteps(s, SaveOneShot(t, ok), Step(t, true));
  }

  lemma OneShotEnds(s: State, t: Tid, ok: bool)
    requires t in s.threads && s.threads[t] == Submit(s.threads[t].ins, SubmitSave)
    requires t in s.hist.accepted && t !in s.log.savedTxs
    ensures Enabled(s, SaveOneShot(t, ok)) && Enabled(Do(s, SaveOneShot(t, ok)), Step(t, true))
    ensures var s' := Do(Do(s, SaveOneShot(t, ok)), Step(t, true));
            && s'.hist == s.hist.(accepted := if ok then s.hist.accepted else s.hist.accepted - {t})
            && s'.cache == s.cache.(txs := if ok then s.cache.txs else s.cache.txs - {t})
            && s'.log == s.log.(savedTxs := if ok then s.log.savedTxs + {t} else s.log.savedTxs)
            && s'.db == s.db && s'.offchainMu.None? && s'.threads == s.threads[t := Submit(s.threads[t].ins, SubmitDone)]
  {
    hide RegisterStep, CosignStep, RoundStep, BackgroundStep, CacheIncludesAny;
    var s1 := Do(s, SaveOneShot(t, ok));
    assert s1.threads[t] == Submit(s.threads[t].ins, SubmitUnlock);
  }

  lemma OneStep(s: State, a: Action)
    requires Enabled(s, a)
    ensures ValidRun(s, [a]) && Run(s, [a]) == Do(s, a)
  {
    hide Do, Enabled;
  }

  lemma TwoSteps(s: State, a: Action, b: Action)
    requires Enabled(s, a) && Enabled(Do(s, a), b)
    ensures ValidRun(s, [a, b]) && Run(s, [a, b]) == Do(Do(s, a), b)
  {
    hide Do, Enabled;
    assert [a, b][1..] == [b];
    assert ValidRun(Do(s, a), [b]) && Run(Do(s, a), [b]) == Do(Do(s, a), b);
  }

  // Cosigns.

  ghost predicate FreeToCosign(s: State, ins: set<Outpoint>) {
    && ins !! s.cache.cosigning && ins !! s.db.cosignedRows && Uncached(s, ins) && ins !! s.cache.claims.Keys
    && ins * s.db.tracked <= s.db.unrolled && ins * s.db.tracked !! s.db.spent
  }

  function CosignIn(s: State, t: Tid, pc: CosignPc, mu: Option<Tid>, off: Option<Tid>): State
    requires t in s.threads && s.threads[t].Cosign?
  {
    s.(threads := s.threads[t := Cosign(s.threads[t].ins, pc)], cosignMu := mu, offchainMu := off)
  }

  function Reserving(s: State, ins: set<Outpoint>): State {
    s.(cache := s.cache.(cosigning := s.cache.cosigning + ins))
  }

  function Passing(s: State, t: Tid): State {
    s.(hist := s.hist.(cosigned := s.hist.cosigned + {t}))
  }

  function Broadcasting(s: State, t: Tid): State {
    s.(log := s.log.(savedCosigns := s.log.savedCosigns + {t}))
  }

  ghost predicate CosignAt(s0: State, s: State, t: Tid) {
    && t in s0.threads && s0.threads[t].Cosign? && t in s.threads && s.threads[t].Cosign?
    && var ins, pc := s0.threads[t].ins, s.threads[t].cpc;
       match pc
       case CosLock => s == CosignIn(s0, t, pc, None, None)
       case CosAdd => s == CosignIn(s0, t, pc, Some(t), None)
       case CosReadRows => s == Reserving(CosignIn(s0, t, pc, Some(t), None), ins) && ins !! s0.cache.cosigning
       case CosLockOffchain =>
         && s == Reserving(CosignIn(s0, t, pc, Some(t), None), ins)
         && ins !! s0.cache.cosigning && ins !! s0.db.cosignedRows
       case CosReadCache =>
         && s == Reserving(CosignIn(s0, t, pc, Some(t), Some(t)), ins)
         && ins !! s0.cache.cosigning && ins !! s0.db.cosignedRows
       case CosReadClaims =>
         && s == Reserving(CosignIn(s0, t, pc, Some(t), Some(t)), ins)
         && ins !! s0.cache.cosigning && ins !! s0.db.cosignedRows && Uncached(s0, ins)
       case CosReadVtxos =>
         && s == Reserving(CosignIn(s0, t, pc, Some(t), Some(t)), ins)
         && ins !! s0.cache.cosigning && ins !! s0.db.cosignedRows && Uncached(s0, ins) && ins !! s0.cache.claims.Keys
       case CosReadCheckpoints =>
         s == Reserving(CosignIn(s0, t, pc, Some(t), Some(t)), ins) && FreeToCosign(s0, ins)
       case CosUnlockOffchain =>
         s == Passing(Reserving(CosignIn(s0, t, pc, Some(t), Some(t)), ins), t) && FreeToCosign(s0, ins)
       case CosUnlock => s == Passing(Reserving(CosignIn(s0, t, pc, Some(t), None), ins), t) && FreeToCosign(s0, ins)
       case CosBroadcast => s == Passing(Reserving(CosignIn(s0, t, pc, None, None), ins), t) && FreeToCosign(s0, ins)
       case CosFailOffchain =>
         && s == Reserving(CosignIn(s0, t, pc, Some(t), Some(t)), ins)
         && ins !! s0.cache.cosigning && !FreeToCosign(s0, ins)
       case CosRollback =>
         && s == Reserving(CosignIn(s0, t, pc, Some(t), None), ins)
         && ins !! s0.cache.cosigning && !FreeToCosign(s0, ins)
       case CosFailUnlock => s == CosignIn(s0, t, pc, Some(t), None) && !FreeToCosign(s0, ins)
       case CosRelease => false
       case CosDone =>
         if FreeToCosign(s0, ins)
         then s == Broadcasting(Passing(Reserving(CosignIn(s0, t, pc, None, None), ins), t), t)
         else s == CosignIn(s0, t, pc, None, None)
  }

  predicate CosReads(pc: CosignPc) {
    pc.CosReadRows? || pc.CosReadCache? || pc.CosReadClaims? || pc.CosReadVtxos?
  }

  lemma CosignReads(s0: State, s: State, t: Tid)
    requires CosignAt(s0, s, t) && CosReads(s.threads[t].cpc)
    ensures CanAcquire(s, t) && CosignAt(s0, CosignStep(s, t, true), t)
  {
    var ins := s0.threads[t].ins;
    UncachedMeans(s, ins);
    hide CacheIncludesAny;
    assert Uncached(s, ins) <==> Uncached(s0, ins);
    hide Uncached;
    assert s.threads[t].ins == ins;
    var s' := CosignStep(s, t, true);
    assert s'.threads == s0.threads[t := s'.threads[t]];
  }

  lemma CosignLocks(s0: State, s: State, t: Tid)
    requires CosignAt(s0, s, t) && (s.threads[t].cpc.CosLock? || s.threads[t].cpc.CosAdd? || s.threads[t].cpc.CosLockOffchain?)
    ensures CanAcquire(s, t) && CosignAt(s0, CosignStep(s, t, true), t)
  {
    hide CacheIncludesAny, Uncached;
    assert s.threads[t].ins == s0.threads[t].ins;
    var s' := CosignStep(s, t, true);
    assert s'.threads == s0.threads[t := s'.threads[t]];
  }

  lemma CosignUnlocks(s0: State, s: State, t: Tid)
    requires CosignAt(s0, s, t)
    requires s.threads[t].cpc.CosReadCheckpoints? || s.threads[t].cpc.CosUnlockOffchain? || s.threads[t].cpc.CosUnlock?
             || s.threads[t].cpc.CosBroadcast?
    ensures CanAcquire(s, t) && CosignAt(s0, CosignStep(s, t, true), t)
  {
    hide CacheIncludesAny, FreeToCosign;
    assert s.threads[t].ins == s0.threads[t].ins;
    var s' := CosignStep(s, t, true);
    assert s'.threads == s0.threads[t := s'.threads[t]];
  }

  lemma CosignFails(s0: State, s: State, t: Tid)
    requires CosignAt(s0, s, t)
    requires s.threads[t].cpc.CosFailOffchain? || s.threads[t].cpc.CosRollback? || s.threads[t].cpc.CosFailUnlock?
    ensures CanAcquire(s, t) && CosignAt(s0, CosignStep(s, t, true), t)
  {
    hide CacheIncludesAny, FreeToCosign;
    assert s.threads[t].ins == s0.threads[t].ins;
    var s' := CosignStep(s, t, true);
    assert s'.threads == s0.threads[t := s'.threads[t]];
    if s.threads[t].cpc.CosRollback? {
      assert s0.cache.cosigning + s0.threads[t].ins - s0.threads[t].ins == s0.cache.cosigning;
    }
  }

  lemma IsCosign(s0: State, s: State, t: Tid)
    requires CosignAt(s0, s, t)
    ensures t in s.threads && s.threads[t].Cosign? && !s.threads[t].cpc.CosRelease?
  {
    hide FreeToCosign;
  }

  lemma CosignMoves(s0: State, s: State, t: Tid)
    requires CosignAt(s0, s, t) && s.threads[t].cpc != CosDone
    ensures CanStep(s, t) && Enabled(s, Step(t, true)) && CosignAt(s0, Do(s, Step(t, true)), t)
  {
    hide CosignAt, CosignStep;
    IsCosign(s0, s, t);
    match s.threads[t].cpc
    case CosLock | CosAdd | CosLockOffchain => CosignLocks(s0, s, t);
    case CosReadCheckpoints | CosUnlockOffchain | CosUnlock | CosBroadcast => CosignUnlocks(s0, s, t);
    case CosFailOffchain | CosRollback | CosFailUnlock => CosignFails(s0, s, t);
    case _ => CosignReads(s0, s, t);
  }

  lemma {:induction false} Cosigns(s0: State, t: Tid, run: seq<Action>, s: State) returns (own: seq<Action>, end: State)
    requires Leads(s0, t, run, s) && CosignAt(s0, s, t)
    ensures Leads(s0, t, own, end) && CosignAt(s0, end, t) && end.threads[t].cpc == CosDone
    decreases Rank(s.threads[t])
  {
    hide Leads, CosignAt, Do, Enabled, Rank;
    IsCosign(s0, s, t);
    if s.threads[t].cpc == CosDone {
      return run, s;
    }
    CosignMoves(s0, s, t);
    RanksByStep(s, t);
    GoesOn(s0, t, run, s);
    own, end := Cosigns(s0, t, run + [Step(t, true)], Do(s, Step(t, true)));
  }

  /**
   A cosign that finds both mutexes free passes, reserves its inputs and is recorded exactly if none of them
   is being cosigned, was cosigned, is spent by a cached tx or claimed, and those that are vtxos are unrolled
   and unspent. Otherwise it changes nothing.
   */
  lemma CosignOutcome(s0: State, before: seq<Action>, t: Tid) returns (own: seq<Action>)
    requires Init(s0) && ValidRun(s0, before)
    requires var s := Run(s0, before);
             && t in s.threads && s.threads[t] == Cosign(s.threads[t].ins, CosLock)
             && s.cosignMu.None? && s.offchainMu.None?
    ensures var s := Run(s0, before);
            (forall i :: 0 <= i < |own| ==> own[i] == Step(t, true)) && ValidRun(s, own)
    ensures var s := Run(s0, before); var s', ins := Run(s, own), s.threads[t].ins;
            var free := && ins !! s.cache.cosigning && ins !! s.db.cosignedRows && ins !! s.cache.claims.Keys
                        && (forall u, op :: u in s.cache.txs && op in Ins(s.hist.inputs, u) ==> op !in ins)
                        && ins * s.db.tracked <= s.db.unrolled && ins * s.db.tracked !! s.db.spent;
            && t !in s.hist.cosigned
            && s'.hist == s.hist.(cosigned := s.hist.cosigned + if free then {t} else {})
            && s'.cache == s.cache.(cosigning := s.cache.cosigning + if free then ins else {})
            && s'.log == s.log.(savedCosigns := s.log.savedCosigns + if free then {t} else {})
            && s'.db == s.db && s'.offchainMu.None? && s'.cosignMu.None?
            && s'.threads == s.threads[t := Cosign(ins, CosDone)]
  {
    var s := Run(s0, before);
    ReachableInv(s0, before);
    CosignStarts(s, t);
    hide Inv, Init, CosignAt;
    Stays(s, t);
    var end;
    own, end := Cosigns(s, t, [], s);
    CosignEnds(s, end, t);
  }

  lemma CosignStarts(s: State, t: Tid)
    requires Inv(s) && t in s.threads && s.threads[t] == Cosign(s.threads[t].ins, CosLock)
    requires s.cosignMu.None? && s.offchainMu.None?
    ensures CosignAt(s, s, t) && t !in s.hist.cosigned
  {
    hide LockInv, DataInv, Knows;
    assert Progress(s.hist, s.log, t, s.threads[t]);
    assert s.threads == s.threads[t := s.threads[t]];
  }

  lemma CosignEnds(s: State, end: State, t: Tid)
    requires CosignAt(s, end, t) && end.threads[t].cpc == CosDone
    ensures var ins := s.threads[t].ins;
            var free := FreeToCosign(s, ins);
            && end.hist == s.hist.(cosigned := s.hist.cosigned + if free then {t} else {})
            && end.cache == s.cache.(cosigning := s.cache.cosigning + if free then ins else {})
            && end.log == s.log.(savedCosigns := s.log.savedCosigns + if free then {t} else {})
            && end.db == s.db && end.offchainMu.None? && end.cosignMu.None?
            && end.threads == s.threads[t := Cosign(ins, CosDone)]
  {
    hide FreeToCosign;
    assert s.hist.cosigned + {} == s.hist.cosigned && s.cache.cosigning + {} == s.cache.cosigning
           && s.log.savedCosigns + {} == s.log.savedCosigns;
  }

  // Registrations.

  ghost predicate FreeToRegister(s: State, ins: set<Outpoint>) {
    && ins * s.db.tracked !! s.db.spent && ins !! s.cache.cosigning && ins !! s.db.cosignedRows
    && Uncached(s, ins) && ins !! s.cache.claims.Keys
  }

  /** The inputs that are vtxos, and those that are treated as boarding inputs. */
  function Vtxos(s: State, ins: set<Outpoint>): set<Outpoint> {
    ins * s.db.tracked
  }

  function Boarding(s: State, ins: set<Outpoint>): set<Outpoint> {
    (ins - s.db.tracked) + (ins * s.db.unrolled)
  }

  /** The registration has got to th, with the locks it holds there. */
  function RegisterIn(s: State, t: Tid, th: Thread): State {
    s.(threads := s.threads[t := th],
       offchainMu := if HoldsOffchain(th) then Some(t) else None,
       cosignMu := if HoldsCosign(th) then Some(t) else s.cosignMu,
       registering := if HoldsRegistration(th) then s.registering + {t} else s.registering)
  }

  function Pushing(s: State, t: Tid, vtxoIns: set<Outpoint>, ins: set<Outpoint>): State {
    s.(cache := s.cache.(queue := s.cache.queue + {t}, claims := s.cache.claims + map op | op in ins :: Queued(t)),
       hist := s.hist.(pushed := s.hist.pushed[t := vtxoIns]))
  }

  /** What it comes to, apart from its own progress and the locks. */
  ghost function Decided(s: State, t: Tid, ins: set<Outpoint>): State {
    if FreeToRegister(s, ins) then Pushing(s, t, Vtxos(s, ins), ins) else s
  }

  /** What the registration has found out by the time it is at pc. */
  ghost predicate Found(s: State, ins: set<Outpoint>, pc: RegisterPc) {
    var vtxos, boarding := Vtxos(s, ins), Boarding(s, ins);
    match pc
    case RegBegin | RegReadRows => true
    case RegLockCosign | RegReadCosigning => vtxos !! s.db.spent && boarding != {}
    case RegReadCosigned => vtxos !! s.db.spent && boarding != {} && boarding !! s.cache.cosigning
    case RegLockOffchain | RegReadCache =>
      vtxos !! s.db.spent && boarding !! s.cache.cosigning && boarding !! s.db.cosignedRows
    case RegRereadRows | RegReadPending =>
      vtxos !! s.db.spent && boarding !! s.cache.cosigning && boarding !! s.db.cosignedRows && Uncached(s, vtxos)
    case RegReadCosignedRows =>
      && vtxos !! s.db.spent && boarding !! s.cache.cosigning && boarding !! s.db.cosignedRows && Uncached(s, vtxos)
      && vtxos !! s.cache.cosigning
    case RegPush =>
      && vtxos !! s.db.spent && boarding !! s.cache.cosigning && boarding !! s.db.cosignedRows && Uncached(s, vtxos)
      && vtxos !! s.cache.cosigning && vtxos !! s.db.cosignedRows
    case RegUnlockCosign => boarding != {}
    case _ => true
  }

  predicate AfterPush(pc: RegisterPc) {
    pc.RegUnlockOffchain? || pc.RegUnlockCosign? || pc.RegEnd? || pc.RegDone?
  }

  /** What the invariant says about a registration that has not pushed: its cached and claimed inputs. */
  ghost predicate Unpushed(s: State, t: Tid, ins: set<Outpoint>) {
    && (Uncached(s, Vtxos(s, ins)) <==> Uncached(s, ins))
    && (PushAllowed(s, t, ins) <==> ins !! s.cache.claims.Keys)
    && t !in s.registering
  }

  /** The lists of inputs that it has made; one that ends may have failed before it made them. */
  ghost predicate Listed(s: State, th: Thread)
    requires th.Register?
  {
    match th.rpc
    case RegBegin | RegReadRows => th.vtxoIns == {} && th.boardIns == {}
    case RegEnd | RegDone => true
    case _ => th.vtxoIns == Vtxos(s, th.ins) && th.boardIns == Boarding(s, th.ins)
  }

  /** Enough of the initial state for the registration to run alone. */
  ghost predicate Runnable(s: State, t: Tid, ins: set<Outpoint>) {
    && Unpushed(s, t, ins) && !HoldsBackRegistrations(s.round) && s.offchainMu.None?
    && (Boarding(s, ins) != {} ==> s.cosignMu.None?)
  }

  ghost predicate RegisterAt(s0: State, s: State, t: Tid) {
    && t in s0.threads && s0.threads[t].Register? && t in s.threads && s.threads[t].Register?
    && var ins, th := s0.threads[t].ins, s.threads[t];
       && Runnable(s0, t, ins) && th.ins == ins && Listed(s0, th) && Found(s0, ins, th.rpc)
       && s == RegisterIn(if AfterPush(th.rpc) then Decided(s0, t, ins) else s0, t, th)
  }

  lemma DecidedKeeps(s: State, t: Tid, ins: set<Outpoint>)
    ensures var d := Decided(s, t, ins);
            && d.threads == s.threads && d.cosignMu == s.cosignMu && d.registering == s.registering && d.db == s.db
            && d.log == s.log && d.round == s.round
  {
  }

  lemma RegisterReadsCache(s0: State, s: State, t: Tid)
    requires RegisterAt(s0, s, t) && s.threads[t].rpc.RegReadCache?
    ensures CanAcquire(s, t) && RegisterAt(s0, RegisterStep(s, t, true), t)
  {
    var vtxos := Vtxos(s0, s0.threads[t].ins);
    assert CacheIncludesAny(s, vtxos) <==> !Uncached(s0, vtxos) by {
      UncachedMeans(s, vtxos);
      assert Uncached(s, vtxos) <==> Uncached(s0, vtxos);
    }
    hide CacheIncludesAny, PushAllowed, PushStep, RegReadRowsStep, Uncached;
    var s' := RegisterStep(s, t, true);
    assert s'.threads == s0.threads[t := s'.threads[t]];
  }

  lemma RegisterRereads(s0: State, s: State, t: Tid)
    requires RegisterAt(s0, s, t) && (s.threads[t].rpc.RegRereadRows? || s.threads[t].rpc.RegReadPending?)
    ensures CanAcquire(s, t) && RegisterAt(s0, RegisterStep(s, t, true), t)
  {
    hide CacheIncludesAny, PushAllowed, PushStep, RegReadRowsStep, Uncached, Unpushed;
    var s' := RegisterStep(s, t, true);
    assert s'.threads == s0.threads[t := s'.threads[t]];
  }

  lemma RegisterReadsCosigned(s0: State, s: State, t: Tid)
    requires RegisterAt(s0, s, t) && s.threads[t].rpc.RegReadCosignedRows?
    ensures CanAcquire(s, t) && RegisterAt(s0, RegisterStep(s, t, true), t)
  {
    hide CacheIncludesAny, PushAllowed, PushStep, RegReadRowsStep, Uncached, Unpushed;
    var s' := RegisterStep(s, t, true);
    assert s'.threads == s0.threads[t := s'.threads[t]];
  }

  lemma RegisterLocks(s0: State, s: State, t: Tid)
    requires RegisterAt(s0, s, t) && (s.threads[t].rpc.RegBegin? || s.threads[t].rpc.RegLockCosign? || s.threads[t].rpc.RegLockOffchain?)
    ensures CanAcquire(s, t) && RegisterAt(s0, RegisterStep(s, t, true), t)
  {
    hide CacheIncludesAny, PushAllowed, PushStep, RegReadRowsStep, Uncached, FreeToRegister;
    var s' := RegisterStep(s, t, true);
    assert s'.threads == s0.threads[t := s'.threads[t]];
  }

  lemma RegisterBoards(s0: State, s: State, t: Tid)
    requires RegisterAt(s0, s, t) && (s.threads[t].rpc.RegReadCosigning? || s.threads[t].rpc.RegReadCosigned?)
    ensures CanAcquire(s, t) && RegisterAt(s0, RegisterStep(s, t, true), t)
  {
    hide CacheIncludesAny, PushAllowed, PushStep, RegReadRowsStep, Uncached;
    var s' := RegisterStep(s, t, true);
    assert s'.threads == s0.threads[t := s'.threads[t]];
  }

  lemma RegisterClassifies(s0: State, s: State, t: Tid)
    requires RegisterAt(s0, s, t) && s.threads[t].rpc.RegReadRows?
    ensures CanAcquire(s, t) && RegisterAt(s0, RegisterStep(s, t, true), t)
  {
    hide CacheIncludesAny, PushAllowed, PushStep, Uncached;
    var s' := RegisterStep(s, t, true);
    assert s'.threads == s0.threads[t := s'.threads[t]];
  }

  lemma RegisterPushes(s0: State, s: State, t: Tid)
    requires RegisterAt(s0, s, t) && s.threads[t].rpc.RegPush?
    ensures CanAcquire(s, t) && RegisterAt(s0, RegisterStep(s, t, true), t)
  {
    hide CacheIncludesAny, RegReadRowsStep, Uncached;
    var ins := s0.threads[t].ins;
    assert Vtxos(s0, ins) + Boarding(s0, ins) == ins;
    assert PushAllowed(s, t, ins) <==> PushAllowed(s0, t, ins);
    hide PushAllowed;
    var s' := RegisterStep(s, t, true);
    assert s'.threads == s0.threads[t := s'.threads[t]];
  }

  lemma RegisterUnlocksOffchain(s0: State, s: State, t: Tid)
    requires RegisterAt(s0, s, t) && s.threads[t].rpc.RegUnlockOffchain?
    ensures CanAcquire(s, t) && RegisterAt(s0, RegisterStep(s, t, true), t)
  {
    DecidedKeeps(s0, t, s0.threads[t].ins);
    hide CacheIncludesAny, PushAllowed, PushStep, RegReadRowsStep, Uncached, FreeToRegister, Decided;
    var s' := RegisterStep(s, t, true);
    assert s'.threads == s0.threads[t := s'.threads[t]];
  }

  lemma RegisterUnlocksCosign(s0: State, s: State, t: Tid)
    requires RegisterAt(s0, s, t) && s.threads[t].rpc.RegUnlockCosign?
    ensures CanAcquire(s, t) && RegisterAt(s0, RegisterStep(s, t, true), t)
  {
    DecidedKeeps(s0, t, s0.threads[t].ins);
    hide CacheIncludesAny, PushAllowed, PushStep, RegReadRowsStep, Uncached, FreeToRegister, Decided;
    var s' := RegisterStep(s, t, true);
    assert s'.threads == s0.threads[t := s'.threads[t]];
  }

  lemma RegisterEnds(s0: State, s: State, t: Tid)
    requires RegisterAt(s0, s, t) && s.threads[t].rpc.RegEnd?
    ensures CanAcquire(s, t) && RegisterAt(s0, RegisterStep(s, t, true), t)
  {
    hide RegisterStep, FreeToRegister, Decided, Unpushed, Found, Vtxos, Boarding;
    var ins, th := s0.threads[t].ins, s.threads[t];
    var d, done := Decided(s0, t, ins), th.(rpc := RegDone);
    DecidedKeeps(s0, t, ins);
    EndStep(s, t);
    NotRegistering(s0, t, ins);
    Unregisters(d, t, th);
    FoundAtEnd(s0, ins);
  }

  lemma EndStep(s: State, t: Tid)
    requires t in s.threads && s.threads[t].Register? && s.threads[t].rpc == RegEnd
    ensures CanAcquire(s, t) && RegisterStep(s, t, true) == SetR(s, t, RegDone).(registering := s.registering - {t})
  {
    hide CacheIncludesAny, PushAllowed, PushStep, RegReadRowsStep;
  }

  lemma Unregisters(s: State, t: Tid, th: Thread)
    requires th.Register? && th.rpc == RegEnd && t !in s.registering && t in s.threads
    ensures var s1 := RegisterIn(s, t, th);
            SetR(s1, t, RegDone).(registering := s1.registering - {t}) == RegisterIn(s, t, th.(rpc := RegDone))
  {
    var s1 := RegisterIn(s, t, th);
    assert s1.registering - {t} == s.registering;
    assert s1.threads[t := th.(rpc := RegDone)] == s.threads[t := th.(rpc := RegDone)];
  }

  lemma NotRegistering(s: State, t: Tid, ins: set<Outpoint>)
    requires Unpushed(s, t, ins)
    ensures t !in s.registering
  {
  }

  lemma FoundAtEnd(s: State, ins: set<Outpoint>)
    ensures Found(s, ins, RegDone)
  {
  }

  lemma IsRegistration(s0: State, s: State, t: Tid)
    requires RegisterAt(s0, s, t)
    ensures t in s.threads && s.threads[t].Register?
  {
  }

  lemma RegisterMoves(s0: State, s: State, t: Tid)
    requires RegisterAt(s0, s, t) && s.threads[t].rpc != RegDone
    ensures CanStep(s, t) && Enabled(s, Step(t, true)) && RegisterAt(s0, Do(s, Step(t, true)), t)
  {
    hide RegisterAt, RegisterStep;
    IsRegistration(s0, s, t);
    match s.threads[t].rpc
    case RegBegin | RegLockCosign | RegLockOffchain => RegisterLocks(s0, s, t);
    case RegReadRows => RegisterClassifies(s0, s, t);
    case RegReadCosigning | RegReadCosigned => RegisterBoards(s0, s, t);
    case RegReadCache => RegisterReadsCache(s0, s, t);
    case RegRereadRows | RegReadPending => RegisterRereads(s0, s, t);
    case RegReadCosignedRows => RegisterReadsCosigned(s0, s, t);
    case RegPush => RegisterPushes(s0, s, t);
    case RegUnlockOffchain => RegisterUnlocksOffchain(s0, s, t);
    case RegUnlockCosign => RegisterUnlocksCosign(s0, s, t);
    case RegEnd => RegisterEnds(s0, s, t);
  }

  lemma {:induction false} Registers(s0: State, t: Tid, run: seq<Action>, s: State) returns (own: seq<Action>, end: State)
    requires Leads(s0, t, run, s) && RegisterAt(s0, s, t)
    ensures Leads(s0, t, own, end) && RegisterAt(s0, end, t) && end.threads[t].rpc == RegDone
    decreases Rank(s.threads[t])
  {
    hide Leads, RegisterAt, Do, Enabled, Rank;
    IsRegistration(s0, s, t);
    if s.threads[t].rpc == RegDone {
      return run, s;
    }
    RegisterMoves(s0, s, t);
    RanksByStep(s, t);
    GoesOn(s0, t, run, s);
    own, end := Registers(s0, t, run + [Step(t, true)], Do(s, Step(t, true)));
  }

  /**
   A registration that finds the locks it needs free pushes its intent and claims all its inputs exactly if
   none of its vtxos is marked spent and no input is being cosigned, was cosigned, is spent by a cached tx or
   claimed. Otherwise it changes nothing. Only a boarding input makes it need the cosign mutex.
   */
  lemma RegistrationOutcome(s0: State, before: seq<Action>, t: Tid) returns (own: seq<Action>)
    requires Init(s0) && ValidRun(s0, before)
    requires var s := Run(s0, before);
             && t in s.threads && s.threads[t] == Register(s.threads[t].ins, {}, {}, RegBegin)
             && !s.round.RoundWanting? && !s.round.RoundReleasing? && s.offchainMu.None?
             && (s.cosignMu.None? || (s.threads[t].ins <= s.db.tracked && s.threads[t].ins !! s.db.unrolled))
    ensures var s := Run(s0, before);
            (forall i :: 0 <= i < |own| ==> own[i] == Step(t, true)) && ValidRun(s, own)
    ensures var s := Run(s0, before); var s', ins := Run(s, own), s.threads[t].ins;
            var free := && ins * s.db.tracked !! s.db.spent && ins !! s.cache.cosigning && ins !! s.db.cosignedRows
                        && (forall u, op :: u in s.cache.txs && op in Ins(s.hist.inputs, u) ==> op !in ins)
                        && ins !! s.cache.claims.Keys;
            && t !in s.hist.pushed && t !in s.cache.queue
            && s'.hist == (if free then s.hist.(pushed := s.hist.pushed[t := ins * s.db.tracked]) else s.hist)
            && s'.cache == (if free then s.cache.(queue := s.cache.queue + {t},
                                                   claims := s.cache.claims + map op | op in ins :: Queued(t))
                            else s.cache)
            && s'.log == s.log && s'.db == s.db && s'.round == s.round
            && s'.offchainMu.None? && s'.cosignMu == s.cosignMu && s'.registering == s.registering
            && s'.threads.Keys == s.threads.Keys && Finished(s'.threads[t])
  {
    var s := Run(s0, before);
    ReachableInv(s0, before);
    RegistrationStarts(s, t);
    hide Inv, Init, RegisterAt;
    Stays(s, t);
    var end;
    own, end := Registers(s, t, [], s);
    RegistrationEnds(s, end, t);
  }

  lemma RegistrationStarts(s: State, t: Tid)
    requires Inv(s) && t in s.threads && s.threads[t] == Register(s.threads[t].ins, {}, {}, RegBegin)
    requires !s.round.RoundWanting? && !s.round.RoundReleasing? && s.offchainMu.None?
    requires s.cosignMu.None? || (s.threads[t].ins <= s.db.tracked && s.threads[t].ins !! s.db.unrolled)
    ensures RegisterAt(s, s, t) && t !in s.hist.pushed && t !in s.cache.queue
  {
    hide LogScoped, OffchainHandoff, CosignHandoff, BatchHandoff, LandedInv, InflightInv, RoundInv, QueueInv, Exclusive,
         Knows, FreeToRegister, Decided;
    assert Progress(s.hist, s.log, t, s.threads[t]);
    var th := s.threads[t];
    assert s.threads == s.threads[t := th] && !HoldsCosign(th) && !HoldsOffchain(th);
    assert Unpushed(s, t, th.ins) by { StartsUnpushed(s, t); }
    hide Inv, Unpushed, DataInv, LockInv, ThreadsInv;
  }

  /** Cached txs spend vtxos only. */
  lemma CachedSpendVtxos(s: State, ins: set<Outpoint>)
    requires Scoped(s.hist, s.cache) && RowsInv(s.hist, s.cache.claims, s.db.tracked, s.db.unrolled)
    ensures Uncached(s, Vtxos(s, ins)) <==> Uncached(s, ins)
  {
    forall u, op | u in s.cache.txs && op in Ins(s.hist.inputs, u) && op in ins ensures op in Vtxos(s, ins) {
      assert u in s.hist.accepted;
    }
  }

  lemma PushNeedsFree(s: State, t: Tid, ins: set<Outpoint>)
    requires ClaimsInv(s.hist, s.cache.queue, s.cache.claims, s.usedBatches) && t !in s.hist.pushed
    ensures PushAllowed(s, t, ins) <==> ins !! s.cache.claims.Keys
  {
    forall op | op in ins && op in s.cache.claims ensures s.cache.claims[op].intent != t {
      assert s.cache.claims[op].intent in s.hist.pushed;
    }
  }

  lemma StartsUnpushed(s: State, t: Tid)
    requires Inv(s) && t in s.threads && s.threads[t].Register? && s.threads[t].rpc == RegBegin
    ensures Unpushed(s, t, s.threads[t].ins)
  {
    hide Knows, LogScoped, OffchainHandoff, CosignHandoff, BatchHandoff, LandedInv, InflightInv, RoundInv, QueueInv, Exclusive,
         RowsInv, ClaimsInv, Scoped, Uncached, PushAllowed;
    CachedSpendVtxos(s, s.threads[t].ins);
    assert Progress(s.hist, s.log, t, s.threads[t]);
    PushNeedsFree(s, t, s.threads[t].ins);
  }

  lemma RegistrationEnds(s: State, end: State, t: Tid)
    requires RegisterAt(s, end, t) && end.threads[t].rpc == RegDone
    ensures var ins := s.threads[t].ins;
            var free := FreeToRegister(s, ins);
            && end.hist == (if free then s.hist.(pushed := s.hist.pushed[t := ins * s.db.tracked]) else s.hist)
            && end.cache == (if free then s.cache.(queue := s.cache.queue + {t},
                                                    claims := s.cache.claims + map op | op in ins :: Queued(t))
                             else s.cache)
            && end.log == s.log && end.db == s.db && end.round == s.round
            && end.offchainMu.None? && end.cosignMu == s.cosignMu && end.registering == s.registering
            && end.threads.Keys == s.threads.Keys && Finished(end.threads[t])
  {
    hide FreeToRegister, Unpushed, Found, Boarding, Listed;
    assert !HoldsCosign(end.threads[t]) && !HoldsOffchain(end.threads[t]) && !HoldsRegistration(end.threads[t]);
  }
}
