/** What the claim protocol guarantees in every run. */
module ClaimTheorems {
  import opened Outpoints
  import opened ClaimProtocol
  import opened ClaimInvariant
  import opened ClaimSteps
  import opened ClaimRuns

  // Exclusion.

  datatype Holder = OffchainSpend(t: Tid) | Intent(t: Tid) | OnchainCosign(t: Tid)

  /** A pushed intent that waits in the queue, is taking part in a batch, or whose claim was not released. */
  ghost predicate HeldByClaim(s: State, i: Tid, op: Outpoint) {
    && op in Ins(s.hist.inputs, i)
    && (|| i in s.cache.queue || (s.round.RoundSelected? && i in s.round.intents)
        || (op in s.cache.claims && s.cache.claims[op].intent == i))
  }

  ghost predicate Settled(s: State, i: Tid, op: Outpoint) {
    i in s.hist.settled && op in Ins(s.hist.inputs, i)
  }

  ghost predicate Holds(s: State, x: Holder, op: Outpoint) {
    match x
    case OffchainSpend(t) => t in s.hist.accepted && op in Ins(s.hist.inputs, t)
    case Intent(t) => HeldByClaim(s, t, op) || Settled(s, t, op)
    case OnchainCosign(t) => t in s.hist.cosigned && op in Ins(s.hist.inputs, t)
  }

  lemma HeldIsClaimed(s: State, i: Tid, op: Outpoint)
    requires ClaimsInv(s.hist, s.cache.queue, s.cache.claims, s.usedBatches)
    requires RoundInv(s.hist, s.cache.claims, s.log, s.usedBatches, s.round)
    requires HeldByClaim(s, i, op)
    ensures op in s.cache.claims && s.cache.claims[op].intent == i
  {
  }

  /**
   Two holders of one outpoint: only a boarding input that a batch has settled, recorded as cosigned and
   released can meet a cosign.
   */
  ghost predicate BoardingOverlap(s: State, x: Holder, y: Holder, op: Outpoint) {
    && op !in s.db.tracked && op !in s.cache.claims && op in s.db.cosignedRows
    && (|| (x.Intent? && Settled(s, x.t, op) && y.OnchainCosign?)
        || (y.Intent? && Settled(s, y.t, op) && x.OnchainCosign?))
  }

  lemma InvExclusion(s: State, x: Holder, y: Holder, op: Outpoint)
    requires Inv(s) && Holds(s, x, op) && Holds(s, y, op)
    ensures x == y || BoardingOverlap(s, x, y, op)
  {
    hide LockInv, ThreadsInv, Scoped, LogScoped, RowsInv, OffchainHandoff, CosignHandoff, BatchHandoff, LandedInv,
         InflightInv, RoundInv, QueueInv, ClaimsInv, HeldByClaim;
    if x.Intent? && HeldByClaim(s, x.t, op) {
      HeldIsClaimed(s, x.t, op);
    }
    if y.Intent? && HeldByClaim(s, y.t, op) {
      HeldIsClaimed(s, y.t, op);
    }
    if x.Intent? && Settled(s, x.t, op) {
      SettledRecorded(s, x.t, op);
    }
    if y.Intent? && Settled(s, y.t, op) {
      SettledRecorded(s, y.t, op);
    }
  }

  /** A settled boarding input that is not claimed has a cosigned row. */
  lemma SettledRecorded(s: State, i: Tid, op: Outpoint)
    requires BatchHandoff(s.hist, s.cache.claims, s.db.spent, s.db.cosignedRows) && Settled(s, i, op)
    requires RowsInv(s.hist, s.cache.claims, s.db.tracked, s.db.unrolled)
    ensures op !in s.db.tracked && op !in s.cache.claims ==> op in s.db.cosignedRows
  {
  }

  /** No vtxo is ever held twice. */
  lemma VtxoExclusion(s0: State, run: seq<Action>, x: Holder, y: Holder, op: Outpoint)
    requires Init(s0) && ValidRun(s0, run)
    requires op in Run(s0, run).db.tracked && Holds(Run(s0, run), x, op) && Holds(Run(s0, run), y, op)
    ensures x == y
  {
    hide Inv, Init, ValidRun, Run, Holds;
    ReachableInv(s0, run);
    InvExclusion(Run(s0, run), x, y, op);
  }

  /**
   Any outpoint, boarding utxos included: two intents, two cosigns or two offchain spends never share
   one, an offchain spend shares none, and a cosign shares none with an intent whose claim is held.
   */
  lemma ClaimExclusion(s0: State, run: seq<Action>, x: Holder, y: Holder, op: Outpoint)
    requires Init(s0) && ValidRun(s0, run)
    requires Holds(Run(s0, run), x, op) && Holds(Run(s0, run), y, op)
    ensures x == y || BoardingOverlap(Run(s0, run), x, y, op)
    ensures op in Run(s0, run).cache.claims ==> x == y
  {
    hide Inv, Init, ValidRun, Run, Holds;
    ReachableInv(s0, run);
    InvExclusion(Run(s0, run), x, y, op);
  }

  // Runs.

  lemma {:induction false} RunConcat(s: State, p: seq<Action>, q: seq<Action>)
    requires ValidRun(s, p) && ValidRun(Run(s, p), q)
    ensures ValidRun(s, p + q) && Run(s, p + q) == Run(Run(s, p), q)
    decreases |p|
  {
    hide Do, Enabled;
    if p == [] {
      assert p + q == q;
    } else {
      RunConcat(Do(s, p[0]), p[1..], q);
      assert (p + q)[1..] == p[1..] + q;
    }
  }

  /** Marks, ended batches and inputs are never taken back. */
  ghost predicate Lasting(s: State, s': State) {
    && s.db.tracked <= s'.db.tracked && s.db.spent <= s'.db.spent && s.db.unrolled <= s'.db.unrolled
    && s.db.cosignedRows <= s'.db.cosignedRows && s.hist.settled.Keys <= s'.hist.settled.Keys
    && (forall u :: u in s.hist.inputs ==> u in s'.hist.inputs && s'.hist.inputs[u] == s.hist.inputs[u])
    && s.threads.Keys <= s'.threads.Keys
  }

  lemma StepLasting(s: State, a: Action)
    requires Enabled(s, a) && s.hist.inputs.Keys == s.threads.Keys
    ensures Lasting(s, Do(s, a))
  {
    hide ThreadStep, BackgroundStep, RoundStep;
    match a
    case Step(t, ok) =>
      ThreadLasting(s, t, ok);
    case Spawn(_, _) =>
    case SaveOneShot(_, _) =>
    case _ =>
      BackgroundLasting(s, a);
      RoundLasting(s, a);
  }

  lemma BackgroundLasting(s: State, a: Action)
    requires Enabled(s, a)
    ensures Lasting(s, BackgroundStep(s, a))
  {
    hide Enabled;
  }

  lemma RoundLasting(s: State, a: Action)
    requires Enabled(s, a)
    ensures Lasting(s, RoundStep(s, a))
  {
    hide Enabled;
  }

  lemma ThreadLasting(s: State, t: Tid, ok: bool)
    requires t in s.threads && (ok ==> CanAcquire(s, t))
    ensures Lasting(s, ThreadStep(s, t, ok))
  {
  }

  lemma {:induction false} RunLasting(s: State, run: seq<Action>)
    requires Inv(s) && ValidRun(s, run)
    ensures Lasting(s, Run(s, run))
    decreases |run|
  {
    hide Do, Enabled, LockInv, DataInv, Lasting;
    LastingTrans(s, s, s);
    if run != [] {
      var s1 := Do(s, run[0]);
      StepLasting(s, run[0]);
      NextInv(s, run[0]);
      RunLasting(s1, run[1..]);
      LastingTrans(s, s1, Run(s, run));
    }
  }

  lemma LastingTrans(s: State, s1: State, s2: State)
    ensures Lasting(s, s)
    ensures Lasting(s, s1) && Lasting(s1, s2) ==> Lasting(s, s2)
  {
  }

  // Handoff.

  /** At every moment an accepted spend or a cosign is in its cache or in the database. */
  lemma Handoff(s0: State, run: seq<Action>)
    requires Init(s0) && ValidRun(s0, run)
    ensures var s := Run(s0, run);
            && (forall u :: u in s.hist.accepted ==> u in s.cache.txs || Ins(s.hist.inputs, u) <= s.db.spent)
            && (forall u, op :: u in s.hist.cosigned && op in Ins(s.hist.inputs, u) ==>
                  op in s.cache.cosigning || op in s.db.cosignedRows)
            && (forall i, op :: i in s.hist.settled && op in Ins(s.hist.inputs, i) ==>
                  op in s.cache.claims || op in s.db.spent || op in s.db.cosignedRows)
  {
    hide Init, ValidRun, Run, LockInv, ThreadsInv, LandedInv, ClaimsInv, RoundInv, Exclusive, LogScoped, RowsInv;
    ReachableInv(s0, run);
  }

  /**
   A reader that misses ops in the offchain cache and reads the marks any number of steps later finds
   every spend that was accepted when it read the cache; likewise for the cosign cache and its rows.
   */
  lemma CacheThenRows(s0: State, before: seq<Action>, between: seq<Action>, ops: set<Outpoint>)
    requires Init(s0) && ValidRun(s0, before) && ValidRun(Run(s0, before), between)
    ensures var s1 := Run(s0, before); var s2 := Run(s1, between);
            && (!CacheIncludesAny(s1, ops) ==>
                  forall u, op :: u in s1.hist.accepted && op in Ins(s1.hist.inputs, u) && op in ops ==> op in s2.db.spent)
            && (ops !! s1.cache.cosigning ==>
                  forall u, op :: u in s1.hist.cosigned && op in Ins(s1.hist.inputs, u) && op in ops ==>
                    op in s2.db.cosignedRows)
  {
    hide Init, ValidRun, Run, Inv, CacheIncludesAny;
    var s1 := Run(s0, before);
    ReachableInv(s0, before);
    RunLasting(s1, between);
    Missed(s1, ops);
  }

  lemma Missed(s: State, ops: set<Outpoint>)
    requires Inv(s)
    ensures !CacheIncludesAny(s, ops) ==> AcceptedSpent(s.hist, s.db.spent, ops)
    ensures ops !! s.cache.cosigning ==> CosignedHasRow(s.hist, s.db.cosignedRows, ops)
  {
    hide LockInv, ThreadsInv, LandedInv, ClaimsInv, RoundInv, Exclusive, LogScoped, RowsInv, CacheIncludesAny;
    if !CacheIncludesAny(s, ops) {
      CacheMiss(s, ops);
    }
  }

  /** Nobody else holds what the request is about to take. */
  ghost predicate MissedNothing(s: State, th: Thread) {
    match th
    case Submit(ins, SubmitAdd) =>
      && NotAccepted(s.hist, ins) && NotCosigned(s.hist, ins) && NotSettled(s.hist, ins)
      && ins !! s.cache.claims.Keys
    case Register(ins, vtxoIns, boardIns, RegPush) =>
      NotAccepted(s.hist, vtxoIns) && NotCosigned(s.hist, vtxoIns) && NotCosigned(s.hist, boardIns)
    case Cosign(ins, CosReadCheckpoints) =>
      && NotAccepted(s.hist, ins) && NotCosigned(s.hist, ins) && NotSettled(s.hist, ins * s.db.tracked)
      && ins !! s.cache.claims.Keys
    case _ => true
  }

  lemma KnowsMissedNothing(s: State, th: Thread)
    requires Knows(s.db, s.cache, s.hist, th)
    ensures MissedNothing(s, th)
  {
    hide NotAccepted, NotCosigned, NotSettled, SettledClaimed, SettledSpent, AcceptedSpent, CosignedHasRow;
  }

  /** A request that is about to commit has missed nothing, whatever ran between its reads. */
  lemma CommitsMissNothing(s0: State, run: seq<Action>, t: Tid)
    requires Init(s0) && ValidRun(s0, run) && t in Run(s0, run).threads
    ensures MissedNothing(Run(s0, run), Run(s0, run).threads[t])
  {
    hide Init, ValidRun, Run, LockInv, DataInv, Knows, Progress, MissedNothing;
    ReachableInv(s0, run);
    KnowsMissedNothing(Run(s0, run), Run(s0, run).threads[t]);
  }

  // Registration fence.

  /** A registration that has an input settled by an ended batch never gets past Push, however late it is. */
  lemma RegistrationFence(s0: State, before: seq<Action>, after: seq<Action>, i: Tid, op: Outpoint, t: Tid, ok: bool)
    requires Init(s0) && ValidRun(s0, before) && ValidRun(Run(s0, before), after)
    requires Settled(Run(s0, before), i, op)
    requires var s := Run(Run(s0, before), after);
             && t in s.threads && s.threads[t].Register? && s.threads[t].rpc == RegPush && op in s.threads[t].ins
             && (ok ==> CanAcquire(s, t))
    ensures var s := Run(Run(s0, before), after);
            && RegisterStep(s, t, ok).cache == s.cache && t !in RegisterStep(s, t, ok).hist.pushed
  {
    var s1 := Run(s0, before);
    var s := Run(s1, after);
    ReachableInv(s0, before);
    RunInv(s1, after);
    RunLasting(s1, after);
    assert Settled(s, i, op);
    hide Init, ValidRun, Run;
    FencedPush(s, i, op, t);
  }

  lemma FencedPush(s: State, i: Tid, op: Outpoint, t: Tid)
    requires Inv(s) && Settled(s, i, op) && t in s.threads && s.threads[t].Register? && s.threads[t].rpc == RegPush
    requires op in s.threads[t].ins
    ensures t !in s.hist.pushed && !PushAllowed(s, t, s.threads[t].ins)
  {
    hide LockInv, LogScoped, OffchainHandoff, CosignHandoff, BatchHandoff, ClaimsInv, LandedInv, InflightInv,
         RoundInv, NotAccepted, NotCosigned;
    var th := s.threads[t];
    assert RegisterKnows(s.db, s.cache, s.hist, th) && Progress(s.hist, s.log, t, th);
    assert op in th.vtxoIns || op in th.ins - th.vtxoIns;
  }

  /** Claims are released with no registration in flight, and only for batches that settled nothing or are projected. */
  lemma ReleaseIsFenced(s0: State, run: seq<Action>, b: BatchId, i: Tid, op: Outpoint)
    requires Init(s0) && ValidRun(s0, run)
    requires Run(s0, run).round.RoundReleasing? && b in Run(s0, run).round.todo
    ensures var s := Run(s0, run);
            && (forall t :: t in s.threads ==> !HoldsRegistration(s.threads[t]))
            && (Settled(s, i, op) && s.hist.settled[i] == b ==> op in s.db.spent || op in s.db.cosignedRows)
  {
    hide Init, ValidRun, Run, Inv, HoldsRegistration, Settled;
    ReachableInv(s0, run);
    FencedRelease(Run(s0, run), b, i, op);
  }

  lemma FencedRelease(s: State, b: BatchId, i: Tid, op: Outpoint)
    requires Inv(s) && s.round.RoundReleasing? && b in s.round.todo
    ensures forall t :: t in s.threads ==> !HoldsRegistration(s.threads[t])
    ensures Settled(s, i, op) && s.hist.settled[i] == b ==> op in s.db.spent || op in s.db.cosignedRows
  {
    hide ThreadsInv, OffchainHandoff, CosignHandoff, BatchHandoff, ClaimsInv, InflightInv, Exclusive,
         HoldsRegistration, HoldsOffchain, HoldsCosign, Scoped, RowsInv;
    assert s.registering == {};
    if Settled(s, i, op) && s.hist.settled[i] == b {
      assert op in VtxoIns(s.hist.pushed, i) || op in Ins(s.hist.inputs, i) - VtxoIns(s.hist.pushed, i);
    }
  }
}
