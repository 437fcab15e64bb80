/**
 When a cosign and a settled boarding utxo can overlap: only if the utxo's row lands after the cosign has
 read the rows, and its claim is released before the same cosign reads the claims.
 */
module ClaimWindow {
  import opened Outpoints
  import opened ClaimProtocol
  import opened ClaimInvariant
  import opened ClaimRuns
  import opened ClaimTheorems

  // The fence: a cosigned row stops every cosign that has still to read the rows.

  predicate StopsAtRows(pc: CosignPc) {
    pc == CosLock || pc == CosAdd || pc == CosReadRows || pc == CosRollback || pc == CosFailUnlock || pc == CosDone
  }

  ghost predicate Fenced(s: State, t: Tid, op: Outpoint) {
    && op in s.db.cosignedRows
    && (t in s.threads && s.threads[t].Cosign? && op in s.threads[t].ins ==> StopsAtRows(s.threads[t].cpc))
    && (op in Ins(s.hist.inputs, t) ==> t !in s.hist.cosigned)
  }

  lemma FencedCosign(s: State, t: Tid, op: Outpoint, ok: bool)
    requires Fenced(s, t, op) && t in s.threads && s.threads[t].Cosign? && (ok ==> CanAcquire(s, t))
    requires Ins(s.hist.inputs, t) == s.threads[t].ins
    ensures Fenced(CosignStep(s, t, ok), t, op)
  {
    hide CacheIncludesAny;
  }

  /** The step neither moves the cosign t nor changes what it holds. */
  ghost predicate LeavesAlone(s: State, s': State, t: Tid) {
    && (t in s.hist.cosigned <==> t in s'.hist.cosigned) && Ins(s'.hist.inputs, t) == Ins(s.hist.inputs, t)
    && (t in s.threads && s.threads[t].Cosign? ==> t in s'.threads && s'.threads[t] == s.threads[t])
    && (t in s'.threads && s'.threads[t].Cosign? ==> t in s.threads && s.threads[t].Cosign?)
  }

  lemma SubmitLeavesAlone(s: State, u: Tid, ok: bool, t: Tid)
    requires u in s.threads && s.threads[u].Submit? && (ok ==> CanAcquire(s, u))
    ensures LeavesAlone(s, SubmitStep(s, u, ok), t)
  {
    hide CacheIncludesAny;
  }

  lemma RegisterLeavesAlone(s: State, u: Tid, ok: bool, t: Tid)
    requires u in s.threads && s.threads[u].Register? && (ok ==> CanAcquire(s, u))
    ensures LeavesAlone(s, RegisterStep(s, u, ok), t)
  {
    hide CacheIncludesAny, PushAllowed;
  }

  lemma CosignLeavesAlone(s: State, u: Tid, ok: bool, t: Tid)
    requires u in s.threads && s.threads[u].Cosign? && (ok ==> CanAcquire(s, u)) && u != t
    ensures LeavesAlone(s, CosignStep(s, u, ok), t)
  {
    hide CacheIncludesAny;
  }

  lemma LoopLeavesAlone(s: State, a: Action, t: Tid)
    requires Enabled(s, a)
    ensures LeavesAlone(s, RoundStep(s, a), t) && LeavesAlone(s, BackgroundStep(s, a), t)
  {
    hide Enabled;
    RoundHist(s, a);
    BackgroundHist(s, a);
    hide RoundStep, BackgroundStep;
  }

  lemma RoundHist(s: State, a: Action)
    requires Enabled(s, a)
    ensures var s' := RoundStep(s, a);
            s'.threads == s.threads && s'.hist == s.hist.(settled := s'.hist.settled)
  {
    hide Enabled;
  }

  lemma BackgroundHist(s: State, a: Action)
    requires Enabled(s, a)
    ensures var s' := BackgroundStep(s, a); s'.threads == s.threads && s'.hist == s.hist
  {
    hide Enabled;
  }

  /** Only its arrival and its own steps move a cosign. */
  lemma OthersLeaveAlone(s: State, a: Action, t: Tid)
    requires Enabled(s, a) && !(a.Spawn? && a.t == t) && !(a.Step? && a.t == t && s.threads[t].Cosign?)
    ensures LeavesAlone(s, Do(s, a), t)
  {
    hide SubmitStep, RegisterStep, CosignStep, RoundStep, BackgroundStep;
    match a
    case Step(u, ok) =>
      match s.threads[u] {
        case Submit(_, _) => SubmitLeavesAlone(s, u, ok, t);
        case Register(_, _, _, _) => RegisterLeavesAlone(s, u, ok, t);
        case Cosign(_, _) => CosignLeavesAlone(s, u, ok, t);
      }
    case Spawn(_, _) =>
    case SaveOneShot(_, _) =>
    case _ => LoopLeavesAlone(s, a, t);
  }

  lemma OwnInputs(s: State, t: Tid)
    requires ThreadsInv(s) && t in s.threads
    ensures Ins(s.hist.inputs, t) == s.threads[t].ins
  {
    hide Knows;
    assert Progress(s.hist, s.log, t, s.threads[t]);
  }

  lemma FreshNotCosigned(s: State, t: Tid)
    requires Inv(s) && t !in s.threads
    ensures t !in s.hist.cosigned
  {
    hide LockInv, Knows, Progress, LogScoped, RowsInv, OffchainHandoff, CosignHandoff, BatchHandoff, ClaimsInv,
         LandedInv, InflightInv, RoundInv, QueueInv, Exclusive;
  }

  lemma FencedStep(s: State, a: Action, t: Tid, op: Outpoint)
    requires Inv(s) && Enabled(s, a) && Fenced(s, t, op)
    ensures Fenced(Do(s, a), t, op)
  {
    hide LockInv, DataInv, Knows, Progress, SubmitStep, RegisterStep, CosignStep, RoundStep, BackgroundStep;
    StepLasting(s, a);
    if a.Spawn? && a.t == t {
      FreshNotCosigned(s, t);
    } else if a.Step? && a.t == t && s.threads[t].Cosign? {
      OwnInputs(s, t);
      FencedCosign(s, t, op, a.ok);
    } else {
      OthersLeaveAlone(s, a, t);
    }
  }

  lemma {:induction false} FencedRun(s: State, run: seq<Action>, t: Tid, op: Outpoint)
    requires Inv(s) && ValidRun(s, run) && Fenced(s, t, op)
    ensures Fenced(Run(s, run), t, op)
    decreases |run|
  {
    hide Inv, Do, Enabled, Fenced;
    if run != [] {
      FencedStep(s, run[0], t, op);
      NextInv(s, run[0]);
      FencedRun(Do(s, run[0]), run[1..], t, op);
    }
  }

  /** The cosign has not arrived, or has still to read the cosigned rows. */
  predicate BeforeRows(s: State, t: Tid) {
    t in s.threads && s.threads[t].Cosign? ==>
      s.threads[t].cpc == CosLock || s.threads[t].cpc == CosAdd || s.threads[t].cpc == CosReadRows
  }

  /** Once op has a cosigned row, a cosign of op that has still to read the rows never passes, however the run goes on. */
  lemma CosignFence(s0: State, before: seq<Action>, after: seq<Action>, t: Tid, op: Outpoint)
    requires Init(s0) && ValidRun(s0, before) && ValidRun(Run(s0, before), after)
    requires op in Run(s0, before).db.cosignedRows && BeforeRows(Run(s0, before), t)
    ensures var s := Run(Run(s0, before), after); op in Ins(s.hist.inputs, t) ==> t !in s.hist.cosigned
  {
    hide Init, ValidRun, Run, Inv;
    var s1 := Run(s0, before);
    ReachableInv(s0, before);
    NotYetCosigned(s1, t);
    FencedRun(s1, after, t, op);
  }

  lemma NotYetCosigned(s: State, t: Tid)
    requires Inv(s) && BeforeRows(s, t)
    ensures t !in s.hist.cosigned
  {
    hide LockInv, Knows, DataInv;
    if t in s.threads {
      assert Progress(s.hist, s.log, t, s.threads[t]);
    } else {
      FreshNotCosigned(s, t);
    }
  }

  // The window. A run is looked at state by state.

  lemma {:induction false} Prefixes(s0: State, run: seq<Action>, k: nat)
    requires ValidRun(s0, run) && k <= |run|
    ensures ValidRun(s0, run[..k])
    ensures k < |run| ==>
              && Enabled(Run(s0, run[..k]), run[k]) && ValidRun(s0, run[..k + 1])
              && Run(s0, run[..k + 1]) == Do(Run(s0, run[..k]), run[k])
    decreases k
  {
    hide Do, Enabled;
    if k > 0 {
      Prefixes(Do(s0, run[0]), run[1..], k - 1);
      assert run[1..][..k - 1] == run[..k][1..];
      if k < |run| {
        assert run[1..][..k] == run[..k + 1][1..];
      }
    } else if |run| > 0 {
      assert run[..1][1..] == [] && run[..0] == [];
    }
  }

  /** The state before the k-th action of the run. */
  ghost function StateAt(s0: State, run: seq<Action>, k: nat): State
    requires ValidRun(s0, run) && k <= |run|
  {
    Prefixes(s0, run, k);
    Run(s0, run[..k])
  }

  ghost predicate CosignAt(s: State, t: Tid, pc: CosignPc) {
    t in s.threads && s.threads[t].Cosign? && s.threads[t].cpc == pc
  }

  ghost predicate PastRows(s: State, t: Tid) {
    || t in s.hist.cosigned || CosignAt(s, t, CosLockOffchain) || CosignAt(s, t, CosReadCache)
    || CosignAt(s, t, CosReadClaims) || CosignAt(s, t, CosReadVtxos) || CosignAt(s, t, CosReadCheckpoints)
  }

  ghost predicate PastClaims(s: State, t: Tid) {
    t in s.hist.cosigned || CosignAt(s, t, CosReadVtxos) || CosignAt(s, t, CosReadCheckpoints)
  }

  lemma OwnStepPasses(s: State, t: Tid, ok: bool)
    requires t in s.threads && s.threads[t].Cosign? && (ok ==> CanAcquire(s, t))
    ensures var s' := CosignStep(s, t, ok);
            && (!PastRows(s, t) && PastRows(s', t) ==> ok && CosignAt(s, t, CosReadRows) && s.threads[t].ins !! s.db.cosignedRows)
            && (!PastClaims(s, t) && PastClaims(s', t) ==>
                  ok && CosignAt(s, t, CosReadClaims) && s.threads[t].ins !! s.cache.claims.Keys)
  {
    hide CacheIncludesAny;
  }

  /** A cosign gets past the rows, or past the claims, only by its own read of them. */
  lemma PassesByReading(s: State, a: Action, t: Tid)
    requires Inv(s) && Enabled(s, a)
    ensures !PastRows(s, t) && PastRows(Do(s, a), t) ==>
              a == Step(t, true) && CosignAt(s, t, CosReadRows) && s.threads[t].ins !! s.db.cosignedRows
    ensures !PastClaims(s, t) && PastClaims(Do(s, a), t) ==>
              a == Step(t, true) && CosignAt(s, t, CosReadClaims) && s.threads[t].ins !! s.cache.claims.Keys
  {
    hide Inv, SubmitStep, RegisterStep, CosignStep, RoundStep, BackgroundStep;
    if a.Spawn? && a.t == t {
      FreshNotCosigned(s, t);
    } else if a.Step? && a.t == t && s.threads[t].Cosign? {
      OwnStepPasses(s, t, a.ok);
    } else {
      OthersLeaveAlone(s, a, t);
    }
  }

  /** Where in the run the cosign read the rows. */
  lemma {:induction false} RowsReadAt(s0: State, run: seq<Action>, n: nat, t: Tid) returns (k: nat)
    requires Init(s0) && ValidRun(s0, run) && n <= |run| && PastRows(StateAt(s0, run, n), t)
    ensures k < n && run[k] == Step(t, true) && CosignAt(StateAt(s0, run, k), t, CosReadRows)
    ensures StateAt(s0, run, k).threads[t].ins !! StateAt(s0, run, k).db.cosignedRows
  {
    hide Init, ValidRun, Run, Inv, Do, Enabled, PastRows;
    NothingYet(s0, run, t);
    k := 0;
    if n > 0 {
      Prefixes(s0, run, n - 1);
      ReachableInv(s0, run[..n - 1]);
      var s := StateAt(s0, run, n - 1);
      if PastRows(s, t) {
        k := RowsReadAt(s0, run, n - 1, t);
      } else {
        PassesByReading(s, run[n - 1], t);
        k := n - 1;
      }
    }
  }

  lemma NothingYet(s0: State, run: seq<Action>, t: Tid)
    requires Init(s0) && ValidRun(s0, run)
    ensures !PastRows(StateAt(s0, run, 0), t) && !PastClaims(StateAt(s0, run, 0), t)
  {
    assert run[..0] == [];
  }

  /** While a cosign is past the claims no batch can settle one of its inputs. */
  lemma SettledBefore(s: State, a: Action, t: Tid, i: Tid, op: Outpoint)
    requires Inv(s) && Enabled(s, a) && PastClaims(s, t) && op in Ins(s.hist.inputs, t)
    requires Settled(Do(s, a), i, op)
    ensures Settled(s, i, op)
  {
    hide LockInv, LogScoped, RowsInv, OffchainHandoff, CosignHandoff, BatchHandoff, ClaimsInv, LandedInv,
         InflightInv, QueueInv, Exclusive, Knows, Progress, RoundInv, Do, Enabled;
    NotClaimedPastClaims(s, t, op);
    StepLasting(s, a);
    SettlesOnlyClaimed(s, a, i, op);
  }

  lemma NotClaimedPastClaims(s: State, t: Tid, op: Outpoint)
    requires ThreadsInv(s) && Exclusive(s.hist, s.cache.claims, s.db.tracked)
    requires PastClaims(s, t) && op in Ins(s.hist.inputs, t)
    ensures op !in s.cache.claims
  {
    if t !in s.hist.cosigned {
      OwnInputs(s, t);
      assert Knows(s.db, s.cache, s.hist, s.threads[t]);
    }
  }

  /** Only the end of a batch settles, and only what it claims. */
  lemma SettlesOnlyClaimed(s: State, a: Action, i: Tid, op: Outpoint)
    requires Enabled(s, a) && s.hist.inputs.Keys == s.threads.Keys && i in Do(s, a).hist.settled
    requires RoundInv(s.hist, s.cache.claims, s.log, s.usedBatches, s.round)
    ensures i in s.hist.settled || (a.RoundEnd? && i in a.intents && forall o :: o in Ins(s.hist.inputs, i) ==> o in s.cache.claims)
    ensures a.RoundEnd? ==> Ins(Do(s, a).hist.inputs, i) == Ins(s.hist.inputs, i)
  {
    hide ThreadStep;
    if a.Step? {
      StepKeepsSettled(s, a.t, a.ok);
    }
  }

  lemma StepKeepsSettled(s: State, t: Tid, ok: bool)
    requires t in s.threads && (ok ==> CanAcquire(s, t))
    ensures ThreadStep(s, t, ok).hist.settled == s.hist.settled
  {
    hide CacheIncludesAny, PushAllowed;
    match s.threads[t]
    case Submit(_, _) =>
      hide RegisterStep, CosignStep;
    case Register(_, _, _, _) =>
      hide SubmitStep, CosignStep;
    case Cosign(_, _) =>
      hide SubmitStep, RegisterStep;
  }

  /** Where in the run the cosign read the claims: the batch had settled op by then, and the claim was gone. */
  lemma {:induction false} ClaimsReadAt(s0: State, run: seq<Action>, n: nat, t: Tid, i: Tid, op: Outpoint) returns (k: nat)
    requires Init(s0) && ValidRun(s0, run) && n <= |run| && PastClaims(StateAt(s0, run, n), t)
    requires Settled(StateAt(s0, run, n), i, op) && op in Ins(StateAt(s0, run, n).hist.inputs, t)
    ensures k < n && run[k] == Step(t, true) && CosignAt(StateAt(s0, run, k), t, CosReadClaims)
    ensures Settled(StateAt(s0, run, k), i, op) && op !in StateAt(s0, run, k).cache.claims
    ensures op in Ins(StateAt(s0, run, k).hist.inputs, t)
  {
    hide Init, ValidRun, Run, Inv, Do, Enabled, PastClaims, Settled;
    NothingYet(s0, run, t);
    k := 0;
    if n > 0 {
      Prefixes(s0, run, n - 1);
      ReachableInv(s0, run[..n - 1]);
      var s := StateAt(s0, run, n - 1);
      if PastClaims(s, t) {
        SameInputs(s, run[n - 1], t);
        SettledBefore(s, run[n - 1], t, i, op);
        k := ClaimsReadAt(s0, run, n - 1, t, i, op);
      } else {
        PassesByReading(s, run[n - 1], t);
        ReadSettles(s, t, i, op);
        k := n - 1;
      }
    }
  }

  lemma SameInputs(s: State, a: Action, t: Tid)
    requires Inv(s) && Enabled(s, a) && PastClaims(s, t)
    ensures Ins(Do(s, a).hist.inputs, t) == Ins(s.hist.inputs, t)
  {
    hide LockInv, LogScoped, RowsInv, OffchainHandoff, CosignHandoff, BatchHandoff, ClaimsInv, LandedInv,
         InflightInv, QueueInv, Exclusive, Knows, Progress, RoundInv, Do, Enabled;
    StepLasting(s, a);
  }

  /** The read of the claims changes none of the holders. */
  lemma ReadSettles(s: State, t: Tid, i: Tid, op: Outpoint)
    requires Inv(s) && Enabled(s, Step(t, true)) && CosignAt(s, t, CosReadClaims)
    requires s.threads[t].ins !! s.cache.claims.Keys
    requires Settled(Do(s, Step(t, true)), i, op) && op in Ins(Do(s, Step(t, true)).hist.inputs, t)
    ensures Settled(s, i, op) && op in Ins(s.hist.inputs, t) && op !in s.cache.claims
  {
    OwnInputs(s, t);
    hide Inv, SubmitStep, RegisterStep;
  }

  /**
   The exact window of the overlap. If a cosign and a settled boarding utxo meet, the cosign read the rows
   when the utxo had none, and then, when it read the claims, the batch had settled the utxo, its row had
   landed and its claim had been released: projection and release ran between these two reads.
   */
  lemma OverlapWindow(s0: State, run: seq<Action>, t: Tid, i: Tid, op: Outpoint) returns (rows: nat, claims: nat)
    requires Init(s0) && ValidRun(s0, run)
    requires BoardingOverlap(Run(s0, run), Intent(i), OnchainCosign(t), op) && Holds(Run(s0, run), OnchainCosign(t), op)
    ensures rows < claims < |run| && run[rows] == run[claims] == Step(t, true)
    ensures var s := StateAt(s0, run, rows);
            CosignAt(s, t, CosReadRows) && op !in s.db.cosignedRows && (Settled(s, i, op) ==> op in s.cache.claims)
    ensures var s := StateAt(s0, run, claims);
            CosignAt(s, t, CosReadClaims) && Settled(s, i, op) && op in s.db.cosignedRows && op !in s.cache.claims
  {
    hide Init, ValidRun, Run, Inv, PastRows;
    var n := |run|;
    assert run[..n] == run;
    assert StateAt(s0, run, n) == Run(s0, run);
    claims := ClaimsReadAt(s0, run, n, t, i, op);
    Prefixes(s0, run, claims);
    ReachableInv(s0, run[..claims]);
    UntrackedBefore(s0, run, claims, op);
    RecordedOrClaimed(StateAt(s0, run, claims), i, op);
    assert PastRows(StateAt(s0, run, claims), t) by { ClaimsArePastRows(StateAt(s0, run, claims), t); }
    rows := RowsReadAt(s0, run, claims, t);
    Prefixes(s0, run, rows);
    ReachableInv(s0, run[..rows]);
    UntrackedBefore(s0, run, rows, op);
    if Settled(StateAt(s0, run, rows), i, op) {
      RecordedOrClaimed(StateAt(s0, run, rows), i, op);
    }
    ReadsItsInputs(s0, run, rows, claims, t);
  }

  lemma ClaimsArePastRows(s: State, t: Tid)
    requires CosignAt(s, t, CosReadClaims)
    ensures PastRows(s, t)
  {
  }

  lemma RecordedOrClaimed(s: State, i: Tid, op: Outpoint)
    requires Inv(s) && op !in s.db.tracked && Settled(s, i, op)
    ensures op in s.cache.claims || op in s.db.cosignedRows
  {
    hide LockInv, ThreadsInv, LogScoped, OffchainHandoff, CosignHandoff, ClaimsInv, LandedInv, InflightInv, RoundInv,
         QueueInv, Exclusive, Scoped, RowsInv, BatchHandoff;
    SettledRecorded(s, i, op);
  }

  /** The states of a run in their order: what lasts, lasts from one to the next. */
  lemma {:induction false} LaterLasts(s0: State, run: seq<Action>, j: nat, k: nat)
    requires Init(s0) && ValidRun(s0, run) && j <= k <= |run|
    ensures Lasting(StateAt(s0, run, j), StateAt(s0, run, k))
  {
    hide Init, ValidRun, Run, Lasting, Do, Enabled, LockInv, DataInv, Knows, Progress;
    LastingTrans(StateAt(s0, run, j), StateAt(s0, run, j), StateAt(s0, run, j));
    if j < k {
      LaterLasts(s0, run, j, k - 1);
      Prefixes(s0, run, k - 1);
      ReachableInv(s0, run[..k - 1]);
      StepLasting(StateAt(s0, run, k - 1), run[k - 1]);
      LastingTrans(StateAt(s0, run, j), StateAt(s0, run, k - 1), StateAt(s0, run, k));
    }
  }

  lemma UntrackedBefore(s0: State, run: seq<Action>, k: nat, op: Outpoint)
    requires Init(s0) && ValidRun(s0, run) && k <= |run| && op !in Run(s0, run).db.tracked
    ensures op !in StateAt(s0, run, k).db.tracked
  {
    hide Init, ValidRun, Run;
    LaterLasts(s0, run, k, |run|);
    assert run[..|run|] == run;
  }

  lemma ReadsItsInputs(s0: State, run: seq<Action>, j: nat, k: nat, t: Tid)
    requires Init(s0) && ValidRun(s0, run) && j <= k <= |run| && t in StateAt(s0, run, j).threads
    ensures StateAt(s0, run, j).threads[t].ins == Ins(StateAt(s0, run, k).hist.inputs, t)
  {
    hide Init, ValidRun, Run, LockInv, DataInv, Knows, Progress;
    Prefixes(s0, run, j);
    ReachableInv(s0, run[..j]);
    OwnInputs(StateAt(s0, run, j), t);
    LaterLasts(s0, run, j, k);
  }

  /**
   And the window is enough: a cosign of boarding utxos that is about to read the claims goes on to pass,
   whatever rows have landed, exactly if none of its inputs is claimed at that moment.
   */
  lemma PassesExactlyIfReleased(s0: State, run: seq<Action>, t: Tid)
    requires Init(s0) && ValidRun(s0, run) && CosignAt(Run(s0, run), t, CosReadClaims)
    requires Run(s0, run).threads[t].ins !! Run(s0, run).db.tracked
    ensures var s := Run(s0, run); var next := Step(t, true);
            && Enabled(s, next) && Enabled(Do(s, next), next) && Enabled(Do(Do(s, next), next), next)
            && (t in Do(Do(Do(s, next), next), next).hist.cosigned <==> s.threads[t].ins !! s.cache.claims.Keys)
  {
    var s := Run(s0, run);
    ReachableInv(s0, run);
    assert t !in s.hist.cosigned by { AtClaimsNotCosigned(s, t); }
    hide Init, ValidRun, Run, Inv;
    var s1 := CosignStep(s, t, true);
    TakesStep(s, t);
    if s.threads[t].ins !! s.cache.claims.Keys {
      ReadsFree(s, t);
    } else {
      ReadsClaimed(s, t);
    }
  }

  lemma AtClaimsNotCosigned(s: State, t: Tid)
    requires Inv(s) && CosignAt(s, t, CosReadClaims)
    ensures t !in s.hist.cosigned
  {
    hide LockInv, DataInv, Knows;
    assert Progress(s.hist, s.log, t, s.threads[t]);
  }

  lemma TakesStep(s: State, t: Tid)
    requires t in s.threads && s.threads[t].Cosign? && s.threads[t].cpc != CosDone && CanAcquire(s, t)
    ensures Enabled(s, Step(t, true)) && Do(s, Step(t, true)) == CosignStep(s, t, true)
  {
    hide CosignStep, SubmitStep, RegisterStep;
  }

  lemma ReadsFree(s: State, t: Tid)
    requires CosignAt(s, t, CosReadClaims) && s.threads[t].ins !! s.db.tracked
    requires s.threads[t].ins !! s.cache.claims.Keys
    ensures var next := Step(t, true);
            && Enabled(s, next) && Enabled(Do(s, next), next) && Enabled(Do(Do(s, next), next), next)
            && t in Do(Do(Do(s, next), next), next).hist.cosigned
  {
    var s1 := CosignStep(s, t, true);
    TakesStep(s, t);
    assert CosignAt(s1, t, CosReadVtxos) && s1.threads[t].ins == s.threads[t].ins && s1.db == s.db;
    TakesStep(s1, t);
    var s2 := CosignStep(s1, t, true);
    assert s1.threads[t].ins * s1.db.tracked == {};
    assert CosignAt(s2, t, CosReadCheckpoints);
    TakesStep(s2, t);
    hide Do, Enabled;
  }

  lemma ReadsClaimed(s: State, t: Tid)
    requires CosignAt(s, t, CosReadClaims) && t !in s.hist.cosigned
    requires !(s.threads[t].ins !! s.cache.claims.Keys)
    ensures var next := Step(t, true);
            && Enabled(s, next) && Enabled(Do(s, next), next) && Enabled(Do(Do(s, next), next), next)
            && t !in Do(Do(Do(s, next), next), next).hist.cosigned
  {
    var s1 := CosignStep(s, t, true);
    TakesStep(s, t);
    assert CosignAt(s1, t, CosFailOffchain) && s1.hist == s.hist;
    TakesStep(s1, t);
    var s2 := CosignStep(s1, t, true);
    assert CosignAt(s2, t, CosRollback) && s2.hist == s.hist;
    TakesStep(s2, t);
    hide Do, Enabled;
  }
}
