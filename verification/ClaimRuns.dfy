/** The invariant holds in every reachable state of the claim protocol. */
module ClaimRuns {
  import opened Outpoints
  import opened ClaimProtocol
  import opened ClaimInvariant
  import opened ClaimSteps
  import opened ClaimSubmit
  import opened ClaimRegister
  import opened ClaimCosign
  import opened ClaimBackground

  // A new request holds nothing yet.

  ghost predicate Fresh(h: Hist, h': Hist, t: Tid) {
    && t !in h.inputs && t in h'.inputs && h' == h.(inputs := h'.inputs)
    && (forall u :: u in h.inputs ==> u in h'.inputs)
    && (forall u :: u != t ==> Ins(h'.inputs, u) == Ins(h.inputs, u))
  }

  lemma SpawnHolders(s: State, h': Hist, t: Tid)
    requires Scoped(s.hist, s.cache) && Fresh(s.hist, h', t)
    requires RowsInv(s.hist, s.cache.claims, s.db.tracked, s.db.unrolled) && Exclusive(s.hist, s.cache.claims, s.db.tracked)
    ensures RowsInv(h', s.cache.claims, s.db.tracked, s.db.unrolled) && Exclusive(h', s.cache.claims, s.db.tracked)
    ensures Scoped(h', s.cache)
  {
    hide Exclusive;
    SpawnExclusive(s, h', t);
  }

  lemma SpawnExclusive(s: State, h': Hist, t: Tid)
    requires Scoped(s.hist, s.cache) && Fresh(s.hist, h', t) && Exclusive(s.hist, s.cache.claims, s.db.tracked)
    ensures Exclusive(h', s.cache.claims, s.db.tracked)
  {
  }

  lemma SpawnStores(s: State, h': Hist, t: Tid)
    requires Fresh(s.hist, h', t) && DataInv(s)
    ensures LandedInv(h', s.db, s.log) && OffchainHandoff(h', s.cache.txs, s.db.spent)
    ensures CosignHandoff(h', s.cache.cosigning, s.db.cosignedRows)
    ensures BatchHandoff(h', s.cache.claims, s.db.spent, s.db.cosignedRows)
    ensures ClaimsInv(h', s.cache.queue, s.cache.claims, s.usedBatches)
    ensures RoundInv(h', s.cache.claims, s.log, s.usedBatches, s.round)
  {
    hide Exclusive, RowsInv, InflightInv, QueueInv;
  }

  lemma SpawnRely(s: State, s': State, t: Tid, th: Thread)
    requires Fresh(s.hist, s'.hist, t) && s'.db == s.db && s'.cache == s.cache
    requires t !in s.hist.cosigned && t !in s.hist.settled
    requires forall u :: u in s.hist.inputs ==> s'.hist.inputs[u] == s.hist.inputs[u]
    ensures Rely(s, s', th)
  {
  }

  lemma SpawnLocks(s: State, t: Tid, request: Thread)
    requires LockInv(s) && Enabled(s, Spawn(t, request))
    ensures LockInv(SpawnStep(s, t, request))
  {
    var s' := SpawnStep(s, t, request);
    assert !HoldsOffchain(request) && !HoldsCosign(request) && !HoldsRegistration(request);
    hide HoldsOffchain, HoldsCosign, HoldsRegistration;
  }

  lemma SpawnFresh(s: State, t: Tid, request: Thread)
    requires ThreadsInv(s) && t !in s.threads
    ensures Fresh(s.hist, SpawnStep(s, t, request).hist, t) && t !in s.hist.inputs
    ensures forall u :: u in s.hist.inputs ==>
              SpawnStep(s, t, request).hist.inputs[u] == s.hist.inputs[u]
  {
    hide Knows, Progress;
  }

  lemma SpawnData(s: State, t: Tid, request: Thread)
    requires DataInv(s) && ThreadsInv(s) && t !in s.threads
    ensures DataInv(SpawnStep(s, t, request))
  {
    hide ThreadsInv, Fresh, LandedInv, OffchainHandoff, CosignHandoff, BatchHandoff, ClaimsInv, RoundInv, RowsInv,
         Exclusive, Scoped, InflightInv, QueueInv;
    var h' := SpawnStep(s, t, request).hist;
    SpawnFresh(s, t, request);
    SpawnHolders(s, h', t);
    SpawnStores(s, h', t);
  }

  lemma SpawnOthers(s: State, t: Tid, request: Thread)
    requires Scoped(s.hist, s.cache) && RowsInv(s.hist, s.cache.claims, s.db.tracked, s.db.unrolled)
    requires ThreadsInv(s) && t !in s.threads
    ensures OthersStable(s, SpawnStep(s, t, request), t)
  {
    var s' := SpawnStep(s, t, request);
    SpawnFresh(s, t, request);
    hide ThreadsInv, Fresh, Rely;
    forall u | u in s.threads && u != t ensures Rely(s, s', s.threads[u]) && Untouched(s, s', u) {
      SpawnRely(s, s', t, s.threads[u]);
    }
  }

  lemma SpawnOwn(s: State, t: Tid, request: Thread)
    requires Scoped(s.hist, s.cache) && ThreadsInv(s) && Enabled(s, Spawn(t, request))
    ensures var s' := SpawnStep(s, t, request);
            Knows(s'.db, s'.cache, s'.hist, request) && Progress(s'.hist, s'.log, t, request)
  {
  }

  lemma SpawnInv(s: State, t: Tid, request: Thread)
    requires Inv(s) && Enabled(s, Spawn(t, request))
    ensures Inv(SpawnStep(s, t, request))
  {
    var s' := SpawnStep(s, t, request);
    hide LockInv, LogScoped, RowsInv, OffchainHandoff, CosignHandoff, BatchHandoff, ClaimsInv, LandedInv,
         InflightInv, RoundInv, QueueInv, Exclusive, Scoped, OthersStable, Knows, Progress;
    SpawnOwn(s, t, request);
    SpawnLocks(s, t, request);
    SpawnData(s, t, request);
    SpawnOthers(s, t, request);
    Compose(s, s', t);
  }

  lemma InitInv(s: State)
    requires Init(s)
    ensures Inv(s)
  {
  }

  /** Every step keeps the invariant. */
  lemma NextInv(s: State, a: Action)
    requires Inv(s) && Enabled(s, a)
    ensures Inv(Do(s, a))
  {
    hide Inv, SubmitStep, RegisterStep, CosignStep, SaveStep, SpawnStep, RoundStep, BackgroundStep;
    match a
    case Spawn(t, request) => SpawnInv(s, t, request);
    case Step(t, ok) =>
      match s.threads[t] {
      case Submit(_, _) => SubmitInv(s, t, ok);
      case Register(_, _, _, _) => RegisterInv(s, t, ok);
      case Cosign(_, _) => CosignInv(s, t, ok);
      }
    case SaveOneShot(t, ok) => SaveInv(s, t, ok);
    case _ => if RoundAction(a) { RoundInvariant(s, a); } else { BackgroundInv(s, a); }
  }

  lemma {:induction false} RunInv(s: State, actions: seq<Action>)
    requires Inv(s) && ValidRun(s, actions)
    ensures Inv(Run(s, actions))
    decreases |actions|
  {
    hide Inv, Do, Enabled;
    if actions != [] {
      NextInv(s, actions[0]);
      RunInv(Do(s, actions[0]), actions[1..]);
    }
  }

  lemma ReachableInv(s: State, actions: seq<Action>)
    requires Init(s) && ValidRun(s, actions)
    ensures Inv(Run(s, actions))
  {
    hide Inv, Do, Enabled, Run, ValidRun;
    InitInv(s);
    RunInv(s, actions);
  }
}
