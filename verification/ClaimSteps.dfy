/** How one step of one request is shown to keep the invariant of the claim protocol. */
module ClaimSteps {
  import opened Outpoints
  import opened ClaimProtocol
  import opened ClaimInvariant

  // Putting the pieces of one step together.

  ghost predicate OthersStable(s: State, s': State, t: Tid) {
    forall u :: u in s.threads && u != t ==> Rely(s, s', s.threads[u]) && Untouched(s, s', u)
  }

  lemma KeepsKnowledge(s: State, s': State, t: Tid)
    requires Inv(s) && t in s.threads && Rely(s, s', s.threads[t]) && Untouched(s, s', t)
    requires forall u :: u in s.hist.inputs ==> u in s'.hist.inputs && s'.hist.inputs[u] == s.hist.inputs[u]
    ensures Knows(s'.db, s'.cache, s'.hist, s'.threads[t]) && Progress(s'.hist, s'.log, t, s'.threads[t])
  {
    hide Rely, SubmitKnows, RegisterKnows, CosignKnows, LockInv, Scoped, LogScoped, RowsInv, OffchainHandoff,
         CosignHandoff, BatchHandoff, ClaimsInv, LandedInv, InflightInv, RoundInv, Exclusive;
    var th := s.threads[t];
    assert Knows(s.db, s.cache, s.hist, th) && Progress(s.hist, s.log, t, th);
    match th
    case Submit(_, _) => StableSubmit(s, s', th);
    case Register(_, _, _, _) => StableRegister(s, s', th);
    case Cosign(_, _) => StableCosign(s, s', th);
  }

  lemma Compose(s: State, s': State, t: Tid)
    requires Inv(s) && LockInv(s') && DataInv(s')
    requires s'.hist.inputs.Keys == s'.threads.Keys == s.threads.Keys + {t}
    requires OthersStable(s, s', t)
    requires forall u :: u in s.hist.inputs ==> u in s'.hist.inputs && s'.hist.inputs[u] == s.hist.inputs[u]
    requires Knows(s'.db, s'.cache, s'.hist, s'.threads[t]) && Progress(s'.hist, s'.log, t, s'.threads[t])
    ensures Inv(s')
  {
    hide LockInv, DataInv, Rely, Untouched, Knows, Progress;
    forall u | u in s'.threads && u != t
      ensures Knows(s'.db, s'.cache, s'.hist, s'.threads[u]) && Progress(s'.hist, s'.log, u, s'.threads[u])
    {
      KeepsKnowledge(s, s', u);
    }
  }

  // Locks.

  function Moved(mu: Option<Tid>, t: Tid, before: bool, after: bool): Option<Tid> {
    if before == after then mu else if after then Some(t) else None
  }

  ghost predicate LocksFollow(s: State, s': State, t: Tid)
    requires t in s.threads && t in s'.threads
  {
    var th, th' := s.threads[t], s'.threads[t];
    && s'.threads == s.threads[t := th'] && s'.round == s.round
    && s'.offchainMu == Moved(s.offchainMu, t, HoldsOffchain(th), HoldsOffchain(th'))
    && s'.cosignMu == Moved(s.cosignMu, t, HoldsCosign(th), HoldsCosign(th'))
    && s'.registering == (if HoldsRegistration(th) == HoldsRegistration(th') then s.registering
                          else if HoldsRegistration(th') then s.registering + {t} else s.registering - {t})
    && (HoldsOffchain(th') ==> HoldsOffchain(th) || s.offchainMu.None?)
    && (HoldsCosign(th') ==> HoldsCosign(th) || s.cosignMu.None?)
    && (HoldsRegistration(th') ==> HoldsRegistration(th) || !s.round.RoundReleasing?)
  }

  lemma LockStep(s: State, s': State, t: Tid)
    requires LockInv(s) && t in s.threads && t in s'.threads && LocksFollow(s, s', t)
    ensures LockInv(s')
  {
    hide HoldsOffchain, HoldsCosign, HoldsRegistration;
    forall u ensures s'.offchainMu == Some(u) <==> (u in s'.threads && HoldsOffchain(s'.threads[u])) {
    }
    forall u ensures s'.cosignMu == Some(u) <==> (u in s'.threads && HoldsCosign(s'.threads[u])) {
    }
    forall u ensures u in s'.registering <==> (u in s'.threads && HoldsRegistration(s'.threads[u])) {
    }
  }

  // Steps that only move one request along and take or release locks.

  ghost predicate SameStores(s: State, s': State) {
    && s'.db == s.db && s'.cache == s.cache && s'.log == s.log && s'.hist == s.hist
    && s'.round == s.round && s'.usedBatches == s.usedBatches && s'.inflight == s.inflight
  }

  lemma SameStoresRely(s: State, s': State, th: Thread)
    requires SameStores(s, s')
    ensures Rely(s, s', th)
  {
  }

  lemma QuietInv(s: State, s': State, t: Tid)
    requires Inv(s) && t in s.threads && t in s'.threads && SameStores(s, s') && LocksFollow(s, s', t)
    requires Knows(s.db, s.cache, s.hist, s'.threads[t]) && Progress(s.hist, s.log, t, s'.threads[t])
    ensures Inv(s')
  {
    hide LocksFollow, LockInv, Rely, Knows, Progress, Scoped, LogScoped, OffchainHandoff, CosignHandoff,
         BatchHandoff, ClaimsInv, LandedInv, InflightInv, RoundInv, Exclusive;
    LockStep(s, s', t);
    FollowsThreads(s, s', t);
    forall u | u in s.threads && u != t ensures Rely(s, s', s.threads[u]) && Untouched(s, s', u) {
      SameStoresRely(s, s', s.threads[u]);
    }
    Compose(s, s', t);
  }

  lemma FollowsThreads(s: State, s': State, t: Tid)
    requires t in s.threads && t in s'.threads && LocksFollow(s, s', t)
    ensures s'.threads == s.threads[t := s'.threads[t]]
  {
  }

  lemma DataInvSame(s: State, s': State)
    requires DataInv(s) && SameStores(s, s')
    ensures DataInv(s')
  {
    hide Exclusive, RoundInv, LandedInv, ClaimsInv, BatchHandoff, RowsInv, CosignHandoff, OffchainHandoff,
         LogScoped, Scoped, InflightInv;
  }

  lemma OnlyOffchainHolder(s: State, t: Tid)
    requires LockInv(s) && t in s.threads && HoldsOffchain(s.threads[t])
    ensures forall u :: u in s.threads && u != t ==> !HoldsOffchain(s.threads[u])
  {
    hide HoldsOffchain, HoldsCosign, HoldsRegistration;
  }

  lemma OnlyCosignHolder(s: State, t: Tid)
    requires LockInv(s) && t in s.threads && HoldsCosign(s.threads[t])
    ensures forall u :: u in s.threads && u != t ==> !HoldsCosign(s.threads[u])
  {
    hide HoldsOffchain, HoldsCosign, HoldsRegistration;
  }

  // What a read tells.

  /** The offchain cache was read first: an accepted spend that is not in it has reached the database. */
  lemma CacheMiss(s: State, ops: set<Outpoint>)
    requires OffchainHandoff(s.hist, s.cache.txs, s.db.spent) && !CacheIncludesAny(s, ops)
    ensures AcceptedSpent(s.hist, s.db.spent, ops)
  {
    forall u, op | u in s.hist.accepted && op in Ins(s.hist.inputs, u) && op in ops
      ensures op in s.db.spent
    {
      assert u in s.cache.txs ==> Ins(s.hist.inputs, u) * ops != {} by {
        assert op in Ins(s.hist.inputs, u) * ops;
      }
    }
  }

  /** Claims were read before the rows: a settled input that is not claimed is recorded. */
  lemma ClaimMiss(s: State, ops: set<Outpoint>)
    requires BatchHandoff(s.hist, s.cache.claims, s.db.spent, s.db.cosignedRows)
    requires RowsInv(s.hist, s.cache.claims, s.db.tracked, s.db.unrolled) && Scoped(s.hist, s.cache)
    requires ops !! s.cache.claims.Keys
    ensures SettledSpent(s.hist, s.db, ops)
  {
  }

  /** The cosign cache was read first: a cosign that is not in it has reached the database. */
  lemma CosigningMiss(s: State, ops: set<Outpoint>)
    requires CosignHandoff(s.hist, s.cache.cosigning, s.db.cosignedRows) && ops !! s.cache.cosigning
    ensures CosignedHasRow(s.hist, s.db.cosignedRows, ops)
  {
  }

  lemma NoRowNotCosigned(s: State, ops: set<Outpoint>)
    requires CosignedHasRow(s.hist, s.db.cosignedRows, ops) && ops !! s.db.cosignedRows
    ensures NotCosigned(s.hist, ops)
  {
  }

  // Steps that extend the log.

  lemma LogRely(s: State, s': State, th: Thread)
    requires s'.db == s.db && s'.cache == s.cache && s'.hist == s.hist
    ensures Rely(s, s', th)
  {
  }
}
