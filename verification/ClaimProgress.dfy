/**
 The locks of the claim protocol never deadlock: they are taken in the order registrations, cosign
 mutex, offchain mutex, and the round loop holds none of them while it waits for projections.
 */
module ClaimProgress {
  import opened Outpoints
  import opened ClaimProtocol
  import opened ClaimInvariant
  import opened ClaimRuns

  /** A step of a request that runs into no failure, or a step of the round loop around its own lock. */
  predicate Advancing(a: Action) {
    (a.Step? && a.ok) || a.RoundHold? || (a.RoundRelease? && a.ok) || a.RoundResume?
  }

  /** Every request is done and the round loop neither holds nor waits for the registration lock. */
  predicate Quiescent(s: State) {
    (forall t :: t in s.threads ==> Finished(s.threads[t])) && !HoldsBackRegistrations(s.round)
  }

  /** t has a next step and the lock it needs is taken. */
  predicate Blocked(s: State, t: Tid) {
    t in s.threads && !Finished(s.threads[t]) && !CanAcquire(s, t)
  }

  predicate CanStep(s: State, t: Tid) {
    t in s.threads && !Finished(s.threads[t]) && CanAcquire(s, t)
  }

  // Who can step, along the lock order.

  lemma OffchainHolderSteps(s: State, t: Tid)
    requires LockInv(s) && s.offchainMu == Some(t)
    ensures CanStep(s, t)
  {
    assert HoldsOffchain(s.threads[t]);
    hide LockInv;
  }

  lemma CosignHolderSteps(s: State, t: Tid) returns (u: Tid)
    requires LockInv(s) && s.cosignMu == Some(t)
    ensures CanStep(s, u)
  {
    assert HoldsCosign(s.threads[t]);
    hide LockInv;
    if CanAcquire(s, t) {
      u := t;
    } else {
      u := s.offchainMu.value;
      OffchainHolderSteps(s, u);
    }
  }

  lemma RegistrationSteps(s: State, t: Tid) returns (u: Tid)
    requires LockInv(s) && t in s.registering
    ensures CanStep(s, u)
  {
    assert HoldsRegistration(s.threads[t]);
    hide LockInv;
    if CanAcquire(s, t) {
      u := t;
    } else if s.threads[t].rpc == RegLockCosign {
      u := CosignHolderSteps(s, s.cosignMu.value);
    } else {
      u := s.offchainMu.value;
      OffchainHolderSteps(s, u);
    }
  }

  /** A blocked request is waiting for another one that can step, unless the round loop can. */
  lemma BlockedByAnother(s: State, t: Tid) returns (u: Tid)
    requires LockInv(s) && Blocked(s, t)
    ensures CanStep(s, u) || s.round.RoundReleasing? || (s.round.RoundWanting? && s.registering == {})
  {
    hide LockInv;
    u := t;
    var th := s.threads[t];
    if th.Register? && th.rpc == RegBegin {
      if s.round.RoundWanting? && s.registering != {} {
        var v :| v in s.registering;
        u := RegistrationSteps(s, v);
      }
    } else if (th.Register? && th.rpc == RegLockCosign) || (th.Cosign? && th.cpc == CosLock) {
      u := CosignHolderSteps(s, s.cosignMu.value);
    } else {
      u := s.offchainMu.value;
      OffchainHolderSteps(s, u);
    }
  }

  lemma SomeoneCanStep(s: State) returns (a: Action)
    requires LockInv(s) && !Quiescent(s)
    ensures Enabled(s, a) && Advancing(a)
  {
    hide LockInv, CanAcquire, Finished;
    if s.round.RoundReleasing? {
      if s.round.todo == {} {
        a := RoundResume;
      } else {
        var b :| b in s.round.todo;
        a := RoundRelease(b, true);
      }
    } else if s.round.RoundWanting? && s.registering == {} {
      a := RoundHold;
    } else if s.round.RoundWanting? {
      var t :| t in s.registering;
      var u := RegistrationSteps(s, t);
      a := Step(u, true);
    } else {
      var t :| t in s.threads && !Finished(s.threads[t]);
      var u := t;
      if Blocked(s, t) {
        u := BlockedByAnother(s, t);
      }
      a := Step(u, true);
    }
  }

  // Every request is finished after a bounded number of its own steps.

  function Rank(th: Thread): nat {
    match th
    case Submit(_, pc) =>
      (match pc
       case SubmitLock => 8 case SubmitReadCache => 7 case SubmitReadClaims => 6 case SubmitReadRows => 5
       case SubmitAdd => 4 case SubmitSave => 3 case SubmitUnlock => 2 case SubmitSaveLater => 1
       case SubmitDone => 0)
    case Register(_, _, _, pc) =>
      (match pc
       case RegBegin => 14 case RegReadRows => 13 case RegLockCosign => 12 case RegReadCosigning => 11
       case RegReadCosigned => 10 case RegLockOffchain => 9 case RegReadCache => 8 case RegRereadRows => 7
       case RegReadPending => 6 case RegReadCosignedRows => 5 case RegPush => 4 case RegUnlockOffchain => 3
       case RegUnlockCosign => 2 case RegEnd => 1 case RegDone => 0)
    case Cosign(_, pc) =>
      (match pc
       case CosLock => 15 case CosAdd => 14 case CosReadRows => 13 case CosLockOffchain => 12
       case CosReadCache => 11 case CosReadClaims => 10 case CosReadVtxos => 9 case CosReadCheckpoints => 8
       case CosUnlockOffchain => 7 case CosUnlock => 6 case CosBroadcast => 5 case CosFailOffchain => 4
       case CosRollback => 3 case CosFailUnlock => 2 case CosRelease => 1 case CosDone => 0)
  }

  lemma StepRanksDown(s: State, t: Tid)
    requires CanStep(s, t)
    ensures RanksDown(s, ThreadStep(s, t, true), t)
  {
    hide RegisterStep, CosignStep, CacheIncludesAny;
    match s.threads[t]
    case Submit(_, _) =>
    case Register(_, _, _, _) => RegisterRanksDown(s, t);
    case Cosign(_, _) => CosignRanksDown(s, t);
  }

  ghost predicate RanksDown(s: State, s': State, t: Tid) {
    && t in s.threads && t in s'.threads && s'.threads == s.threads[t := s'.threads[t]] && s'.round == s.round
    && Rank(s'.threads[t]) < Rank(s.threads[t])
  }

  lemma RegisterRanksDown(s: State, t: Tid)
    requires CanStep(s, t) && s.threads[t].Register?
    ensures RanksDown(s, RegisterStep(s, t, true), t)
  {
    hide RanksDown, RegisterStep;
    if HoldsOffchain(s.threads[t]) {
      RegisterRanksInside(s, t);
    } else {
      RegisterRanksOutside(s, t);
    }
  }

  lemma RegisterRanksInside(s: State, t: Tid)
    requires CanStep(s, t) && s.threads[t].Register? && HoldsOffchain(s.threads[t])
    ensures RanksDown(s, RegisterStep(s, t, true), t)
  {
    hide CacheIncludesAny, PushAllowed, RegReadRowsStep;
  }

  lemma RegisterRanksOutside(s: State, t: Tid)
    requires CanStep(s, t) && s.threads[t].Register? && !HoldsOffchain(s.threads[t])
    ensures RanksDown(s, RegisterStep(s, t, true), t)
  {
    hide CacheIncludesAny, PushAllowed, PushStep;
  }

  lemma CosignRanksDown(s: State, t: Tid)
    requires CanStep(s, t) && s.threads[t].Cosign?
    ensures RanksDown(s, CosignStep(s, t, true), t)
  {
    hide RanksDown, CosignStep;
    if HoldsOffchain(s.threads[t]) {
      CosignRanksInside(s, t);
    } else {
      CosignRanksOutside(s, t);
    }
  }

  lemma CosignRanksInside(s: State, t: Tid)
    requires CanStep(s, t) && s.threads[t].Cosign? && HoldsOffchain(s.threads[t])
    ensures RanksDown(s, CosignStep(s, t, true), t)
  {
    hide CacheIncludesAny;
  }

  lemma CosignRanksOutside(s: State, t: Tid)
    requires CanStep(s, t) && s.threads[t].Cosign? && !HoldsOffchain(s.threads[t])
    ensures RanksDown(s, CosignStep(s, t, true), t)
  {
    hide CacheIncludesAny;
  }

  ghost function Total(threads: map<Tid, Thread>, ts: set<Tid>): nat
    requires ts <= threads.Keys
  {
    if ts == {} then 0 else var t :| t in ts; Rank(threads[t]) + Total(threads, ts - {t})
  }

  lemma {:induction false} TotalSplit(threads: map<Tid, Thread>, ts: set<Tid>, t: Tid)
    requires ts <= threads.Keys && t in ts
    ensures Total(threads, ts) == Rank(threads[t]) + Total(threads, ts - {t})
    decreases |ts|
  {
    var u :| u in ts && Total(threads, ts) == Rank(threads[u]) + Total(threads, ts - {u});
    if u != t {
      TotalSplit(threads, ts - {u}, t);
      TotalSplit(threads, ts - {t}, u);
      assert ts - {u} - {t} == ts - {t} - {u};
    }
  }

  lemma {:induction false} TotalFrame(threads: map<Tid, Thread>, threads': map<Tid, Thread>, ts: set<Tid>)
    requires ts <= threads.Keys && ts <= threads'.Keys && forall t :: t in ts ==> threads[t] == threads'[t]
    ensures Total(threads, ts) == Total(threads', ts)
    decreases |ts|
  {
    if ts != {} {
      var u :| u in ts && Total(threads, ts) == Rank(threads[u]) + Total(threads, ts - {u});
      TotalSplit(threads', ts, u);
      TotalFrame(threads, threads', ts - {u});
    }
  }

  lemma TotalSmaller(threads: map<Tid, Thread>, t: Tid, th: Thread)
    requires t in threads && Rank(th) < Rank(threads[t])
    ensures Total(threads[t := th], threads[t := th].Keys) < Total(threads, threads.Keys)
  {
    hide Rank;
    var threads' := threads[t := th];
    assert threads'.Keys == threads.Keys;
    TotalSplit(threads, threads.Keys, t);
    TotalSplit(threads', threads.Keys, t);
    TotalFrame(threads, threads', threads.Keys - {t});
  }

  function RoundRank(r: Round): nat {
    match r
    case RoundWanting(_, _, done) => |done| + 3
    case RoundReleasing(todo) => |todo| + 1
    case _ => 0
  }

  ghost function Measure(s: State): nat {
    Total(s.threads, s.threads.Keys) + RoundRank(s.round)
  }

  lemma AdvancingMeasure(s: State, a: Action)
    requires Enabled(s, a) && Advancing(a)
    ensures Measure(Do(s, a)) < Measure(s)
  {
    hide ThreadStep, CanAcquire, Rank, Total;
    match a
    case Step(t, _) =>
      StepRanksDown(s, t);
      TotalSmaller(s.threads, t, Do(s, a).threads[t]);
    case RoundHold =>
    case RoundRelease(b, _) => assert s.round.todo == (s.round.todo - {b}) + {b};
    case RoundResume =>
  }

  /** From every state that satisfies the invariant, steps without failures finish all requests. */
  lemma {:induction false} CanFinish(s: State) returns (rest: seq<Action>)
    requires Inv(s)
    ensures ValidRun(s, rest) && Quiescent(Run(s, rest)) && |rest| <= Measure(s)
    ensures forall k :: 0 <= k < |rest| ==> Advancing(rest[k])
    decreases Measure(s)
  {
    hide DataInv, ThreadsInv, Do, Enabled, LockInv, Quiescent, Measure, Advancing;
    if Quiescent(s) {
      rest := [];
    } else {
      var a := SomeoneCanStep(s);
      AdvancingMeasure(s, a);
      NextInv(s, a);
      var more := CanFinish(Do(s, a));
      rest := [a] + more;
      assert rest[1..] == more;
    }
  }

  /**
   No deadlock: in every reachable state a blocked request leaves someone else able to step, and the
   steps of the requests themselves bring all of them to their end.
   */
  lemma NoDeadlock(s0: State, run: seq<Action>) returns (rest: seq<Action>)
    requires Init(s0) && ValidRun(s0, run)
    ensures var s := Run(s0, run);
            && (forall t :: Blocked(s, t) ==> exists a :: Enabled(s, a) && Advancing(a))
            && ValidRun(s, rest) && Quiescent(Run(s, rest))
    ensures forall k :: 0 <= k < |rest| ==> Advancing(rest[k])
  {
    hide Init, ValidRun, Run, DataInv, ThreadsInv, Enabled, LockInv, Advancing, CanAcquire, Finished;
    ReachableInv(s0, run);
    var s := Run(s0, run);
    rest := CanFinish(s);
    if t :| Blocked(s, t) {
      assert !Quiescent(s);
      var a := SomeoneCanStep(s);
    }
  }
}
