/**
 A mutex for each key, made when it is first needed and dropped when nobody holds or waits for it.
 Goroutines interleave at every point where they do not hold the mutex of the table.
 */
module KeyedMutex {
  import opened Outpoints

  type Key = string
  type Goroutine = nat
  type LockId = nat

  /** Where a goroutine is, with the key and the lock object it got for it. */
  datatype Pc =
      // Counted as a waiter, blocked on the lock object.
    | Queued(key: Key, lock: LockId)
      // Between lock(key) returning and its release.
    | Held(key: Key, lock: LockId)
      // Released the lock object, still counted as a waiter.
    | Leaving(key: Key, lock: LockId)

  /** Lock objects are numbered in the order in which they are made. */
  datatype State = State(
    locks: map<Key, LockId>, made: nat, waiters: map<LockId, int>, holder: map<LockId, Option<Goroutine>>,
    running: map<Goroutine, Pc>)

  const Init := State(map[], 0, map[], map[], map[])

  datatype Action = Enter(g: Goroutine, key: Key) | Acquire(g: Goroutine) | Unlock(g: Goroutine) | Leave(g: Goroutine)

  ghost predicate Enabled(s: State, a: Action) {
    match a
    case Enter(g, _) => g !in s.running
    case Acquire(g) =>
      g in s.running && s.running[g].Queued? && s.running[g].lock in s.holder && s.holder[s.running[g].lock].None?
    case Unlock(g) => g in s.running && s.running[g].Held?
    case Leave(g) => g in s.running && s.running[g].Leaving? && s.running[g].lock in s.waiters
  }

  /** Finds or makes the lock object of the key, and counts one more waiter. */
  function EnterStep(s: State, g: Goroutine, key: Key): State {
    var s1 :=
      if key in s.locks then s
      else s.(locks := s.locks[key := s.made], made := s.made + 1, waiters := s.waiters[s.made := 0],
              holder := s.holder[s.made := None]);
    var lock := s1.locks[key];
    s1.(waiters := s1.waiters[lock := (if lock in s1.waiters then s1.waiters[lock] else 0) + 1],
        running := s1.running[g := Queued(key, lock)])
  }

  /** Counts one waiter less and drops the entry of the key when none is left. */
  function LeaveStep(s: State, g: Goroutine): State
    requires g in s.running && s.running[g].lock in s.waiters
  {
    var pc := s.running[g];
    var n := s.waiters[pc.lock] - 1;
    s.(waiters := s.waiters[pc.lock := n],
       locks := if n <= 0 then s.locks - {pc.key} else s.locks,
       running := s.running - {g})
  }

  function Do(s: State, a: Action): State
    requires Enabled(s, a)
  {
    match a
    case Enter(g, key) => EnterStep(s, g, key)
    case Acquire(g) =>
      var pc := s.running[g];
      s.(holder := s.holder[pc.lock := Some(g)], running := s.running[g := Held(pc.key, pc.lock)])
    case Unlock(g) =>
      var pc := s.running[g];
      s.(holder := s.holder[pc.lock := None], running := s.running[g := Leaving(pc.key, pc.lock)])
    case Leave(g) => LeaveStep(s, g)
  }

  ghost predicate ValidRun(s: State, run: seq<Action>)
    decreases |run|
  {
    run == [] || (Enabled(s, run[0]) && ValidRun(Do(s, run[0]), run[1..]))
  }

  ghost function Run(s: State, run: seq<Action>): State
    requires ValidRun(s, run)
    decreases |run|
  {
    if run == [] then s else Run(Do(s, run[0]), run[1..])
  }

  // The invariant.

  /** The goroutines that hold the lock object or are counted as its waiters. */
  ghost function Users(running: map<Goroutine, Pc>, lock: LockId): set<Goroutine> {
    set g | g in running && running[g].lock == lock
  }

  ghost predicate Filed(s: State) {
    && (forall g :: g in s.running ==> s.running[g].key in s.locks && s.locks[s.running[g].key] == s.running[g].lock)
    && (forall key :: key in s.locks ==> s.locks[key] < s.made)
    && (forall key, other :: key in s.locks && other in s.locks && s.locks[key] == s.locks[other] ==> key == other)
  }

  ghost predicate Counted(s: State) {
    forall key :: key in s.locks ==>
      && s.locks[key] in s.waiters && s.waiters[s.locks[key]] == |Users(s.running, s.locks[key])|
      && s.waiters[s.locks[key]] > 0
  }

  ghost predicate OneHolder(s: State) {
    && (forall key :: key in s.locks ==> s.locks[key] in s.holder)
    && (forall g :: g in s.running && s.running[g].Held? ==>
          s.running[g].lock in s.holder && s.holder[s.running[g].lock] == Some(g))
    && (forall key :: key in s.locks && s.holder[s.locks[key]].Some? ==>
          var g := s.holder[s.locks[key]].value;
          g in s.running && s.running[g] == Held(key, s.locks[key]))
  }

  ghost predicate Inv(s: State) {
    Filed(s) && Counted(s) && OneHolder(s)
  }

  lemma UsersJoin(running: map<Goroutine, Pc>, g: Goroutine, pc: Pc, lock: LockId)
    requires g !in running
    ensures Users(running[g := pc], lock) == Users(running, lock) + if pc.lock == lock then {g} else {}
    ensures |Users(running[g := pc], lock)| == |Users(running, lock)| + if pc.lock == lock then 1 else 0
  {
    assert Users(running[g := pc], lock) == Users(running, lock) + if pc.lock == lock then {g} else {};
  }

  lemma UsersLeave(running: map<Goroutine, Pc>, g: Goroutine, lock: LockId)
    requires g in running
    ensures |Users(running - {g}, lock)| == |Users(running, lock)| - if running[g].lock == lock then 1 else 0
  {
    if running[g].lock == lock {
      assert Users(running, lock) == Users(running - {g}, lock) + {g};
    } else {
      assert Users(running, lock) == Users(running - {g}, lock);
    }
  }

  lemma UsersStay(running: map<Goroutine, Pc>, g: Goroutine, pc: Pc, lock: LockId)
    requires g in running && pc.lock == running[g].lock
    ensures Users(running[g := pc], lock) == Users(running, lock)
  {
  }

  lemma EnterInv(s: State, g: Goroutine, key: Key)
    requires Inv(s) && g !in s.running
    ensures Inv(EnterStep(s, g, key))
  {
    hide Counted, Filed, OneHolder, EnterStep;
    EnterFiled(s, g, key);
    EnterCounted(s, g, key);
    EnterHolder(s, g, key);
  }

  lemma EnterFiled(s: State, g: Goroutine, key: Key)
    requires Filed(s) && g !in s.running
    ensures Filed(EnterStep(s, g, key))
  {
  }

  lemma EnterHolder(s: State, g: Goroutine, key: Key)
    requires Filed(s) && OneHolder(s) && g !in s.running
    ensures OneHolder(EnterStep(s, g, key))
  {
    var s' := EnterStep(s, g, key);
    forall k | k in s'.locks ensures s'.locks[k] in s'.holder {
    }
    forall k | k in s'.locks && s'.holder[s'.locks[k]].Some?
      ensures var h := s'.holder[s'.locks[k]].value; h in s'.running && s'.running[h] == Held(k, s'.locks[k])
    {
      assert k in s.locks;
    }
  }

  lemma EnterCounted(s: State, g: Goroutine, key: Key)
    requires Filed(s) && Counted(s) && g !in s.running
    ensures Counted(EnterStep(s, g, key))
  {
    hide Users;
    var s' := EnterStep(s, g, key);
    var lock := s'.locks[key];
    forall k | k in s'.locks
      ensures |Users(s'.running, s'.locks[k])| == |Users(s.running, s'.locks[k])| + if k == key then 1 else 0
    {
      UsersJoin(s.running, g, Queued(key, lock), s'.locks[k]);
    }
    if key !in s.locks {
      NoUsers(s, lock);
    }
  }

  lemma NoUsers(s: State, lock: LockId)
    requires Filed(s) && lock >= s.made
    ensures |Users(s.running, lock)| == 0
  {
    assert Users(s.running, lock) == {};
  }

  lemma LeaveInv(s: State, g: Goroutine)
    requires Inv(s) && Enabled(s, Leave(g))
    ensures Inv(LeaveStep(s, g))
  {
    hide Users;
    var s' := LeaveStep(s, g);
    var pc := s.running[g];
    forall k | k in s.locks
      ensures |Users(s'.running, s.locks[k])| == |Users(s.running, s.locks[k])| - if k == pc.key then 1 else 0
    {
      UsersLeave(s.running, g, s.locks[k]);
    }
    if pc.key !in s'.locks {
      forall h | h in s'.running ensures s'.running[h].key != pc.key {
        LastUser(s, g, h);
      }
    }
  }

  lemma LastUser(s: State, g: Goroutine, h: Goroutine)
    requires Inv(s) && g in s.running && h in s.running && g != h && s.waiters[s.running[g].lock] <= 1
    ensures s.running[h].key != s.running[g].key
  {
    var users := Users(s.running, s.running[g].lock);
    assert g in users && users == {g} + (users - {g});
    assert h !in users - {g};
  }

  lemma MoveInv(s: State, a: Action)
    requires Inv(s) && Enabled(s, a) && (a.Acquire? || a.Unlock?)
    ensures Inv(Do(s, a))
  {
    hide Users, OneHolder;
    var s' := Do(s, a);
    forall k | k in s.locks ensures Users(s'.running, s.locks[k]) == Users(s.running, s.locks[k]) {
      UsersStay(s.running, a.g, s'.running[a.g], s.locks[k]);
    }
    MoveHolder(s, a);
  }

  lemma MoveHolder(s: State, a: Action)
    requires Filed(s) && OneHolder(s) && Enabled(s, a) && (a.Acquire? || a.Unlock?)
    ensures OneHolder(Do(s, a))
  {
    var s' := Do(s, a);
    forall g | g in s'.running && s'.running[g].Held?
      ensures s'.running[g].lock in s'.holder && s'.holder[s'.running[g].lock] == Some(g)
    {
    }
    forall k | k in s'.locks && s'.holder[s'.locks[k]].Some?
      ensures var h := s'.holder[s'.locks[k]].value; h in s'.running && s'.running[h] == Held(k, s'.locks[k])
    {
    }
  }

  lemma {:induction false} RunInv(s: State, run: seq<Action>)
    requires Inv(s) && ValidRun(s, run)
    ensures Inv(Run(s, run))
    decreases |run|
  {
    hide Inv;
    if run != [] {
      match run[0] {
        case Enter(g, key) => EnterInv(s, g, key);
        case Leave(g) => LeaveInv(s, g);
        case _ => MoveInv(s, run[0]);
      }
      RunInv(Do(s, run[0]), run[1..]);
    }
  }

  /** In every run at most one goroutine holds a key. */
  lemma MutualExclusion(run: seq<Action>, g: Goroutine, h: Goroutine)
    requires ValidRun(Init, run)
    requires g in Run(Init, run).running && h in Run(Init, run).running
    requires Run(Init, run).running[g].Held? && Run(Init, run).running[h].Held?
    requires Run(Init, run).running[g].key == Run(Init, run).running[h].key
    ensures g == h
  {
    hide ValidRun, Run;
    assert Inv(Init);
    RunInv(Init, run);
  }

  /** An entry is in the table exactly while someone holds or waits for its key, and all of them share it. */
  lemma EntryWhileUsed(run: seq<Action>, key: Key)
    requires ValidRun(Init, run)
    ensures var s := Run(Init, run);
            && (key in s.locks <==> exists g :: g in s.running && s.running[g].key == key)
            && (key in s.locks ==> s.locks[key] in s.waiters && s.waiters[s.locks[key]] == |set g | g in s.running && s.running[g].key == key|)
            && (forall g :: g in s.running && s.running[g].key == key ==> s.running[g].lock == s.locks[key])
  {
    hide ValidRun, Run;
    assert Inv(Init);
    RunInv(Init, run);
    var s := Run(Init, run);
    if key in s.locks {
      assert Users(s.running, s.locks[key]) == set g | g in s.running && s.running[g].key == key;
      assert Users(s.running, s.locks[key]) != {};
    }
  }

  /** Whoever waits for a key waits for somebody who can go on. */
  lemma SomeoneCanStep(run: seq<Action>, g: Goroutine) returns (a: Action)
    requires ValidRun(Init, run) && g in Run(Init, run).running
    ensures Enabled(Run(Init, run), a) && a.g in Run(Init, run).running
    ensures Run(Init, run).running[a.g].key == Run(Init, run).running[g].key
  {
    hide ValidRun, Run;
    assert Inv(Init);
    RunInv(Init, run);
    var s := Run(Init, run);
    match s.running[g]
    case Held(_, _) => a := Unlock(g);
    case Leaving(_, _) => a := Leave(g);
    case Queued(key, lock) =>
      if s.holder[lock].None? {
        a := Acquire(g);
      } else {
        a := Unlock(s.holder[lock].value);
      }
  }

  /** A goroutine that enters can take the lock exactly if nobody holds the key; then it holds the key. */
  lemma AcquiresExactly(run: seq<Action>, g: Goroutine, key: Key)
    requires ValidRun(Init, run) && g !in Run(Init, run).running
    ensures var s := Run(Init, run);
            && Enabled(s, Enter(g, key))
            && var s1 := Do(s, Enter(g, key));
            && (Enabled(s1, Acquire(g)) <==> forall h :: h in s.running && s.running[h].key == key ==> !s.running[h].Held?)
            && (Enabled(s1, Acquire(g)) ==>
                  var s2 := Do(s1, Acquire(g));
                  && g in s2.running && s2.running[g].Held? && s2.running[g].key == key
                  && forall h :: h in s.running ==> h in s2.running && s2.running[h] == s.running[h])
  {
    hide ValidRun, Run;
    assert Inv(Init);
    RunInv(Init, run);
    HolderMeans(Run(Init, run), key);
    hide Inv, Do, Enabled;
    EntersFree(Run(Init, run), g, key);
  }

  lemma EntersFree(s: State, g: Goroutine, key: Key)
    requires g !in s.running && (key in s.locks ==> s.locks[key] in s.holder)
    requires (key in s.locks && s.holder[s.locks[key]].Some?) <==> exists h :: h in s.running && s.running[h].key == key && s.running[h].Held?
    ensures Enabled(s, Enter(g, key))
    ensures var s1 := Do(s, Enter(g, key));
            && (Enabled(s1, Acquire(g)) <==> forall h :: h in s.running && s.running[h].key == key ==> !s.running[h].Held?)
            && (Enabled(s1, Acquire(g)) ==>
                  var s2 := Do(s1, Acquire(g));
                  && g in s2.running && s2.running[g].Held? && s2.running[g].key == key
                  && forall h :: h in s.running ==> h in s2.running && s2.running[h] == s.running[h])
  {
    var s1 := Do(s, Enter(g, key));
    assert s1.running[g] == Queued(key, s1.locks[key]);
    assert s1.locks[key] in s1.holder && (s1.holder[s1.locks[key]].Some? <==> key in s.locks && s.holder[s.locks[key]].Some?);
  }

  lemma HolderMeans(s: State, key: Key)
    requires Inv(s)
    ensures (key in s.locks ==> s.locks[key] in s.holder)
    ensures (key in s.locks && s.holder[s.locks[key]].Some?) <==> exists h :: h in s.running && s.running[h].key == key && s.running[h].Held?
  {
    if h :| h in s.running && s.running[h].key == key && s.running[h].Held? {
      assert s.locks[key] == s.running[h].lock;
    }
    if key in s.locks && s.holder[s.locks[key]].Some? {
      var h := s.holder[s.locks[key]].value;
      assert s.running[h] == Held(key, s.locks[key]);
    }
  }

  /** The lock objects in the table have the same waiters and holders. */
  ghost predicate SameCounts(s: State, s': State) {
    forall k :: k in s.locks ==>
      var lock := s.locks[k];
      && lock in s.waiters && lock in s'.waiters && s'.waiters[lock] == s.waiters[lock]
      && lock in s.holder && lock in s'.holder && s'.holder[lock] == s.holder[lock]
  }

  /** Taking and releasing a free key leaves no trace: the same goroutines, the same entries, the same counts. */
  lemma LockRoundTrip(run: seq<Action>, g: Goroutine, key: Key)
    requires ValidRun(Init, run) && g !in Run(Init, run).running
    requires forall h :: h in Run(Init, run).running && Run(Init, run).running[h].key == key ==> !Run(Init, run).running[h].Held?
    ensures var s := Run(Init, run); var steps := [Enter(g, key), Acquire(g), Unlock(g), Leave(g)];
            && ValidRun(s, steps)
            && var s' := Run(s, steps);
            && s'.running == s.running && s'.locks == s.locks && SameCounts(s, s')
  {
    assert Inv(Init);
    RunInv(Init, run);
    var s := Run(Init, run);
    HolderMeans(s, key);
    hide ValidRun, Run, Do, Enabled, Inv;
    FreeAgain(s, g, key);
    FourSteps(s, Enter(g, key), Acquire(g), Unlock(g), Leave(g));
  }

  /** Once the key is taken and released, only the count and the goroutine itself are left. */
  lemma Released(s: State, g: Goroutine, key: Key)
    requires Inv(s) && g !in s.running && (key in s.locks ==> s.locks[key] in s.holder && s.holder[s.locks[key]].None?)
    ensures Enabled(s, Enter(g, key)) && Enabled(Do(s, Enter(g, key)), Acquire(g))
    ensures Enabled(Do(Do(s, Enter(g, key)), Acquire(g)), Unlock(g))
    ensures var s1, s' := Do(s, Enter(g, key)), Do(Do(Do(s, Enter(g, key)), Acquire(g)), Unlock(g));
            && key in s1.locks && s'.locks == s1.locks && s'.waiters == s1.waiters
            && s'.holder == s1.holder && s'.running == s.running[g := Leaving(key, s1.locks[key])]
  {
    hide Inv;
    var s1 := Do(s, Enter(g, key));
    assert s1.running == s.running[g := Queued(key, s1.locks[key])];
    assert s1.locks[key] in s1.holder && s1.holder[s1.locks[key]].None?;
    var s2 := Do(s1, Acquire(g));
    assert s2.holder == s1.holder[s1.locks[key] := Some(g)];
    assert s1.holder[s1.locks[key] := Some(g)][s1.locks[key] := None] == s1.holder;
  }

  lemma FreeAgain(s: State, g: Goroutine, key: Key)
    requires Inv(s) && g !in s.running && (key in s.locks ==> s.locks[key] in s.holder && s.holder[s.locks[key]].None?)
    ensures Enabled(s, Enter(g, key)) && Enabled(Do(s, Enter(g, key)), Acquire(g))
    ensures Enabled(Do(Do(s, Enter(g, key)), Acquire(g)), Unlock(g))
    ensures Enabled(Do(Do(Do(s, Enter(g, key)), Acquire(g)), Unlock(g)), Leave(g))
    ensures var s' := Do(Do(Do(Do(s, Enter(g, key)), Acquire(g)), Unlock(g)), Leave(g));
            s'.running == s.running && s'.locks == s.locks && SameCounts(s, s')
  {
    Released(s, g, key);
    var s1 := Do(s, Enter(g, key));
    var s3 := Do(Do(s1, Acquire(g)), Unlock(g));
    LeavesAgain(s, s3, g, key);
  }

  lemma LeavesAgain(s: State, s3: State, g: Goroutine, key: Key)
    requires Inv(s) && g !in s.running
    requires var s1 := EnterStep(s, g, key);
             && key in s1.locks && s3.locks == s1.locks && s3.waiters == s1.waiters
             && s3.holder == s1.holder && s3.running == s.running[g := Leaving(key, s1.locks[key])]
    ensures Enabled(s3, Leave(g))
    ensures var s' := Do(s3, Leave(g)); s'.running == s.running && s'.locks == s.locks && SameCounts(s, s')
  {
    hide Users;
    var s' := LeaveStep(s3, g);
    assert s'.running == s.running;
    assert key in s.locks ==> s.waiters[s.locks[key]] > 0;
    assert s'.locks == s.locks;
  }

  lemma FourSteps(s: State, a: Action, b: Action, c: Action, d: Action)
    requires Enabled(s, a) && Enabled(Do(s, a), b) && Enabled(Do(Do(s, a), b), c) && Enabled(Do(Do(Do(s, a), b), c), d)
    ensures ValidRun(s, [a, b, c, d]) && Run(s, [a, b, c, d]) == Do(Do(Do(Do(s, a), b), c), d)
  {
    hide Do, Enabled, ValidRun, Run;
    var s1, s2, s3 := Do(s, a), Do(Do(s, a), b), Do(Do(Do(s, a), b), c);
    assert [a] + [b, c, d] == [a, b, c, d] && [b] + [c, d] == [b, c, d] && [c] + [d] == [c, d] && [d] + [] == [d];
    assert ValidRun(Do(s3, d), []) && Run(Do(s3, d), []) == Do(s3, d) by { NoSteps(Do(s3, d)); }
    StepBefore(s3, d, []);
    StepBefore(s2, c, [d]);
    StepBefore(s1, b, [c, d]);
    StepBefore(s, a, [b, c, d]);
  }

  lemma NoSteps(s: State)
    ensures ValidRun(s, []) && Run(s, []) == s
  {
  }

  lemma StepBefore(s: State, a: Action, rest: seq<Action>)
    requires Enabled(s, a) && ValidRun(Do(s, a), rest)
    ensures ValidRun(s, [a] + rest) && Run(s, [a] + rest) == Run(Do(s, a), rest)
  {
    hide Do, Enabled;
    assert ([a] + rest)[1..] == rest;
  }
}
