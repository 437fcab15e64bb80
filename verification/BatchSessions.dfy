/**
 The batch session manager: which finished batches still wait for their projection. The first part is
 the manager itself, the second what it guarantees over every interleaving of its callers.
 */
module BatchSessions {
  import opened Outpoints

  type Id = string

  /** Tracked batches with whether their projection was written, and the channel waiters sleep on. */
  datatype Sessions = Sessions(inflight: map<Id, bool>, updated: nat)

  function Tracking(m: Sessions, id: Id, ended: bool): Sessions {
    if ended && id !in m.inflight then m.(inflight := m.inflight[id := false]) else m
  }

  /** Closes the channel, by replacing it with the next one, when a tracked batch is projected. */
  function Projecting(m: Sessions, id: Id): Sessions {
    if id in m.inflight && !m.inflight[id] then Sessions(m.inflight[id := true], m.updated + 1) else m
  }

  function Projected(m: Sessions): set<Id> {
    set id | id in m.inflight && m.inflight[id]
  }

  predicate Pending(m: Sessions) {
    exists id :: id in m.inflight && !m.inflight[id]
  }

  function Forgetting(m: Sessions): Sessions {
    m.(inflight := map id | id in m.inflight && !m.inflight[id] :: false)
  }

  class BatchSessionManager {
    var inflightBatches: map<Id, bool>
    var updated: nat

    ghost function State(): Sessions
      reads this
    {
      Sessions(inflightBatches, updated)
    }

    constructor ()
      ensures State() == Sessions(map[], 0)
    {
      inflightBatches, updated := map[], 0;
    }

    /** Only a batch that ended is tracked, and tracking it again changes nothing. */
    method Track(id: Id, ended: bool)
      modifies this`inflightBatches
      ensures State() == Tracking(old(State()), id, ended)
      ensures inflightBatches
              == if ended && id !in old(inflightBatches) then old(inflightBatches)[id := false] else old(inflightBatches)
    {
      if !ended {
        return;
      }
      if id !in inflightBatches {
        inflightBatches := inflightBatches[id := false];
      }
    }

    /** A batch that nothing waits for is ignored. */
    method MarkProjected(id: Id)
      modifies this
      ensures State() == Projecting(old(State()), id)
      ensures var waited := id in old(inflightBatches) && !old(inflightBatches)[id];
              && inflightBatches == (if waited then old(inflightBatches)[id := true] else old(inflightBatches))
              && updated == old(updated) + if waited then 1 else 0
    {
      if id !in inflightBatches || inflightBatches[id] {
        return;
      }
      inflightBatches := inflightBatches[id := true];
      updated := updated + 1;
    }

    /** Stops tracking the projected batches and returns them, each one once. */
    method ForgetProjected() returns (done: seq<Id>, pending: bool)
      modifies this`inflightBatches
      ensures State() == Forgetting(old(State()))
      ensures inflightBatches == map id | id in old(inflightBatches) && !old(inflightBatches)[id] :: false
      ensures forall id :: id in done <==> id in old(inflightBatches) && old(inflightBatches)[id]
      ensures forall id :: id in done <==> id in Projected(old(State()))
      ensures forall i, j :: 0 <= i < j < |done| ==> done[i] != done[j]
      ensures pending <==> exists id :: id in old(inflightBatches) && !old(inflightBatches)[id]
      ensures pending <==> Pending(old(State()))
    {
      ghost var start := inflightBatches;
      done, pending := [], false;
      var left := inflightBatches.Keys;
      while left != {}
        invariant left <= start.Keys
        invariant forall id :: id in done <==> id in start && id !in left && start[id]
        invariant forall i, j :: 0 <= i < j < |done| ==> done[i] != done[j]
        invariant pending <==> exists id :: id in start && id !in left && !start[id]
        invariant forall id :: id in inflightBatches <==> id in start && (id in left || !start[id])
        invariant forall id :: id in inflightBatches ==> inflightBatches[id] == start[id]
        decreases |left|
      {
        var id :| id in left;
        left := left - {id};
        if inflightBatches[id] {
          done := done + [id];
          inflightBatches := inflightBatches - {id};
        } else {
          pending := true;
        }
      }
    }
  }

  // Runs: the round loop and any other waiter, batches that end, projections that land.

  /** A caller of waitForProjections: collecting, asleep on a channel, or back with what it collected. */
  datatype Waiter = Collecting(got: seq<Id>) | Asleep(got: seq<Id>, channel: nat) | Back(got: seq<Id>)

  /** What happened to a batch; a forgotten one was handed to a waiter. */
  datatype Entry = Tracked(id: Id) | Landed(id: Id) | Forgotten(id: Id, w: nat)

  datatype State = State(m: Sessions, waiters: map<nat, Waiter>, log: seq<Entry>)

  datatype Action =
    | Track(id: Id, ended: bool)
    | MarkProjected(id: Id)
      // Calls waitForProjections; returns at once if nothing is tracked.
    | Wait(w: nat)
      // Takes the projected batches in the order given and sleeps if others are pending.
    | Collect(w: nat, done: seq<Id>)
      // Wakes because the channel was closed.
    | Wake(w: nat)
      // Stops waiting on the timer or the context.
    | GiveUp(w: nat)

  ghost predicate Lists(done: seq<Id>, ids: set<Id>) {
    (forall id :: id in done <==> id in ids) && forall i, j :: 0 <= i < j < |done| ==> done[i] != done[j]
  }

  ghost predicate Enabled(s: State, a: Action) {
    match a
    case Track(_, _) => true
    case MarkProjected(_) => true
    case Wait(w) => w !in s.waiters
    case Collect(w, done) => w in s.waiters && s.waiters[w].Collecting? && Lists(done, Projected(s.m))
    // A channel is closed once a newer one has taken its place.
    case Wake(w) => w in s.waiters && s.waiters[w].Asleep? && s.waiters[w].channel < s.m.updated
    case GiveUp(w) => w in s.waiters && s.waiters[w].Asleep?
  }

  function ForgottenEntries(done: seq<Id>, w: nat): seq<Entry> {
    if done == [] then [] else ForgottenEntries(done[..|done| - 1], w) + [Forgotten(done[|done| - 1], w)]
  }

  function Do(s: State, a: Action): State
    requires Enabled(s, a)
  {
    match a
    case Track(id, ended) =>
      State(Tracking(s.m, id, ended), s.waiters, if Tracking(s.m, id, ended) != s.m then s.log + [Tracked(id)] else s.log)
    case MarkProjected(id) =>
      State(Projecting(s.m, id), s.waiters, if Projecting(s.m, id) != s.m then s.log + [Landed(id)] else s.log)
    case Wait(w) =>
      s.(waiters := s.waiters[w := if s.m.inflight == map[] then Back([]) else Collecting([])])
    case Collect(w, done) =>
      var got := s.waiters[w].got + done;
      State(Forgetting(s.m),
            s.waiters[w := if Pending(s.m) then Asleep(got, s.m.updated) else Back(got)],
            s.log + ForgottenEntries(done, w))
    case Wake(w) => s.(waiters := s.waiters[w := Collecting(s.waiters[w].got)])
    case GiveUp(w) => s.(waiters := s.waiters[w := Back(s.waiters[w].got)])
  }

  const Init := State(Sessions(map[], 0), map[], [])

  ghost predicate ValidRun(s: State, run: seq<Action>)
    decreases |run|
  {
    run == [] || (Enabled(s, run[0]) && ValidRun(Do(s, run[0]), run[1..]))
  }

  ghost function Run(s: State, run: seq<Action>): State
    requires ValidRun(s, run)
    decreases |run|
  {
    if run == [] then s else Run(Do(s, run[0]), run[1..])
  }

  // What the log of a run looks like for one batch.

  datatype Phase = Idle | Waiting | Written | Broken

  function NextPhase(phase: Phase, e: Entry): Phase {
    match (phase, e)
    case (Idle, Tracked(_)) => Waiting
    case (Waiting, Landed(_)) => Written
    case (Written, Forgotten(_, _)) => Idle
    case _ => Broken
  }

  /** The entries of a batch have to come as tracked, landed, forgotten, over and over. */
  function PhaseOf(log: seq<Entry>, id: Id): Phase {
    if log == [] then Idle
    else
      var before := PhaseOf(log[..|log| - 1], id);
      if log[|log| - 1].id == id then NextPhase(before, log[|log| - 1]) else before
  }

  /** What a waiter was handed, in order. */
  function Handed(log: seq<Entry>, w: nat): seq<Id> {
    if log == [] then []
    else
      var e := log[|log| - 1];
      Handed(log[..|log| - 1], w) + if e.Forgotten? && e.w == w then [e.id] else []
  }

  ghost predicate LogMatches(m: Sessions, log: seq<Entry>) {
    forall id :: PhaseOf(log, id) == if id !in m.inflight then Idle else if m.inflight[id] then Written else Waiting
  }

  ghost predicate HandedMatches(s: State) {
    forall w :: Handed(s.log, w) == if w in s.waiters then s.waiters[w].got else []
  }

  /** Whoever sleeps on the open channel has missed nothing and has something to wait for. */
  ghost predicate SleepersSafe(s: State) {
    forall w :: w in s.waiters && s.waiters[w].Asleep? ==>
      && s.waiters[w].channel <= s.m.updated
      && (s.waiters[w].channel == s.m.updated ==> Projected(s.m) == {} && Pending(s.m))
  }

  ghost predicate Inv(s: State) {
    LogMatches(s.m, s.log) && HandedMatches(s) && SleepersSafe(s)
  }

  lemma LogSnoc(log: seq<Entry>, e: Entry)
    ensures forall id :: PhaseOf(log + [e], id) == if e.id == id then NextPhase(PhaseOf(log, id), e) else PhaseOf(log, id)
    ensures forall w :: Handed(log + [e], w) == Handed(log, w) + if e.Forgotten? && e.w == w then [e.id] else []
  {
    assert (log + [e])[..|log + [e]| - 1] == log;
  }

  lemma WrittenToIdle(id: Id, w: nat)
    ensures NextPhase(Written, Forgotten(id, w)) == Idle
  {
  }

  lemma {:induction false} LogForgotten(log: seq<Entry>, done: seq<Id>, w: nat)
    requires forall i, j :: 0 <= i < j < |done| ==> done[i] != done[j]
    requires forall id :: id in done ==> PhaseOf(log, id) == Written
    ensures var log' := log + ForgottenEntries(done, w);
            && (forall id :: PhaseOf(log', id) == if id in done then Idle else PhaseOf(log, id))
            && (forall v :: Handed(log', v) == if v == w then Handed(log, v) + done else Handed(log, v))
    decreases |done|
  {
    hide PhaseOf, Handed, NextPhase;
    if done == [] {
      assert log + ForgottenEntries(done, w) == log;
    } else {
      var n := |done| - 1;
      var before := log + ForgottenEntries(done[..n], w);
      LogForgotten(log, done[..n], w);
      LogSnoc(before, Forgotten(done[n], w));
      WrittenToIdle(done[n], w);
      assert log + ForgottenEntries(done, w) == before + [Forgotten(done[n], w)];
      hide ForgottenEntries;
      assert done == done[..n] + [done[n]] && done[n] !in done[..n];
    }
  }

  lemma StepInv(s: State, a: Action)
    requires Inv(s) && Enabled(s, a)
    ensures Inv(Do(s, a))
  {
    hide PhaseOf, Handed;
    match a
    case Track(id, ended) => LogSnoc(s.log, Tracked(id));
    case MarkProjected(id) => LogSnoc(s.log, Landed(id));
    case Collect(w, done) => CollectInv(s, w, done);
    case _ =>
  }

  lemma CollectInv(s: State, w: nat, done: seq<Id>)
    requires Inv(s) && Enabled(s, Collect(w, done))
    ensures Inv(Do(s, Collect(w, done)))
  {
    hide PhaseOf, Handed, ForgottenEntries;
    LogForgotten(s.log, done, w);
    assert Projected(Forgetting(s.m)) == {};
    if Pending(s.m) {
      var id :| id in s.m.inflight && !s.m.inflight[id];
      assert id in Forgetting(s.m).inflight && !Forgetting(s.m).inflight[id];
    }
  }

  lemma {:induction false} RunInv(s: State, run: seq<Action>)
    requires Inv(s) && ValidRun(s, run)
    ensures Inv(Run(s, run))
    decreases |run|
  {
    hide Inv, Enabled, Do;
    if run != [] {
      StepInv(s, run[0]);
      RunInv(Do(s, run[0]), run[1..]);
    }
  }

  lemma InitInv()
    ensures Inv(Init)
  {
  }

  /**
   In every run: a batch that a waiter got was tracked and then projected since it was last handed out,
   each time it is handed to one waiter only, and a waiter that sleeps while some projection is there
   to be collected can wake.
   */
  lemma SessionsSafe(run: seq<Action>)
    requires ValidRun(Init, run)
    ensures var s := Run(Init, run);
            && (forall id :: PhaseOf(s.log, id) != Broken)
            && (forall w :: w in s.waiters ==> s.waiters[w].got == Handed(s.log, w))
            && (forall w :: w in s.waiters && s.waiters[w].Asleep? && Projected(s.m) != {} ==> Enabled(s, Wake(w)))
  {
    hide ValidRun, Run, PhaseOf, Handed;
    InitInv();
    RunInv(Init, run);
  }

  /** A batch that is ready to be handed out was tracked and then projected since it was last handed out. */
  lemma {:induction false} ReadyAfterLanding(log: seq<Entry>, id: Id) returns (i: nat, j: nat)
    requires PhaseOf(log, id) == Waiting || PhaseOf(log, id) == Written
    ensures i < |log| && log[i] == Tracked(id)
    ensures forall k :: i < k < |log| ==> !(log[k].Forgotten? && log[k].id == id)
    ensures PhaseOf(log, id) == Written ==> i < j < |log| && log[j] == Landed(id)
  {
    var n := |log| - 1;
    var before := PhaseOf(log[..n], id);
    i, j := n, n;
    if before == Waiting || before == Written {
      i, j := ReadyAfterLanding(log[..n], id);
      if log[n] == Landed(id) {
        j := n;
      }
    }
  }

  /** A batch that is not projected stays tracked through timeouts, cancellations and other batches. */
  lemma {:induction false} UnprojectedSurvives(s: State, run: seq<Action>, id: Id)
    requires ValidRun(s, run) && id in s.m.inflight && !s.m.inflight[id]
    requires forall i :: 0 <= i < |run| ==> run[i] != MarkProjected(id)
    ensures id in Run(s, run).m.inflight && !Run(s, run).m.inflight[id]
    decreases |run|
  {
    if run != [] {
      assert run[0] != MarkProjected(id);
      UnprojectedSurvives(Do(s, run[0]), run[1..], id);
    }
  }

  // A waiter that does not give up.

  /** The batch was handed out after the first n entries of the log. */
  ghost predicate ForgottenSince(log: seq<Entry>, n: nat, id: Id) {
    exists k :: n <= k < |log| && log[k].Forgotten? && log[k].id == id
  }

  /** Each of the ids is still tracked or was handed out since; once w is back, all were handed out. */
  ghost predicate Awaiting(s: State, w: nat, ids: set<Id>, n: nat) {
    && n <= |s.log| && w in s.waiters
    && (forall id :: id in ids ==> id in s.m.inflight || ForgottenSince(s.log, n, id))
    && (s.waiters[w].Back? ==> forall id :: id in ids ==> ForgottenSince(s.log, n, id))
  }

  lemma SinceLater(log: seq<Entry>, more: seq<Entry>, n: nat, id: Id)
    requires ForgottenSince(log, n, id)
    ensures ForgottenSince(log + more, n, id)
  {
    var k :| n <= k < |log| && log[k].Forgotten? && log[k].id == id;
    assert (log + more)[k] == log[k];
  }

  lemma {:induction false} ForgottenLogged(log: seq<Entry>, done: seq<Id>, w: nat, id: Id, n: nat)
    requires id in done && n <= |log|
    ensures ForgottenSince(log + ForgottenEntries(done, w), n, id)
    decreases |done|
  {
    var last := |done| - 1;
    var all := log + ForgottenEntries(done, w);
    if done[last] == id {
      assert all[|all| - 1] == Forgotten(id, w);
    } else {
      ForgottenLogged(log, done[..last], w, id, n);
      SinceLater(log + ForgottenEntries(done[..last], w), [Forgotten(done[last], w)], n, id);
      assert all == log + ForgottenEntries(done[..last], w) + [Forgotten(done[last], w)];
    }
  }

  /** The log of a step is the old one with entries added. */
  lemma LogGrows(s: State, a: Action) returns (more: seq<Entry>)
    requires Enabled(s, a)
    ensures Do(s, a).log == s.log + more
  {
    match a
    case Track(id, ended) => more := if Tracking(s.m, id, ended) != s.m then [Tracked(id)] else [];
    case MarkProjected(id) => more := if Projecting(s.m, id) != s.m then [Landed(id)] else [];
    case Collect(w, done) => more := ForgottenEntries(done, w);
    case _ => more := [];
  }

  lemma AwaitingStep(s: State, a: Action, w: nat, ids: set<Id>, n: nat)
    requires Enabled(s, a) && Awaiting(s, w, ids, n) && a != GiveUp(w)
    ensures Awaiting(Do(s, a), w, ids, n)
  {
    hide ForgottenSince, ForgottenEntries;
    var s' := Do(s, a);
    var more := LogGrows(s, a);
    forall id | id in ids && ForgottenSince(s.log, n, id) ensures ForgottenSince(s'.log, n, id) {
      SinceLater(s.log, more, n, id);
    }
    if a.Collect? {
      forall id | id in ids && id in s.m.inflight && s.m.inflight[id] ensures ForgottenSince(s'.log, n, id) {
        ForgottenLogged(s.log, a.done, a.w, id, n);
      }
    }
  }

  lemma {:induction false} AwaitingRun(s: State, run: seq<Action>, w: nat, ids: set<Id>, n: nat)
    requires ValidRun(s, run) && Awaiting(s, w, ids, n) && forall i :: 0 <= i < |run| ==> run[i] != GiveUp(w)
    ensures Awaiting(Run(s, run), w, ids, n)
    decreases |run|
  {
    hide Awaiting, Enabled, Do;
    if run != [] {
      AwaitingStep(s, run[0], w, ids, n);
      assert forall i :: 0 <= i < |run[1..]| ==> run[1..][i] == run[i + 1];
      AwaitingRun(Do(s, run[0]), run[1..], w, ids, n);
    }
  }

  /** A waiter that comes back without giving up has seen every batch that was tracked when it started handed out. */
  lemma BackMeansAllProjected(s: State, w: nat, run: seq<Action>)
    requires Enabled(s, Wait(w)) && ValidRun(Do(s, Wait(w)), run)
    requires forall i :: 0 <= i < |run| ==> run[i] != GiveUp(w)
    requires w in Run(Do(s, Wait(w)), run).waiters && Run(Do(s, Wait(w)), run).waiters[w].Back?
    ensures forall id :: id in s.m.inflight ==> ForgottenSince(Run(Do(s, Wait(w)), run).log, |s.log|, id)
  {
    hide ValidRun, Run;
    var s1 := Do(s, Wait(w));
    assert Awaiting(s1, w, s.m.inflight.Keys, |s.log|);
    AwaitingRun(s1, run, w, s.m.inflight.Keys, |s.log|);
  }

  // Coming back.

  lemma RunSnoc(s: State, run: seq<Action>, a: Action)
    requires ValidRun(s, run) && Enabled(Run(s, run), a)
    ensures ValidRun(s, run + [a]) && Run(s, run + [a]) == Do(Run(s, run), a)
    decreases |run|
  {
    hide Do, Enabled;
    if run == [] {
      assert [a][1..] == [];
      assert run + [a] == [a] && ValidRun(Do(s, a), []);
    } else {
      RunSnoc(Do(s, run[0]), run[1..], a);
      assert (run + [a])[1..] == run[1..] + [a];
    }
  }

  /** The projections of all tracked batches land; nobody else moves. */
  lemma {:induction false} AllLand(s: State, left: set<Id>) returns (run: seq<Action>)
    requires forall id :: id in left <==> id in s.m.inflight && !s.m.inflight[id]
    ensures ValidRun(s, run)
    ensures var s' := Run(s, run);
            && s'.waiters == s.waiters && s'.m.inflight == (map id | id in s.m.inflight :: true)
            && s'.m.updated >= s.m.updated && (left != {} ==> s'.m.updated > s.m.updated)
    decreases |left|
  {
    if left == {} {
      run := [];
      assert s.m.inflight == map id | id in s.m.inflight :: true;
    } else {
      var id :| id in left;
      var s1 := Do(s, MarkProjected(id));
      var rest := AllLand(s1, left - {id});
      run := [MarkProjected(id)] + rest;
      assert run[1..] == rest;
      assert (map i | i in s1.m.inflight :: true) == (map i | i in s.m.inflight :: true);
    }
  }

  lemma {:induction false} InOrder(ids: set<Id>) returns (done: seq<Id>)
    ensures Lists(done, ids)
    decreases |ids|
  {
    done := [];
    if ids != {} {
      var id :| id in ids;
      var rest := InOrder(ids - {id});
      done := rest + [id];
      assert forall i :: 0 <= i < |rest| ==> rest[i] in rest;
    }
  }

  lemma AllHandedOut(s: State, w: nat) returns (done: seq<Id>)
    requires w in s.waiters && s.waiters[w].Collecting? && forall id :: id in s.m.inflight ==> s.m.inflight[id]
    ensures Enabled(s, Collect(w, done)) && forall id :: id in done <==> id in s.m.inflight
    ensures var s' := Do(s, Collect(w, done)); s'.m.inflight == map[] && s'.waiters == s.waiters[w := Back(s.waiters[w].got + done)]
  {
    done := InOrder(Projected(s.m));
  }

  /**
   Once the projections of all tracked batches have landed, a waiter wakes and comes back, having been handed
   every batch that was still tracked, and nothing is tracked any more.
   */
  lemma WaiterComesBack(before: seq<Action>, w: nat) returns (run: seq<Action>)
    requires ValidRun(Init, before)
    requires var s := Run(Init, before); w in s.waiters && (s.waiters[w].Asleep? || s.waiters[w].Collecting?)
    ensures ValidRun(Run(Init, before), run)
    ensures var s := Run(Init, before); var s' := Run(s, run);
            && s'.m.inflight == map[] && w in s'.waiters && s'.waiters[w].Back?
            && (forall id :: id in s'.waiters[w].got <==> id in s.waiters[w].got || id in s.m.inflight)
            && (forall u :: u in s.waiters && u != w ==> u in s'.waiters && s'.waiters[u] == s.waiters[u])
  {
    var s := Run(Init, before);
    InitInv();
    RunInv(Init, before);
    hide LogMatches, HandedMatches;
    var left := set id | id in s.m.inflight && !s.m.inflight[id];
    run := AllLand(s, left);
    var s1 := Run(s, run);
    hide Inv, ValidRun, Run;
    if s1.waiters[w].Asleep? {
      Wakeable(s, w, left);
      RunSnoc(s, run, Wake(w));
      run := run + [Wake(w)];
      s1 := Do(s1, Wake(w));
    }
    var done := AllHandedOut(s1, w);
    RunSnoc(s, run, Collect(w, done));
    run := run + [Collect(w, done)];
  }

  lemma Wakeable(s: State, w: nat, left: set<Id>)
    requires SleepersSafe(s) && w in s.waiters && s.waiters[w].Asleep?
    requires forall id :: id in left <==> id in s.m.inflight && !s.m.inflight[id]
    ensures s.waiters[w].channel < s.m.updated || left != {}
    ensures s.waiters[w].channel <= s.m.updated
  {
    if s.waiters[w].channel == s.m.updated {
      var id :| id in s.m.inflight && !s.m.inflight[id];
      assert id in left;
    }
  }
}
