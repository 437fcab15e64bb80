/** The order of a walk: vtxos are expanded level by level, nearest first. */
module VtxoChainLevels {
  import opened Outpoints
  import opened VtxoChain
  import opened VtxoChainTheorems

  /** A path of at most n vtxos leads from the starts to op. */
  ghost predicate Within(db: Db, starts: seq<Outpoint>, op: Outpoint, n: nat) {
    exists path: seq<Outpoint> :: Reaches(db, starts, path, op) && |path| <= n
  }

  lemma WithinMore(db: Db, starts: seq<Outpoint>, op: Outpoint, n: nat, m: nat)
    requires Within(db, starts, op, n) && n <= m
    ensures Within(db, starts, op, m)
  {
    var path :| Reaches(db, starts, path, op) && |path| <= n;
  }

  lemma WithinStart(db: Db, starts: seq<Outpoint>, op: Outpoint)
    requires op in starts
    ensures Within(db, starts, op, 1)
  {
    assert Reaches(db, starts, [op], op);
  }

  lemma WithinInput(db: Db, starts: seq<Outpoint>, op: Outpoint, input: Outpoint, n: nat)
    requires Within(db, starts, op, n) && input in Inputs(db, op)
    ensures Within(db, starts, input, n + 1)
  {
    var path :| Reaches(db, starts, path, op) && |path| <= n;
    assert Reaches(db, starts, path + [input], input);
  }

  /** No vtxo comes before one that is nearer. */
  ghost predicate NearestFirst(db: Db, starts: seq<Outpoint>, ops: seq<Outpoint>) {
    forall i, j, n: nat :: 0 <= i < j < |ops| && Within(db, starts, ops[j], n) ==> Within(db, starts, ops[i], n)
  }

  /** Within a level: everything nearer than n is expanded, and what is expanded is at most n away. */
  ghost predicate InLevel(db: Db, starts: seq<Outpoint>, w: Progress, n: nat) {
    && NearestFirst(db, starts, w.expanded)
    && (forall op :: op in w.expanded ==> Within(db, starts, op, n + 1))
    && (forall op :: op in db.vtxos && Within(db, starts, op, n) ==> op in w.expanded)
  }

  lemma ExpandsNearest(db: Db, starts: seq<Outpoint>, w: Progress, op: Outpoint, x: Expansion, n: nat)
    requires InLevel(db, starts, w, n) && op in db.vtxos && op !in w.expanded && Within(db, starts, op, n + 1)
    ensures InLevel(db, starts, Add(w, op, x), n)
  {
    hide Within;
    var ops := w.expanded + [op];
    forall i, j, m: nat | 0 <= i < j < |ops| && Within(db, starts, ops[j], m) ensures Within(db, starts, ops[i], m) {
      if j == |w.expanded| {
        if m <= n {
          WithinMore(db, starts, op, m, n);
        } else {
          assert ops[i] in w.expanded;
          WithinMore(db, starts, ops[i], n + 1, m);
        }
      }
    }
  }

  ghost predicate AllWithin(db: Db, starts: seq<Outpoint>, ops: seq<Outpoint>, n: nat) {
    forall op :: op in ops ==> Within(db, starts, op, n)
  }

  lemma NextWithin(db: Db, starts: seq<Outpoint>, op: Outpoint, next: seq<Outpoint>, done: seq<Outpoint>, n: nat)
    requires op in db.vtxos && Expand(db, db.vtxos[op]).Ok? && Within(db, starts, op, n) && AllWithin(db, starts, next, n + 1)
    ensures AllWithin(db, starts, next + NotIn(Expand(db, db.vtxos[op]).value.inputs, done), n + 1)
  {
    hide Within, Expand;
    var inputs := Expand(db, db.vtxos[op]).value.inputs;
    NotInMembers(inputs, done);
    forall input | input in NotIn(inputs, done) ensures Within(db, starts, input, n + 1) {
      assert input in Inputs(db, op);
      WithinInput(db, starts, op, input, n);
    }
  }

  lemma {:induction false} LevelInOrder(
    db: Db, starts: seq<Outpoint>, ops: seq<Outpoint>, w: Progress, next: seq<Outpoint>, limit: Option<nat>, n: nat)
    requires InLevel(db, starts, w, n) && AllWithin(db, starts, ops, n + 1) && AllWithin(db, starts, next, n + 2)
    ensures var l := PlainLevel(db, ops, w, next, limit);
            && (!l.Broken? ==> InLevel(db, starts, l.w, n) && forall op :: op in w.expanded ==> op in l.w.expanded)
            && (l.Expanded? ==> && AllWithin(db, starts, l.next, n + 2)
                                && forall op :: op in ops && op in db.vtxos ==> op in l.w.expanded)
    decreases |ops|
  {
    hide Expand, Within, InLevel, NotIn;
    if ops != [] {
      var op := ops[0];
      assert op in ops;
      assert forall o :: o in ops ==> o == op || o in ops[1..];
      if op !in db.vtxos || op in w.expanded {
        LevelInOrder(db, starts, ops[1..], w, next, limit, n);
      } else if !Reached(limit, w) && Expand(db, db.vtxos[op]).Ok? {
        var x := Expand(db, db.vtxos[op]).value;
        ExpandsNearest(db, starts, w, op, x, n);
        NextWithin(db, starts, op, next, w.expanded + [op], n + 1);
        LevelInOrder(db, starts, ops[1..], Add(w, op, x), next + NotIn(x.inputs, w.expanded + [op]), limit, n);
        assert op in Add(w, op, x).expanded;
      }
    }
  }

  /** What is not a start is an input of something nearer. */
  lemma ComesFrom(db: Db, starts: seq<Outpoint>, op: Outpoint, n: nat) returns (before: Outpoint)
    requires Within(db, starts, op, n + 1) && op !in starts
    ensures Within(db, starts, before, n) && op in Inputs(db, before)
  {
    hide Inputs;
    var path :| Reaches(db, starts, path, op) && |path| <= n + 1;
    var m := |path| - 2;
    before := path[m];
    assert path[m + 1] in Inputs(db, path[m]);
    assert Reaches(db, starts, path[..m + 1], before);
  }

  /** What is one step further is expanded or on the frontier. */
  lemma StepFurther(db: Db, starts: seq<Outpoint>, w: Progress, frontier: seq<Outpoint>, op: Outpoint, n: nat)
    requires Visiting(db, starts, w, frontier) && op in db.vtxos && Within(db, starts, op, n + 1)
    requires forall o :: o in db.vtxos && Within(db, starts, o, n) ==> o in w.expanded
    ensures op in w.expanded || op in frontier
  {
    hide Within, Reachable, Expand;
    if op !in starts {
      var before := ComesFrom(db, starts, op, n);
      assert before in w.expanded;
    }
  }

  lemma {:induction false} WalkInOrder(
    db: Db, starts: seq<Outpoint>, frontier: seq<Outpoint>, w: Progress, limit: Option<nat>, n: nat)
    requires InLevel(db, starts, w, n) && AllWithin(db, starts, frontier, n + 1) && Visiting(db, starts, w, frontier)
    ensures var walk := PlainWalk(db, frontier, w, limit); walk.Walked? ==> NearestFirst(db, starts, walk.w.expanded)
    decreases |Unexpanded(db, w)|, |frontier|
  {
    hide PlainLevel, InLevel, Visiting, Within, NearestFirst;
    InLevelMeans(db, starts, w, n);
    if frontier != [] && !NoneFound(db, frontier) {
      LevelShrinks(db, frontier, w, limit);
      LevelInOrder(db, starts, frontier, w, [], limit, n);
      assert frontier + [] == frontier;
      LevelVisits(db, starts, frontier, w, [], limit);
      var l := PlainLevel(db, frontier, w, [], limit);
      if l.Stopped? {
        InLevelMeans(db, starts, l.w, n);
      } else if l.Expanded? {
        forall op | op in db.vtxos && Within(db, starts, op, n + 1) ensures op in l.w.expanded {
          StepFurther(db, starts, w, frontier, op, n);
        }
        NextLevel(db, starts, l.w, n);
        WalkInOrder(db, starts, l.next, l.w, limit, n + 1);
      }
    }
  }

  lemma InLevelMeans(db: Db, starts: seq<Outpoint>, w: Progress, n: nat)
    requires InLevel(db, starts, w, n)
    ensures NearestFirst(db, starts, w.expanded)
    ensures forall op :: op in db.vtxos && Within(db, starts, op, n) ==> op in w.expanded
  {
  }

  lemma NextLevel(db: Db, starts: seq<Outpoint>, w: Progress, n: nat)
    requires InLevel(db, starts, w, n) && forall op :: op in db.vtxos && Within(db, starts, op, n + 1) ==> op in w.expanded
    ensures InLevel(db, starts, w, n + 1)
  {
    hide Within, NearestFirst;
    forall op | op in w.expanded ensures Within(db, starts, op, n + 2) {
      WithinMore(db, starts, op, n + 1, n + 2);
    }
  }

  /**
   Every walk that succeeds, truncated or not, expands nearest first: if a vtxo is n steps away, everything
   expanded before it is at most n steps away.
   */
  lemma LevelByLevel(db: Db, starts: seq<Outpoint>, limit: Option<nat>, i: nat, j: nat, n: nat)
    requires PlainWalk(db, starts, Start, limit).Walked?
    requires i < j < |PlainWalk(db, starts, Start, limit).w.expanded|
    requires Within(db, starts, PlainWalk(db, starts, Start, limit).w.expanded[j], n)
    ensures Within(db, starts, PlainWalk(db, starts, Start, limit).w.expanded[i], n)
  {
    hide PlainWalk, Within, Visiting;
    StartVisiting(db, starts);
    forall op | op in starts ensures Within(db, starts, op, 1) {
      WithinStart(db, starts, op);
    }
    assert InLevel(db, starts, Start, 0) by { NothingNear(db, starts); }
    WalkInOrder(db, starts, starts, Start, limit, 0);
  }

  lemma NothingNear(db: Db, starts: seq<Outpoint>)
    ensures InLevel(db, starts, Start, 0)
  {
  }
}
