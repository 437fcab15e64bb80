/** What a walk of a vtxo chain visits, and how a walk with a limit relates to the whole chain. */
module VtxoChainTheorems {
  import opened Outpoints
  import opened VtxoChain

  // A walk with a limit returns a prefix.

  ghost predicate Extends(w: Progress, w': Progress) {
    w.expanded <= w'.expanded && w.chain <= w'.chain && w.outpoints <= w'.outpoints
  }

  lemma ExpandsToSomething(db: Db, v: Vtxo)
    requires Expand(db, v).Ok?
    ensures |Expand(db, v).value.chain| > 0
  {
  }

  lemma {:induction false} LevelExtends(db: Db, ops: seq<Outpoint>, w: Progress, next: seq<Outpoint>, limit: Option<nat>)
    ensures var l := PlainLevel(db, ops, w, next, limit);
            && (!l.Broken? ==> Extends(w, l.w)) && (l.Expanded? ==> next <= l.next)
    decreases |ops|
  {
    hide Expand;
    if ops != [] {
      if ops[0] !in db.vtxos || ops[0] in w.expanded {
        LevelExtends(db, ops[1..], w, next, limit);
      } else if Expand(db, db.vtxos[ops[0]]).Ok? {
        var x := Expand(db, db.vtxos[ops[0]]).value;
        LevelExtends(db, ops[1..], Add(w, ops[0], x), next + NotIn(x.inputs, w.expanded + [ops[0]]), limit);
      }
    }
  }

  lemma {:induction false} WalkExtends(db: Db, frontier: seq<Outpoint>, w: Progress, limit: Option<nat>)
    ensures PlainWalk(db, frontier, w, limit).Walked? ==> Extends(w, PlainWalk(db, frontier, w, limit).w)
    decreases |Unexpanded(db, w)|, |frontier|
  {
    hide PlainLevel;
    if frontier != [] && !NoneFound(db, frontier) {
      LevelShrinks(db, frontier, w, limit);
      LevelExtends(db, frontier, w, [], limit);
      var l := PlainLevel(db, frontier, w, [], limit);
      if l.Expanded? {
        WalkExtends(db, l.next, l.w, limit);
      }
    }
  }

  lemma {:induction false} LevelPrefix(db: Db, ops: seq<Outpoint>, w: Progress, next: seq<Outpoint>, limit: nat)
    ensures var lim := PlainLevel(db, ops, w, next, Some(limit));
            var full := PlainLevel(db, ops, w, next, None);
            && !full.Stopped?
            && (!lim.Stopped? ==> full == lim)
            && (lim.Stopped? ==> && |lim.w.chain| >= limit
                                 && (full.Expanded? ==> Extends(lim.w, full.w) && |lim.w.chain| < |full.w.chain|))
    decreases |ops|
  {
    hide Expand;
    if ops != [] {
      if ops[0] !in db.vtxos || ops[0] in w.expanded {
        LevelPrefix(db, ops[1..], w, next, limit);
      } else if Expand(db, db.vtxos[ops[0]]).Ok? {
        var x := Expand(db, db.vtxos[ops[0]]).value;
        var w', next' := Add(w, ops[0], x), next + NotIn(x.inputs, w.expanded + [ops[0]]);
        ExpandsToSomething(db, db.vtxos[ops[0]]);
        LevelPrefix(db, ops[1..], w', next', limit);
        LevelExtends(db, ops[1..], w', next', None);
      }
    }
  }

  /**
   A walk with a limit is the walk without one, or stops at a prefix of it with at least limit txs.
   It reports truncation only when more of the chain remains.
   */
  lemma {:induction false} WalkPrefix(db: Db, frontier: seq<Outpoint>, w: Progress, limit: nat)
    ensures var lim := PlainWalk(db, frontier, w, Some(limit));
            var full := PlainWalk(db, frontier, w, None);
            && (full.Walked? ==> !full.truncated)
            && (!(lim.Walked? && lim.truncated) ==> full == lim)
            && (lim.Walked? && lim.truncated ==>
                  && |lim.w.chain| >= limit
                  && (full.Walked? ==> Extends(lim.w, full.w) && |lim.w.chain| < |full.w.chain|))
    decreases |Unexpanded(db, w)|, |frontier|
  {
    hide PlainLevel;
    if frontier != [] && !NoneFound(db, frontier) {
      LevelShrinks(db, frontier, w, Some(limit));
      LevelPrefix(db, frontier, w, [], limit);
      var lim := PlainLevel(db, frontier, w, [], Some(limit));
      var full := PlainLevel(db, frontier, w, [], None);
      if lim.Expanded? {
        WalkPrefix(db, lim.next, lim.w, limit);
      } else if full.Expanded? {
        LevelShrinks(db, frontier, w, None);
        WalkExtends(db, full.next, full.w, None);
        WalkPrefix(db, full.next, full.w, limit);
      }
    }
  }

  // What a walk visits.

  /** The outpoints one step above op. */
  function Inputs(db: Db, op: Outpoint): seq<Outpoint> {
    if op in db.vtxos && Expand(db, db.vtxos[op]).Ok? then Expand(db, db.vtxos[op]).value.inputs else []
  }

  ghost predicate Leads(db: Db, path: seq<Outpoint>) {
    forall i :: 0 <= i < |path| - 1 ==> path[i + 1] in Inputs(db, path[i])
  }

  ghost predicate Reachable(db: Db, starts: seq<Outpoint>, op: Outpoint) {
    exists path: seq<Outpoint> :: Reaches(db, starts, path, op)
  }

  ghost predicate Reaches(db: Db, starts: seq<Outpoint>, path: seq<Outpoint>, op: Outpoint) {
    path != [] && path[0] in starts && path[|path| - 1] == op && Leads(db, path)
  }

  lemma ReachableStart(db: Db, starts: seq<Outpoint>, op: Outpoint)
    requires op in starts
    ensures Reachable(db, starts, op)
  {
    assert Reaches(db, starts, [op], op);
  }

  lemma ReachableInput(db: Db, starts: seq<Outpoint>, op: Outpoint, input: Outpoint)
    requires Reachable(db, starts, op) && input in Inputs(db, op)
    ensures Reachable(db, starts, input)
  {
    var path :| Reaches(db, starts, path, op);
    assert Reaches(db, starts, path + [input], input);
  }

  lemma {:induction false} NotInMembers(ops: seq<Outpoint>, done: seq<Outpoint>)
    ensures forall op :: op in NotIn(ops, done) <==> op in ops && op !in done
  {
    if ops != [] {
      NotInMembers(ops[..|ops| - 1], done);
      assert ops == ops[..|ops| - 1] + [ops[|ops| - 1]];
    }
  }

  ghost predicate NoDuplicates(ops: seq<Outpoint>) {
    forall i, j :: 0 <= i < j < |ops| ==> ops[i] != ops[j]
  }

  /** Everything found so far is reachable, and nothing reachable has been lost: it is expanded or pending. */
  ghost predicate Visiting(db: Db, starts: seq<Outpoint>, w: Progress, pending: seq<Outpoint>) {
    && NoDuplicates(w.expanded)
    && (forall op :: op in w.expanded ==> op in db.vtxos && Reachable(db, starts, op))
    && (forall op :: op in pending ==> Reachable(db, starts, op))
    && (forall op :: op in starts && op in db.vtxos ==> op in w.expanded || op in pending)
    && (forall op, input :: op in w.expanded && input in Inputs(db, op) && input in db.vtxos ==>
          input in w.expanded || input in pending)
  }

  lemma StartVisiting(db: Db, starts: seq<Outpoint>)
    ensures Visiting(db, starts, Start, starts)
  {
    hide Reachable;
    forall op | op in starts ensures Reachable(db, starts, op) {
      ReachableStart(db, starts, op);
    }
  }

  lemma VisitOne(db: Db, starts: seq<Outpoint>, ops: seq<Outpoint>, w: Progress, next: seq<Outpoint>)
    requires ops != [] && Visiting(db, starts, w, ops + next) && ops[0] in db.vtxos && ops[0] !in w.expanded
    requires Expand(db, db.vtxos[ops[0]]).Ok?
    ensures var x := Expand(db, db.vtxos[ops[0]]).value;
            Visiting(db, starts, Add(w, ops[0], x), ops[1..] + (next + NotIn(x.inputs, w.expanded + [ops[0]])))
  {
    hide Expand, Reachable;
    var x := Expand(db, db.vtxos[ops[0]]).value;
    var next' := next + NotIn(x.inputs, w.expanded + [ops[0]]);
    assert ops[0] in ops + next;
    NotInMembers(x.inputs, w.expanded + [ops[0]]);
    forall op | op in ops[1..] + next' ensures Reachable(db, starts, op) {
      if op !in ops[1..] && op !in next {
        assert op in Inputs(db, ops[0]);
        ReachableInput(db, starts, ops[0], op);
      } else {
        assert op in ops + next;
      }
    }
    assert forall op :: op in ops + next ==> op == ops[0] || op in ops[1..] + next';
  }

  lemma VisitSkip(db: Db, starts: seq<Outpoint>, ops: seq<Outpoint>, w: Progress, next: seq<Outpoint>)
    requires ops != [] && Visiting(db, starts, w, ops + next) && (ops[0] !in db.vtxos || ops[0] in w.expanded)
    ensures Visiting(db, starts, w, ops[1..] + next)
  {
    hide Reachable, Inputs;
    assert forall op :: op in ops + next <==> op == ops[0] || op in ops[1..] + next;
  }

  lemma {:induction false} LevelVisits(
    db: Db, starts: seq<Outpoint>, ops: seq<Outpoint>, w: Progress, next: seq<Outpoint>, limit: Option<nat>)
    requires Visiting(db, starts, w, ops + next)
    ensures var l := PlainLevel(db, ops, w, next, limit);
            && (l.Expanded? ==> Visiting(db, starts, l.w, l.next))
            && (l.Stopped? ==> NoDuplicates(l.w.expanded))
    decreases |ops|
  {
    hide Expand, Visiting;
    if ops == [] {
      assert ops + next == next;
    } else if ops[0] !in db.vtxos || ops[0] in w.expanded {
      VisitSkip(db, starts, ops, w, next);
      LevelVisits(db, starts, ops[1..], w, next, limit);
    } else if Reached(limit, w) {
      assert NoDuplicates(w.expanded) by { VisitingDistinct(db, starts, w, ops + next); }
    } else if Expand(db, db.vtxos[ops[0]]).Ok? {
      var x := Expand(db, db.vtxos[ops[0]]).value;
      VisitOne(db, starts, ops, w, next);
      LevelVisits(db, starts, ops[1..], Add(w, ops[0], x), next + NotIn(x.inputs, w.expanded + [ops[0]]), limit);
    }
  }

  lemma VisitingDistinct(db: Db, starts: seq<Outpoint>, w: Progress, pending: seq<Outpoint>)
    requires Visiting(db, starts, w, pending)
    ensures NoDuplicates(w.expanded)
  {
  }

  lemma {:induction false} WalkVisits(db: Db, starts: seq<Outpoint>, frontier: seq<Outpoint>, w: Progress, limit: Option<nat>)
    requires Visiting(db, starts, w, frontier)
    ensures var walk := PlainWalk(db, frontier, w, limit);
            && (walk.Walked? ==> NoDuplicates(walk.w.expanded))
            && (walk.Walked? && !walk.truncated ==> Visiting(db, starts, walk.w, []))
    decreases |Unexpanded(db, w)|, |frontier|
  {
    hide PlainLevel, Visiting;
    VisitingDistinct(db, starts, w, frontier);
    if frontier != [] && !NoneFound(db, frontier) {
      LevelShrinks(db, frontier, w, limit);
      assert frontier + [] == frontier;
      LevelVisits(db, starts, frontier, w, [], limit);
      var l := PlainLevel(db, frontier, w, [], limit);
      if l.Expanded? {
        WalkVisits(db, starts, l.next, l.w, limit);
      }
    }
  }

  lemma {:induction false} VisitedAll(db: Db, starts: seq<Outpoint>, w: Progress, path: seq<Outpoint>, op: Outpoint)
    requires Visiting(db, starts, w, []) && Reaches(db, starts, path, op) && op in db.vtxos
    ensures op in w.expanded
    decreases |path|
  {
    var n := |path| - 1;
    if n > 0 {
      var before := path[n - 1];
      assert op in Inputs(db, before);
      assert Reaches(db, starts, path[..n], before);
      VisitedAll(db, starts, w, path[..n], before);
    }
  }

  /** A walk that is not truncated expands every reachable vtxo of the database, each one once. */
  lemma ExpandsReachableOnce(db: Db, starts: seq<Outpoint>, limit: Option<nat>)
    requires PlainWalk(db, starts, Start, limit).Walked?
    ensures var walk := PlainWalk(db, starts, Start, limit);
            && NoDuplicates(walk.w.expanded)
            && (!walk.truncated ==>
                  forall op :: op in walk.w.expanded <==> op in db.vtxos && Reachable(db, starts, op))
  {
    hide PlainWalk;
    StartVisiting(db, starts);
    WalkVisits(db, starts, starts, Start, limit);
    var walk := PlainWalk(db, starts, Start, limit);
    if !walk.truncated {
      forall op | op in db.vtxos && Reachable(db, starts, op) ensures op in walk.w.expanded {
        var path :| Reaches(db, starts, path, op);
        VisitedAll(db, starts, walk.w, path, op);
      }
    }
  }
}
