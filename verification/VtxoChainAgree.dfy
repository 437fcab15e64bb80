/** When two databases give the same walk: it is enough that they agree on what the walk can reach. */
module VtxoChainAgree {
  import opened Outpoints
  import opened VtxoChain
  import opened VtxoChainTheorems
  import opened MarkerIndex
  import opened VtxoChainLinks

  /** Both have the vtxo, or neither has, and it expands to the same. */
  ghost predicate AgreeAt(db: Db, db': Db, op: Outpoint) {
    && (op in db.vtxos <==> op in db'.vtxos)
    && (op in db.vtxos ==> Expand(db, db.vtxos[op]) == Expand(db', db'.vtxos[op]))
  }

  lemma {:induction false} LevelAgrees(
    db: Db, db': Db, ops: seq<Outpoint>, w: Progress, next: seq<Outpoint>, limit: Option<nat>)
    requires forall op :: op in ops ==> AgreeAt(db, db', op)
    ensures PlainLevel(db, ops, w, next, limit) == PlainLevel(db', ops, w, next, limit)
    decreases |ops|
  {
    hide Expand;
    if ops != [] {
      assert AgreeAt(db, db', ops[0]);
      if ops[0] !in db.vtxos || ops[0] in w.expanded {
        LevelAgrees(db, db', ops[1..], w, next, limit);
      } else if Expand(db, db.vtxos[ops[0]]).Ok? {
        var x := Expand(db, db.vtxos[ops[0]]).value;
        LevelAgrees(db, db', ops[1..], Add(w, ops[0], x), next + NotIn(x.inputs, w.expanded + [ops[0]]), limit);
      }
    }
  }

  lemma {:induction false} WalkAgreesFrom(
    db: Db, db': Db, starts: seq<Outpoint>, frontier: seq<Outpoint>, w: Progress, limit: Option<nat>)
    requires Visiting(db, starts, w, frontier)
    requires forall op :: Reachable(db, starts, op) ==> AgreeAt(db, db', op)
    ensures PlainWalk(db, frontier, w, limit) == PlainWalk(db', frontier, w, limit)
    decreases |Unexpanded(db, w)|, |frontier|
  {
    hide PlainLevel, Reachable, AgreeAt, Visiting;
    PendingReachable(db, starts, w, frontier);
    LevelAgrees(db, db', frontier, w, [], limit);
    NoneFoundAgrees(db, db', frontier);
    if frontier != [] && !NoneFound(db, frontier) {
      LevelShrinks(db, frontier, w, limit);
      assert frontier + [] == frontier;
      LevelVisits(db, starts, frontier, w, [], limit);
      var l := PlainLevel(db, frontier, w, [], limit);
      if l.Expanded? {
        WalkAgreesFrom(db, db', starts, l.next, l.w, limit);
      }
    }
  }

  lemma PendingReachable(db: Db, starts: seq<Outpoint>, w: Progress, pending: seq<Outpoint>)
    requires Visiting(db, starts, w, pending)
    ensures forall op :: op in pending ==> Reachable(db, starts, op)
  {
  }

  lemma NoneFoundAgrees(db: Db, db': Db, ops: seq<Outpoint>)
    requires forall op :: op in ops ==> AgreeAt(db, db', op)
    ensures NoneFound(db, ops) <==> NoneFound(db', ops)
  {
    hide Expand;
    assert forall i :: 0 <= i < |ops| ==> AgreeAt(db, db', ops[i]);
  }

  /** A walk only looks at what it can reach, whatever its limit and its outcome. */
  lemma WalkAgrees(db: Db, db': Db, starts: seq<Outpoint>, limit: Option<nat>)
    requires forall op :: Reachable(db, starts, op) ==> AgreeAt(db, db', op)
    ensures PlainWalk(db, starts, Start, limit) == PlainWalk(db', starts, Start, limit)
  {
    hide Reachable, AgreeAt, Visiting;
    StartVisiting(db, starts);
    WalkAgreesFrom(db, db', starts, starts, Start, limit);
  }

  // What a successful walk has expanded could be expanded.

  ghost predicate AllExpand(db: Db, ops: seq<Outpoint>) {
    forall op :: op in ops ==> op in db.vtxos && Expand(db, db.vtxos[op]).Ok?
  }

  lemma {:induction false} LevelExpands(db: Db, ops: seq<Outpoint>, w: Progress, next: seq<Outpoint>, limit: Option<nat>)
    requires AllExpand(db, w.expanded)
    ensures var l := PlainLevel(db, ops, w, next, limit); !l.Broken? ==> AllExpand(db, l.w.expanded)
    decreases |ops|
  {
    hide Expand;
    if ops != [] {
      if ops[0] !in db.vtxos || ops[0] in w.expanded {
        LevelExpands(db, ops[1..], w, next, limit);
      } else if Expand(db, db.vtxos[ops[0]]).Ok? {
        var x := Expand(db, db.vtxos[ops[0]]).value;
        LevelExpands(db, ops[1..], Add(w, ops[0], x), next + NotIn(x.inputs, w.expanded + [ops[0]]), limit);
      }
    }
  }

  lemma {:induction false} WalkExpands(db: Db, frontier: seq<Outpoint>, w: Progress, limit: Option<nat>)
    requires AllExpand(db, w.expanded)
    ensures var walk := PlainWalk(db, frontier, w, limit); walk.Walked? ==> AllExpand(db, walk.w.expanded)
    decreases |Unexpanded(db, w)|, |frontier|
  {
    hide PlainLevel, AllExpand;
    if frontier != [] && !NoneFound(db, frontier) {
      LevelShrinks(db, frontier, w, limit);
      LevelExpands(db, frontier, w, [], limit);
      var l := PlainLevel(db, frontier, w, [], limit);
      if l.Expanded? {
        WalkExpands(db, l.next, l.w, limit);
      }
    }
  }

  /** After a whole walk every vtxo it can reach has been expanded. */
  lemma ReachableExpands(db: Db, starts: seq<Outpoint>, op: Outpoint)
    requires PlainWalk(db, starts, Start, None).Walked? && Reachable(db, starts, op) && op in db.vtxos
    ensures op in PlainWalk(db, starts, Start, None).w.expanded && Expand(db, db.vtxos[op]).Ok?
  {
    hide PlainWalk, Reachable, Expand;
    ExpandsReachableOnce(db, starts, None);
    WalkPrefix(db, starts, Start, 0);
    WalkExpands(db, starts, Start, None);
  }

  // A walk fails only for want of a row.

  lemma {:induction false} LevelSucceeds(db: Db, ops: seq<Outpoint>, w: Progress, next: seq<Outpoint>)
    requires AllExpand(db, ops)
    ensures PlainLevel(db, ops, w, next, None).Expanded?
    decreases |ops|
  {
    hide Expand;
    if ops != [] {
      assert ops[0] in ops;
      if ops[0] in w.expanded {
        LevelSucceeds(db, ops[1..], w, next);
      } else {
        var x := Expand(db, db.vtxos[ops[0]]).value;
        LevelSucceeds(db, ops[1..], Add(w, ops[0], x), next + NotIn(x.inputs, w.expanded + [ops[0]]));
      }
    }
  }

  lemma {:induction false} WalkSucceeds(db: Db, starts: seq<Outpoint>, frontier: seq<Outpoint>, w: Progress)
    requires Visiting(db, starts, w, frontier)
    requires forall op :: Reachable(db, starts, op) ==> op in db.vtxos && Expand(db, db.vtxos[op]).Ok?
    ensures PlainWalk(db, frontier, w, None).Walked?
    decreases |Unexpanded(db, w)|, |frontier|
  {
    hide PlainLevel, Reachable, Expand, Visiting;
    PendingReachable(db, starts, w, frontier);
    if frontier != [] {
      assert frontier[0] in frontier;
      LevelShrinks(db, frontier, w, None);
      LevelSucceeds(db, frontier, w, []);
      assert frontier + [] == frontier;
      LevelVisits(db, starts, frontier, w, [], None);
      var l := PlainLevel(db, frontier, w, [], None);
      WalkSucceeds(db, starts, l.next, l.w);
    }
  }

  /**
   When no row above the starts is missing, the whole walk succeeds exactly if every vtxo above them can be
   expanded: its offchain tx is stored and all its checkpoints decode, or its branch is stored.
   */
  lemma SucceedsExactly(db: Db, starts: seq<Outpoint>)
    requires forall op :: Reachable(db, starts, op) ==> op in db.vtxos
    ensures PlainWalk(db, starts, Start, None).Walked? <==>
              forall op :: Reachable(db, starts, op) ==>
                var v := db.vtxos[op];
                if v.preconfirmed
                then v.outpoint.txid in db.txs && forall c :: c in db.txs[v.outpoint.txid].checkpoints ==> c.Some?
                else (v.rootCommitment, v.outpoint.txid) in db.branches
  {
    hide PlainWalk, Reachable, Expand;
    forall op | Reachable(db, starts, op)
      ensures PlainWalk(db, starts, Start, None).Walked? ==> Expand(db, db.vtxos[op]).Ok?
    {
      ExpandsExactly(db, db.vtxos[op]);
      if PlainWalk(db, starts, Start, None).Walked? {
        ReachableExpands(db, starts, op);
      }
    }
    if forall op :: Reachable(db, starts, op) ==> Expand(db, db.vtxos[op]).Ok? {
      StartVisiting(db, starts);
      WalkSucceeds(db, starts, starts, Start);
    }
    forall op | Reachable(db, starts, op)
      ensures Expand(db, db.vtxos[op]).Ok? <==>
                var v := db.vtxos[op];
                if v.preconfirmed
                then v.outpoint.txid in db.txs && forall c :: c in db.txs[v.outpoint.txid].checkpoints ==> c.Some?
                else (v.rootCommitment, v.outpoint.txid) in db.branches
    {
      ExpandsExactly(db, db.vtxos[op]);
    }
  }

  /** A vtxo that is not there, or whose inputs are all missing, has no chain. */
  lemma DanglingFails(db: Db, op: Outpoint)
    ensures op !in db.vtxos ==> PlainWalk(db, [op], Start, None) == Failed(VtxoNotFound([op]))
    ensures op in db.vtxos && Inputs(db, op) != [] && (forall input :: input in Inputs(db, op) ==> input !in db.vtxos) ==>
              PlainWalk(db, [op], Start, None) == Failed(VtxoNotFound(Inputs(db, op)))
  {
    hide Expand;
    assert [op][0] == op && [op][1..] == [];
    if op in db.vtxos && Inputs(db, op) != [] && forall input :: input in Inputs(db, op) ==> input !in db.vtxos {
      DanglingLevel(db, op);
      hide PlainLevel;
      var l := PlainLevel(db, [op], Start, [], None);
      assert NoneFound(db, l.next) && !NoneFound(db, [op]);
    }
  }

  lemma DanglingLevel(db: Db, op: Outpoint)
    requires op in db.vtxos && Inputs(db, op) != [] && forall input :: input in Inputs(db, op) ==> input !in db.vtxos
    ensures var l := PlainLevel(db, [op], Start, [], None); l.Expanded? && l.next == Inputs(db, op)
  {
    hide Expand, NotIn;
    var x := Expand(db, db.vtxos[op]).value;
    var w := Add(Start, op, x);
    NoneDone(x.inputs, [op]);
    assert Start.expanded + [op] == [op] && [] + x.inputs == x.inputs && [op][1..] == [];
    assert PlainLevel(db, [], w, x.inputs, None) == Expanded(w, x.inputs);
  }

  lemma {:induction false} NoneDone(ops: seq<Outpoint>, done: seq<Outpoint>)
    requires forall op :: op in ops ==> op !in done
    ensures NotIn(ops, done) == ops
  {
    if ops != [] {
      NoneDone(ops[..|ops| - 1], done);
    }
  }

  // Growth.

  /** db' has every row of db. */
  ghost predicate Grown(db: Db, db': Db) {
    && (forall op :: op in db.vtxos ==> op in db'.vtxos && db'.vtxos[op] == db.vtxos[op])
    && (forall txid :: txid in db.txs ==> txid in db'.txs && db'.txs[txid] == db.txs[txid])
    && (forall key :: key in db.branches ==> key in db'.branches && db'.branches[key] == db.branches[key])
  }

  /** The whole chain is there: every outpoint above the starts has its row, and the walk succeeds. */
  ghost predicate ChainPresent(db: Db, starts: seq<Outpoint>) {
    PlainWalk(db, starts, Start, None).Walked? && forall op :: Reachable(db, starts, op) ==> op in db.vtxos
  }

  lemma GrownExpand(db: Db, db': Db, v: Vtxo)
    requires Grown(db, db') && Expand(db, v).Ok?
    ensures Expand(db', v) == Expand(db, v)
  {
    hide ExpandArkTx, ExpandBranch;
  }

  /** A chain that is there stays as it is when the database grows, for every limit. */
  lemma ChainSurvivesGrowth(db: Db, db': Db, starts: seq<Outpoint>, limit: Option<nat>)
    requires Grown(db, db') && ChainPresent(db, starts)
    ensures PlainWalk(db', starts, Start, limit) == PlainWalk(db, starts, Start, limit)
  {
    hide Reachable, PlainWalk, Expand;
    forall op | Reachable(db, starts, op) ensures AgreeAt(db, db', op) {
      ReachableExpands(db, starts, op);
      GrownExpand(db, db', db.vtxos[op]);
    }
    WalkAgrees(db, db', starts, limit);
  }

  // A built index only grows, and the chains of its vtxos are there.

  lemma BuildGrows(db: Db, step: BuildStep)
    requires CanBuild(db, step)
    ensures Grown(db, Build(db, step))
  {
    BuildContains(db, step);
    hide OutputRows, TxMarkers, DustMarkers, NewDepth, FreshTxid, ParentMarker;
  }

  lemma {:induction false} BuildAllGrows(db: Db, steps: seq<BuildStep>)
    requires CanBuildAll(db, steps)
    ensures Grown(db, BuildAll(db, steps))
    decreases |steps|
  {
    hide CanBuild;
    if steps != [] {
      BuildGrows(db, steps[0]);
      BuildAllGrows(Build(db, steps[0]), steps[1..]);
    }
  }

  lemma IndexedPresent(db: Db, op: Outpoint)
    requires Indexed(db) && op in db.vtxos && PlainWalk(db, [op], Start, None).Walked?
    ensures ChainPresent(db, [op])
  {
    hide PlainWalk, MarkerReachable, Reaches, Indexed;
    forall a | Reachable(db, [op], a) ensures a in db.vtxos {
      var path :| Reaches(db, [op], path, a);
      AncestorMarkers(db, op, path, a);
    }
  }

  /** Every leaf has its branch. */
  ghost predicate Branched(db: Db) {
    forall op :: op in db.vtxos ==> db.vtxos[op].preconfirmed || (db.vtxos[op].rootCommitment, db.vtxos[op].outpoint.txid) in db.branches
  }

  lemma BuildBranched(db: Db, step: BuildStep)
    requires Branched(db) && CanBuild(db, step)
    ensures Branched(Build(db, step))
  {
    hide TxMarkers, DustMarkers, NewDepth, FreshTxid, ParentMarker, OutputMarkers;
    BuildGrows(db, step);
  }

  lemma {:induction false} BuiltBranched(db: Db, steps: seq<BuildStep>)
    requires Branched(db) && CanBuildAll(db, steps)
    ensures Branched(BuildAll(db, steps))
    decreases |steps|
  {
    hide CanBuild, Branched;
    if steps != [] {
      BuildBranched(db, steps[0]);
      BuiltBranched(Build(db, steps[0]), steps[1..]);
    }
  }

  lemma RowExpands(db: Db, op: Outpoint)
    requires Indexed(db) && Branched(db) && op in db.vtxos
    ensures Expand(db, db.vtxos[op]).Ok?
  {
    hide Covers, Expand;
    assert RowIndexed(db, db.vtxos[op]);
    ExpandsExactly(db, db.vtxos[op]);
  }

  /** Over every run of leaves and offchain txs, the walk from any vtxo succeeds, whatever its limit. */
  lemma BuiltWalkSucceeds(steps: seq<BuildStep>, op: Outpoint, limit: Option<nat>)
    requires CanBuildAll(Empty, steps) && op in BuildAll(Empty, steps).vtxos
    ensures PlainWalk(BuildAll(Empty, steps), [op], Start, limit).Walked?
  {
    hide CanBuildAll, BuildAll, PlainWalk, Expand, Indexed, Branched;
    var db := BuildAll(Empty, steps);
    assert Indexed(Empty) && Branched(Empty) by { EmptyIndexed(); }
    BuiltIndexed(Empty, steps);
    BuiltBranched(Empty, steps);
    forall a | Reachable(db, [op], a) ensures a in db.vtxos && Expand(db, db.vtxos[a]).Ok? {
      var path :| Reaches(db, [op], path, a);
      AncestorMarkers(db, op, path, a);
      RowExpands(db, a);
    }
    StartVisiting(db, [op]);
    WalkSucceeds(db, [op], [op], Start);
    if limit.Some? {
      WalkPrefix(db, [op], Start, limit.value);
    }
  }

  lemma EmptyIndexed()
    ensures Indexed(Empty) && Branched(Empty)
  {
  }

  /** Whatever leaves and offchain txs are added later, the chain of a vtxo stays the same. */
  lemma BuiltChainStays(steps: seq<BuildStep>, more: seq<BuildStep>, op: Outpoint, limit: Option<nat>)
    requires CanBuildAll(Empty, steps) && CanBuildAll(BuildAll(Empty, steps), more)
    requires op in BuildAll(Empty, steps).vtxos
    ensures var db := BuildAll(Empty, steps);
            PlainWalk(BuildAll(db, more), [op], Start, limit) == PlainWalk(db, [op], Start, limit)
  {
    hide CanBuildAll, BuildAll, PlainWalk, ChainPresent, Grown;
    var db := BuildAll(Empty, steps);
    assert Indexed(Empty);
    BuiltIndexed(Empty, steps);
    BuiltWalkSucceeds(steps, op, None);
    IndexedPresent(db, op);
    BuildAllGrows(db, more);
    ChainSurvivesGrowth(db, BuildAll(db, more), [op], limit);
  }
}
