/**
 Depths bound the marker graph: a marker made at a boundary is at least one interval above its
 parents, so climbing from the markers of a vtxo takes few levels.
 */
module MarkerRank {
  import opened Outpoints
  import opened VtxoChain
  import opened MarkerIndex

  /** The interval in which a marker was made. */
  function Rank(vtxos: map<Outpoint, Vtxo>, id: MarkerId): nat {
    match id
    case TxMarker(_, depth) => depth / MarkerInterval
    case OutpointMarker(op) => if op in vtxos then vtxos[op].depth / MarkerInterval else 0
  }

  ghost predicate Known(vtxos: map<Outpoint, Vtxo>, ids: seq<MarkerId>, rank: nat) {
    forall id :: id in ids ==> Rank(vtxos, id) <= rank && (id.OutpointMarker? ==> id.outpoint in vtxos)
  }

  /** The marker of a dust output comes together with its parents, so it opens no level of its own. */
  ghost predicate DustClosed(markers: map<MarkerId, Marker>, ids: seq<MarkerId>) {
    forall id, p :: id in ids && id.OutpointMarker? && id in markers && p in markers[id].parents ==> p in ids
  }

  ghost predicate RowRanked(db: Db, v: Vtxo) {
    Known(db.vtxos, v.markers, v.depth / MarkerInterval) && DustClosed(db.markers, v.markers)
  }

  ghost predicate MarkerRanked(db: Db, m: Marker) {
    match m.id
    case TxMarker(_, depth) =>
      && DustClosed(db.markers, m.parents)
      && (m.parents != [] ==> depth / MarkerInterval > 0 && Known(db.vtxos, m.parents, depth / MarkerInterval - 1))
    case OutpointMarker(op) => op in db.vtxos
  }

  ghost predicate Ranked(db: Db) {
    && Keyed(db)
    && (forall op :: op in db.vtxos ==> RowRanked(db, db.vtxos[op]))
    && (forall id :: id in db.markers ==> MarkerRanked(db, db.markers[id]))
  }

  /** The depth counter does not wrap around. */
  ghost predicate DepthFits(db: Db, step: BuildStep)
    requires CanBuild(db, step)
  {
    step.AddTx? ==> MaxDepth(db, Spent(step.checkpoints)) + 1 < DepthRange
  }

  lemma {:induction false} MaxDepthBounds(db: Db, spent: seq<Outpoint>, op: Outpoint)
    requires (forall i :: 0 <= i < |spent| ==> spent[i] in db.vtxos) && op in spent
    ensures db.vtxos[op].depth <= MaxDepth(db, spent)
  {
    if op != spent[|spent| - 1] {
      MaxDepthBounds(db, spent[..|spent| - 1], op);
    }
  }

  /** Rows and markers that are added refer to new outpoints only, so the old ones keep their ranks. */
  lemma KeepsKnown(db: Db, step: BuildStep, ids: seq<MarkerId>, rank: nat)
    requires CanBuild(db, step) && Known(db.vtxos, ids, rank) && DustClosed(db.markers, ids)
    requires Keyed(db)
    ensures Known(Build(db, step).vtxos, ids, rank) && DustClosed(Build(db, step).markers, ids)
  {
    hide CanBuild, NewDepth;
    BuildContains(db, step);
    var db' := Build(db, step);
    NewMarkersAreNew(db, step);
  }

  lemma NewMarkersAreNew(db: Db, step: BuildStep)
    requires CanBuild(db, step)
    ensures forall id :: id in Build(db, step).markers && id !in db.markers && id.OutpointMarker? ==>
              id.outpoint !in db.vtxos && id.outpoint in Build(db, step).vtxos
  {
  }

  lemma ParentsKnown(db: Db, step: BuildStep)
    requires Ranked(db) && CanBuild(db, step) && step.AddTx?
    ensures Known(db.vtxos, step.parents, MaxDepth(db, Spent(step.checkpoints)) / MarkerInterval)
    ensures DustClosed(db.markers, step.parents)
  {
    hide FreshTxid, MaxDepth, Keyed, MarkerRanked;
    var spent := Spent(step.checkpoints);
    forall id | id in step.parents
      ensures Rank(db.vtxos, id) <= MaxDepth(db, spent) / MarkerInterval
      ensures id.OutpointMarker? ==> id.outpoint in db.vtxos
    {
      var op :| op in spent && MarkerOf(db, op, id);
      MaxDepthBounds(db, spent, op);
      assert RowRanked(db, db.vtxos[op]);
    }
    forall id, p | id in step.parents && id.OutpointMarker? && id in db.markers && p in db.markers[id].parents
      ensures p in step.parents
    {
      var op :| op in spent && MarkerOf(db, op, id);
      assert RowRanked(db, db.vtxos[op]);
      assert MarkerOf(db, op, p);
    }
  }

  /** The markers that all outputs of a tx share. */
  lemma SharedRanked(db: Db, step: BuildStep)
    requires Ranked(db) && CanBuild(db, step) && step.AddTx? && DepthFits(db, step)
    ensures var depth := NewDepth(db, Spent(step.checkpoints));
            && Known(db.vtxos, SharedMarkers(step, depth), depth / MarkerInterval)
            && DustClosed(db.markers, SharedMarkers(step, depth))
  {
    hide FreshTxid, MaxDepth, Ranked;
    ParentsKnown(db, step);
  }

  lemma OutputStored(db: Db, step: BuildStep, vout: nat)
    requires CanBuild(db, step) && step.AddTx? && vout in step.outputs
    ensures var op := Outpoint(step.txid, vout);
            var depth := NewDepth(db, Spent(step.checkpoints));
            var db' := Build(db, step);
            && op in db'.vtxos && db'.vtxos[op].depth == depth
            && db'.vtxos[op].markers == OutputMarkers(step, depth, vout)
            && (OutpointMarker(op) in db'.markers ==>
                  db'.markers[OutpointMarker(op)].parents == SharedMarkers(step, depth))
  {
    hide NewDepth, SharedMarkers, ParentMarker;
  }

  lemma DustJoins(db: Db, op: Outpoint, shared: seq<MarkerId>, ids: seq<MarkerId>, rank: nat)
    requires op in db.vtxos && db.vtxos[op].depth / MarkerInterval <= rank
    requires OutpointMarker(op) in db.markers ==> db.markers[OutpointMarker(op)].parents == shared
    requires Known(db.vtxos, shared, rank) && DustClosed(db.markers, shared)
    requires ids == shared || ids == shared + [OutpointMarker(op)]
    ensures Known(db.vtxos, ids, rank) && DustClosed(db.markers, ids)
  {
  }

  lemma OutputRanked(db: Db, step: BuildStep, vout: nat)
    requires Ranked(db) && CanBuild(db, step) && step.AddTx? && DepthFits(db, step) && vout in step.outputs
    ensures var op := Outpoint(step.txid, vout);
            op in Build(db, step).vtxos && RowRanked(Build(db, step), Build(db, step).vtxos[op])
  {
    hide Build, FreshTxid, ParentMarker, NewDepth, SharedMarkers, DepthFits, Known, DustClosed, RowRanked, MarkerRanked;
    var db' := Build(db, step);
    var op := Outpoint(step.txid, vout);
    var depth := NewDepth(db, Spent(step.checkpoints));
    var shared := SharedMarkers(step, depth);
    OutputStored(db, step, vout);
    SharedRanked(db, step);
    KeepsKnown(db, step, shared, depth / MarkerInterval);
    DustJoins(db', op, shared, OutputMarkers(step, depth, vout), depth / MarkerInterval);
    assert RowRanked(db', db'.vtxos[op]) by { RowIsRanked(db', db'.vtxos[op]); }
  }

  lemma RowIsRanked(db: Db, v: Vtxo)
    requires Known(db.vtxos, v.markers, v.depth / MarkerInterval) && DustClosed(db.markers, v.markers)
    ensures RowRanked(db, v)
  {
  }

  lemma LeafRanked(db: Db, step: BuildStep)
    requires CanBuild(db, step) && step.AddLeaf?
    ensures var row := Build(db, step).vtxos[step.op];
            row.depth == 0 && row.markers == [OutpointMarker(step.op)] && RowRanked(Build(db, step), row)
  {
  }

  lemma TxMarkerRanked(db: Db, step: BuildStep)
    requires Ranked(db) && CanBuild(db, step) && step.AddTx? && DepthFits(db, step)
    ensures var depth := NewDepth(db, Spent(step.checkpoints));
            forall id :: id in TxMarkers(step, depth) ==> MarkerRanked(Build(db, step), TxMarkers(step, depth)[id])
  {
    hide Build, FreshTxid, ParentMarker, Ranked, MaxDepth, Known, DustClosed;
    var max := MaxDepth(db, Spent(step.checkpoints));
    ParentsKnown(db, step);
    KeepsKnown(db, step, step.parents, max / MarkerInterval) by { RankedKeyed(db); }
    assert NewDepth(db, Spent(step.checkpoints)) == max + 1 by { SpendsSomething(db, step); }
    assert IsAtMarkerBoundary(max + 1) ==> max / MarkerInterval == (max + 1) / MarkerInterval - 1;
  }

  lemma RankedKeyed(db: Db)
    requires Ranked(db)
    ensures Keyed(db)
  {
  }

  lemma SpendsSomething(db: Db, step: BuildStep)
    requires CanBuild(db, step) && step.AddTx?
    ensures Spent(step.checkpoints) != []
  {
  }

  lemma BuildRanked(db: Db, step: BuildStep)
    requires Ranked(db) && CanBuild(db, step) && DepthFits(db, step)
    ensures Ranked(Build(db, step))
  {
    hide RowRanked, MarkerRanked, CanBuild, Build, DepthFits;
    var db' := Build(db, step);
    forall op | op in db'.vtxos ensures db'.vtxos[op].outpoint == op && RowRanked(db', db'.vtxos[op]) {
      BuildRowRanked(db, step, op);
    }
    forall id | id in db'.markers ensures db'.markers[id].id == id && MarkerRanked(db', db'.markers[id]) {
      BuildMarkerRanked(db, step, id);
    }
  }

  lemma BuildRowRanked(db: Db, step: BuildStep, op: Outpoint)
    requires Ranked(db) && CanBuild(db, step) && DepthFits(db, step) && op in Build(db, step).vtxos
    ensures Build(db, step).vtxos[op].outpoint == op && RowRanked(Build(db, step), Build(db, step).vtxos[op])
  {
    hide RowRanked, MarkerRanked, CanBuild, NewDepth, DepthFits, TxMarkers, DustMarkers, OutputMarkers;
    BuildContains(db, step);
    if op in db.vtxos {
      RowKeepsRank(db, step, db.vtxos[op]);
    } else if step.AddTx? {
      OutputRanked(db, step, op.vout);
    } else {
      LeafRanked(db, step);
    }
  }

  lemma BuildMarkerRanked(db: Db, step: BuildStep, id: MarkerId)
    requires Ranked(db) && CanBuild(db, step) && DepthFits(db, step) && id in Build(db, step).markers
    ensures Build(db, step).markers[id].id == id && MarkerRanked(Build(db, step), Build(db, step).markers[id])
  {
    hide RowRanked, MarkerRanked, CanBuild, NewDepth, DepthFits, OutputRows;
    var db' := Build(db, step);
    BuildContains(db, step);
    if id in db.markers {
      MarkerKeepsRank(db, step, db.markers[id]);
    } else if id.OutpointMarker? {
      NewMarkersAreNew(db, step);
      DustRanked(db', db'.markers[id]);
    } else {
      TxMarkerRanked(db, step);
    }
  }

  lemma DustRanked(db: Db, m: Marker)
    requires m.id.OutpointMarker? && m.id.outpoint in db.vtxos
    ensures MarkerRanked(db, m)
  {
  }

  lemma RowKeepsRank(db: Db, step: BuildStep, v: Vtxo)
    requires Keyed(db) && CanBuild(db, step) && RowRanked(db, v)
    ensures RowRanked(Build(db, step), v)
  {
    hide Build, CanBuild;
    KeepsKnown(db, step, v.markers, v.depth / MarkerInterval);
  }

  lemma MarkerKeepsRank(db: Db, step: BuildStep, m: Marker)
    requires Keyed(db) && CanBuild(db, step) && MarkerRanked(db, m)
    ensures MarkerRanked(Build(db, step), m)
  {
    hide Build, CanBuild, Known, DustClosed;
    BuildContains(db, step);
    match m.id
    case TxMarker(_, depth) =>
      if m.parents != [] {
        KeepsKnown(db, step, m.parents, depth / MarkerInterval - 1);
      } else {
        NoParents(Build(db, step).markers, m.parents);
      }
    case OutpointMarker(op) =>
  }

  lemma NoParents(markers: map<MarkerId, Marker>, ids: seq<MarkerId>)
    requires ids == []
    ensures DustClosed(markers, ids)
  {
  }

  ghost predicate DepthsFit(db: Db, steps: seq<BuildStep>)
    requires CanBuildAll(db, steps)
    decreases |steps|
  {
    steps == [] || (DepthFits(db, steps[0]) && DepthsFit(Build(db, steps[0]), steps[1..]))
  }

  lemma {:induction false} BuiltRanked(db: Db, steps: seq<BuildStep>)
    requires Ranked(db) && CanBuildAll(db, steps) && DepthsFit(db, steps)
    ensures Ranked(BuildAll(db, steps))
    decreases |steps|
  {
    hide Ranked, CanBuild, DepthFits;
    if steps != [] {
      BuildRanked(db, steps[0]);
      BuiltRanked(Build(db, steps[0]), steps[1..]);
    }
  }
}
