/**
 How vtxo rows get their depth and markers, and why the markers of a vtxo lead to every vtxo it
 descends from.
 */
module MarkerIndex {
  import opened Outpoints
  import opened VtxoChain
  import opened VtxoChainTheorems

  const MarkerInterval: nat := 100

  /** Depths are stored in 32 bits. */
  const DepthRange: nat := 0x1_0000_0000

  predicate IsAtMarkerBoundary(depth: nat) {
    depth % MarkerInterval == 0
  }

  function NewMarker(txid: Txid, depth: nat, parents: seq<MarkerId>): (Option<Marker>, seq<MarkerId>) {
    if IsAtMarkerBoundary(depth) then
      var id := TxMarker(txid, depth);
      (Some(Marker(id, depth, parents)), [id])
    else (None, parents)
  }

  // Depth and parent markers of an offchain tx, from the rows it spends.

  function MaxDepth(db: Db, spent: seq<Outpoint>): nat
    requires forall i :: 0 <= i < |spent| ==> spent[i] in db.vtxos
  {
    if spent == [] then 0
    else
      var rest := MaxDepth(db, spent[..|spent| - 1]);
      var d := db.vtxos[spent[|spent| - 1]].depth;
      if d > rest then d else rest
  }

  function NewDepth(db: Db, spent: seq<Outpoint>): nat
    requires forall i :: 0 <= i < |spent| ==> spent[i] in db.vtxos
  {
    if spent == [] then 0 else (MaxDepth(db, spent) + 1) % DepthRange
  }

  predicate MarkerOf(db: Db, op: Outpoint, id: MarkerId) {
    op in db.vtxos && id in db.vtxos[op].markers
  }

  predicate ParentMarker(db: Db, spent: seq<Outpoint>, id: MarkerId) {
    exists op :: op in spent && MarkerOf(db, op, id)
  }

  /** Goes over the rows a tx spends for its depth and its parent markers, each marker once. */
  method SummarizeSpent(db: Db, spent: seq<Outpoint>) returns (depth: nat, parents: seq<MarkerId>)
    requires forall i :: 0 <= i < |spent| ==> spent[i] in db.vtxos
    ensures depth == NewDepth(db, spent)
    ensures spent == [] ==> depth == 0
    ensures spent != [] ==>
              exists op :: op in spent && depth == (db.vtxos[op].depth + 1) % 0x1_0000_0000
                && forall o :: o in spent ==> db.vtxos[o].depth <= db.vtxos[op].depth
    ensures forall id :: id in parents <==> exists op :: op in spent && id in db.vtxos[op].markers
    ensures forall id :: id in parents <==> ParentMarker(db, spent, id)
    ensures forall i, j :: 0 <= i < j < |parents| ==> parents[i] != parents[j]
  {
    hide ParentMarker, MaxDepth;
    var maxDepth: nat := 0;
    var found: set<MarkerId> := {};
    NothingSpent(db);
    assert spent[..0] == [];
    for i := 0 to |spent|
      invariant maxDepth == MaxDepth(db, spent[..i])
      invariant forall id :: id in found <==> ParentMarker(db, spent[..i], id)
    {
      SpentMore(db, spent, i);
      var v := db.vtxos[spent[i]];
      if v.depth > maxDepth {
        maxDepth := v.depth;
      }
      found := found + set id | id in v.markers;
    }
    assert spent[..|spent|] == spent;
    depth := if |spent| > 0 then (maxDepth + 1) % DepthRange else 0;
    parents := ListMarkers(found);
    if spent != [] {
      var op := DeepestSpent(db, spent);
    }
    assert forall id :: ParentMarker(db, spent, id) <==> exists op :: op in spent && id in db.vtxos[op].markers by {
      ParentMarkersMean(db, spent);
    }
  }

  lemma ParentMarkersMean(db: Db, spent: seq<Outpoint>)
    requires forall i :: 0 <= i < |spent| ==> spent[i] in db.vtxos
    ensures forall id :: ParentMarker(db, spent, id) <==> exists op :: op in spent && id in db.vtxos[op].markers
  {
    forall id ensures ParentMarker(db, spent, id) <==> exists op :: op in spent && id in db.vtxos[op].markers {
      if op :| op in spent && id in db.vtxos[op].markers {
        assert MarkerOf(db, op, id);
      }
    }
  }

  lemma {:induction false} DeepestSpent(db: Db, spent: seq<Outpoint>) returns (op: Outpoint)
    requires spent != [] && forall i :: 0 <= i < |spent| ==> spent[i] in db.vtxos
    ensures op in spent && MaxDepth(db, spent) == db.vtxos[op].depth
    ensures forall o :: o in spent ==> db.vtxos[o].depth <= db.vtxos[op].depth
  {
    var n := |spent| - 1;
    op := spent[n];
    if n > 0 {
      var rest := DeepestSpent(db, spent[..n]);
      assert forall o :: o in spent ==> o in spent[..n] || o == spent[n];
      if db.vtxos[rest].depth >= db.vtxos[op].depth {
        op := rest;
      }
    } else {
      assert spent[..0] == [] && spent == [op];
    }
  }

  lemma NothingSpent(db: Db)
    ensures MaxDepth(db, []) == 0 && forall id :: !ParentMarker(db, [], id)
  {
  }

  lemma SpentMore(db: Db, spent: seq<Outpoint>, i: nat)
    requires i < |spent| && forall j :: 0 <= j < |spent| ==> spent[j] in db.vtxos
    ensures MaxDepth(db, spent[..i + 1])
            == if db.vtxos[spent[i]].depth > MaxDepth(db, spent[..i]) then db.vtxos[spent[i]].depth else MaxDepth(db, spent[..i])
    ensures forall id :: ParentMarker(db, spent[..i + 1], id) <==>
              ParentMarker(db, spent[..i], id) || id in db.vtxos[spent[i]].markers
  {
    assert spent[..i + 1][..i] == spent[..i] && spent[..i + 1] == spent[..i] + [spent[i]];
    assert forall id :: id in db.vtxos[spent[i]].markers <==> MarkerOf(db, spent[i], id);
  }

  method ListMarkers(found: set<MarkerId>) returns (parents: seq<MarkerId>)
    ensures forall id :: id in parents <==> id in found
    ensures forall i, j :: 0 <= i < j < |parents| ==> parents[i] != parents[j]
  {
    parents := [];
    var left := found;
    while left != {}
      invariant forall id :: id in found <==> id in left || id in parents
      invariant forall i :: 0 <= i < |parents| ==> parents[i] !in left
      invariant forall i, j :: 0 <= i < j < |parents| ==> parents[i] != parents[j]
      decreases |left|
    {
      var id :| id in left;
      parents := parents + [id];
      left := left - {id};
    }
  }

  datatype BuildStep =
      // A leaf of a batch tree; stored is false when its root marker could not be written.
    | AddLeaf(op: Outpoint, expiresAt: int, commitment: Txid, path: seq<Txid>, stored: bool)
      // A finalized offchain tx: one checkpoint for each outpoint spent, its sorted parent markers, its
      // outputs with a flag for the dust ones; stored is false when its marker could not be written.
    | AddTx(txid: Txid, expiresAt: int, commitment: Txid, checkpoints: seq<Checkpoint>, parents: seq<MarkerId>,
            outputs: map<nat, bool>, stored: bool)

  function Spent(checkpoints: seq<Checkpoint>): seq<Outpoint> {
    seq(|checkpoints|, i requires 0 <= i < |checkpoints| => checkpoints[i].input)
  }

  predicate FreshTxid(db: Db, txid: Txid) {
    && txid !in db.txs
    && (forall op :: op in db.vtxos ==> op.txid != txid)
    && (forall id :: id in db.markers ==> id.TxMarker? ==> id.txid != txid)
    && (forall id :: id in db.markers ==> id.OutpointMarker? ==> id.outpoint.txid != txid)
  }

  ghost predicate CanBuild(db: Db, step: BuildStep) {
    match step
    case AddLeaf(op, _, commitment, path, _) =>
      && op !in db.vtxos && op.txid !in db.txs && OutpointMarker(op) !in db.markers
      // Outputs of one leaf tx lie on one branch.
      && ((commitment, op.txid) in db.branches ==> db.branches[(commitment, op.txid)] == path)
    case AddTx(txid, _, _, checkpoints, parents, _, _) =>
      && FreshTxid(db, txid) && checkpoints != []
      && (forall i :: 0 <= i < |checkpoints| ==> checkpoints[i].others == [] && checkpoints[i].input in db.vtxos)
      && (forall id :: id in parents <==> ParentMarker(db, Spent(checkpoints), id))
  }

  function SharedMarkers(step: BuildStep, depth: nat): seq<MarkerId>
    requires step.AddTx?
  {
    var (marker, ids) := NewMarker(step.txid, depth, step.parents);
    if marker.Some? && !step.stored then step.parents else ids
  }

  function OutputMarkers(step: BuildStep, depth: nat, vout: nat): seq<MarkerId>
    requires step.AddTx? && vout in step.outputs
  {
    SharedMarkers(step, depth) + if step.outputs[vout] then [OutpointMarker(Outpoint(step.txid, vout))] else []
  }

  function OutputRows(step: BuildStep, depth: nat): map<Outpoint, Vtxo>
    requires step.AddTx?
  {
    map vout | vout in step.outputs ::
      Outpoint(step.txid, vout) :=
      Vtxo(Outpoint(step.txid, vout), true, step.expiresAt, step.commitment, depth, OutputMarkers(step, depth, vout))
  }

  /** The marker of a dust output descends from the markers its siblings get. */
  function DustMarkers(step: BuildStep, depth: nat): map<MarkerId, Marker>
    requires step.AddTx?
  {
    map vout | vout in step.outputs && step.outputs[vout] ::
      OutpointMarker(Outpoint(step.txid, vout)) :=
      Marker(OutpointMarker(Outpoint(step.txid, vout)), depth, SharedMarkers(step, depth))
  }

  function TxMarkers(step: BuildStep, depth: nat): map<MarkerId, Marker>
    requires step.AddTx?
  {
    var (marker, _) := NewMarker(step.txid, depth, step.parents);
    if marker.Some? && step.stored then map[marker.value.id := marker.value] else map[]
  }

  function StoredTx(checkpoints: seq<Checkpoint>): OffchainTx {
    OffchainTx(seq(|checkpoints|, i requires 0 <= i < |checkpoints| => Some(checkpoints[i])))
  }

  ghost function Build(db: Db, step: BuildStep): Db
    requires CanBuild(db, step)
  {
    match step
    case AddLeaf(op, expiresAt, commitment, path, stored) =>
      var id := OutpointMarker(op);
      db.(vtxos := db.vtxos[op := Vtxo(op, false, expiresAt, commitment, 0, [id])],
          branches := db.branches[(commitment, op.txid) := path],
          markers := if stored then db.markers[id := Marker(id, 0, [])] else db.markers)
    case AddTx(txid, _, _, checkpoints, _, _, _) =>
      var depth := NewDepth(db, Spent(checkpoints));
      db.(vtxos := db.vtxos + OutputRows(step, depth),
          txs := db.txs[txid := StoredTx(checkpoints)],
          markers := db.markers + TxMarkers(step, depth) + DustMarkers(step, depth))
  }

  const Empty := Db(map[], map[], map[], map[])

  ghost predicate CanBuildAll(db: Db, steps: seq<BuildStep>)
    decreases |steps|
  {
    steps == [] || (CanBuild(db, steps[0]) && CanBuildAll(Build(db, steps[0]), steps[1..]))
  }

  ghost function BuildAll(db: Db, steps: seq<BuildStep>): Db
    requires CanBuildAll(db, steps)
    decreases |steps|
  {
    if steps == [] then db else BuildAll(Build(db, steps[0]), steps[1..])
  }

  // Markers lead upwards.

  /** Every marker in below is one of ids or a parent of one of them. */
  ghost predicate Covers(markers: map<MarkerId, Marker>, ids: seq<MarkerId>, below: seq<MarkerId>) {
    forall b :: b in below ==> b in ids || exists id :: id in ids && id in markers && b in markers[id].parents
  }

  ghost predicate RowIndexed(db: Db, v: Vtxo) {
    && v.markers != []
    && (v.preconfirmed ==>
          && v.outpoint.txid in db.txs
          && (forall c :: c in db.txs[v.outpoint.txid].checkpoints ==>
                && c.Some? && c.value.others == [] && c.value.input in db.vtxos
                && Covers(db.markers, v.markers, db.vtxos[c.value.input].markers)))
  }

  ghost predicate Indexed(db: Db) {
    Keyed(db) && forall op :: op in db.vtxos ==> RowIndexed(db, db.vtxos[op])
  }

  ghost predicate Contains(db: Db, db': Db) {
    && (forall op :: op in db.vtxos ==> op in db'.vtxos && db'.vtxos[op] == db.vtxos[op])
    && (forall txid :: txid in db.txs ==> txid in db'.txs && db'.txs[txid] == db.txs[txid])
    && (forall id :: id in db.markers ==> id in db'.markers && db'.markers[id] == db.markers[id])
  }

  lemma BuildContains(db: Db, step: BuildStep)
    requires CanBuild(db, step)
    ensures Contains(db, Build(db, step))
  {
    hide NewDepth, OutputRows, TxMarkers, DustMarkers, ParentMarker;
    if step.AddTx? {
      NewAreFresh(step, NewDepth(db, Spent(step.checkpoints)));
    }
  }

  lemma NewAreFresh(step: BuildStep, depth: nat)
    requires step.AddTx?
    ensures forall op :: op in OutputRows(step, depth) ==> op.txid == step.txid
    ensures forall id :: id in TxMarkers(step, depth) ==> id.TxMarker? && id.txid == step.txid
    ensures forall id :: id in DustMarkers(step, depth) ==> id.OutpointMarker? && id.outpoint.txid == step.txid
  {
    hide SharedMarkers, OutputMarkers;
  }

  lemma KeepsRowIndexed(db: Db, db': Db, v: Vtxo)
    requires RowIndexed(db, v) && Contains(db, db')
    ensures RowIndexed(db', v)
  {
  }

  lemma TxRowIndexed(db: Db, step: BuildStep, vout: nat)
    requires Indexed(db) && step.AddTx? && CanBuild(db, step) && vout in step.outputs
    ensures var row := OutputRows(step, NewDepth(db, Spent(step.checkpoints)))[Outpoint(step.txid, vout)];
            RowIndexed(Build(db, step), row)
  {
    var depth := NewDepth(db, Spent(step.checkpoints));
    var row := OutputRows(step, depth)[Outpoint(step.txid, vout)];
    var db' := Build(db, step);
    BuildContains(db, step);
    forall c | c in db'.txs[step.txid].checkpoints
      ensures c.Some? && c.value.others == [] && c.value.input in db'.vtxos
      ensures Covers(db'.markers, row.markers, db'.vtxos[c.value.input].markers)
    {
      InputCovered(db, step, vout, c);
    }
    assert row.markers != [] by { SharedNotEmpty(db, step, depth); }
  }

  lemma SharedNotEmpty(db: Db, step: BuildStep, depth: nat)
    requires Indexed(db) && step.AddTx? && CanBuild(db, step)
    ensures SharedMarkers(step, depth) != []
  {
    var input := Spent(step.checkpoints)[0];
    assert input in Spent(step.checkpoints) && RowIndexed(db, db.vtxos[input]);
    var id := db.vtxos[input].markers[0];
    assert MarkerOf(db, input, id) && ParentMarker(db, Spent(step.checkpoints), id);
    assert id in step.parents;
  }

  lemma InputCovered(db: Db, step: BuildStep, vout: nat, c: Option<Checkpoint>)
    requires step.AddTx? && CanBuild(db, step) && vout in step.outputs && c in StoredTx(step.checkpoints).checkpoints
    ensures c.Some? && c.value.others == [] && c.value.input in db.vtxos
    ensures Covers(Build(db, step).markers, OutputMarkers(step, NewDepth(db, Spent(step.checkpoints)), vout),
                   db.vtxos[c.value.input].markers)
  {
    var i :| 0 <= i < |step.checkpoints| && c == Some(step.checkpoints[i]);
    assert c.value.input == Spent(step.checkpoints)[i];
    assert forall id :: id in db.vtxos[c.value.input].markers ==> MarkerOf(db, c.value.input, id);
    var depth := NewDepth(db, Spent(step.checkpoints));
    if SharedMarkers(step, depth) != step.parents {
      var id := TxMarker(step.txid, depth);
      assert OutputMarkers(step, depth, vout)[0] == id;
      assert id in Build(db, step).markers && Build(db, step).markers[id].parents == step.parents;
    }
  }

  lemma BuildIndexed(db: Db, step: BuildStep)
    requires Indexed(db) && CanBuild(db, step)
    ensures Indexed(Build(db, step))
  {
    hide RowIndexed, CanBuild, Build;
    var db' := Build(db, step);
    BuildKeyed(db, step);
    forall op | op in db'.vtxos ensures RowIndexed(db', db'.vtxos[op]) {
      BuildRowIndexed(db, step, op);
    }
  }

  lemma BuildKeyed(db: Db, step: BuildStep)
    requires Keyed(db) && CanBuild(db, step)
    ensures Keyed(Build(db, step))
  {
    hide NewDepth, OutputRows, TxMarkers, DustMarkers, ParentMarker, FreshTxid;
    if step.AddTx? {
      NewKeyed(step, NewDepth(db, Spent(step.checkpoints)));
    }
  }

  lemma NewKeyed(step: BuildStep, depth: nat)
    requires step.AddTx?
    ensures forall op :: op in OutputRows(step, depth) ==> OutputRows(step, depth)[op].outpoint == op
    ensures forall id :: id in TxMarkers(step, depth) ==> TxMarkers(step, depth)[id].id == id
    ensures forall id :: id in DustMarkers(step, depth) ==> DustMarkers(step, depth)[id].id == id
  {
    hide SharedMarkers, OutputMarkers;
  }

  lemma BuildRowIndexed(db: Db, step: BuildStep, op: Outpoint)
    requires Indexed(db) && CanBuild(db, step) && op in Build(db, step).vtxos
    ensures RowIndexed(Build(db, step), Build(db, step).vtxos[op])
  {
    hide RowIndexed, CanBuild, NewDepth, TxMarkers, DustMarkers, OutputMarkers;
    var db' := Build(db, step);
    BuildContains(db, step);
    if op in db.vtxos {
      KeepsRowIndexed(db, db', db.vtxos[op]);
    } else if step.AddTx? {
      TxRowIndexed(db, step, op.vout);
    } else {
      LeafIndexed(db', db'.vtxos[op]);
    }
  }

  lemma LeafIndexed(db: Db, v: Vtxo)
    requires !v.preconfirmed && v.markers != []
    ensures RowIndexed(db, v)
  {
  }

  lemma {:induction false} BuiltIndexed(db: Db, steps: seq<BuildStep>)
    requires Indexed(db) && CanBuildAll(db, steps)
    ensures Indexed(BuildAll(db, steps))
    decreases |steps|
  {
    hide Indexed, CanBuild;
    if steps != [] {
      BuildIndexed(db, steps[0]);
      BuiltIndexed(Build(db, steps[0]), steps[1..]);
    }
  }

  // The marker graph.

  ghost predicate MarkerPath(markers: map<MarkerId, Marker>, path: seq<MarkerId>) {
    forall i :: 0 <= i < |path| - 1 ==> path[i] in markers && path[i + 1] in markers[path[i]].parents
  }

  ghost predicate LeadsTo(markers: map<MarkerId, Marker>, starts: seq<MarkerId>, path: seq<MarkerId>, id: MarkerId) {
    path != [] && path[0] in starts && path[|path| - 1] == id && MarkerPath(markers, path)
  }

  /** id is one of starts or an ancestor of one of them in the marker graph. */
  ghost predicate MarkerReachable(markers: map<MarkerId, Marker>, starts: seq<MarkerId>, id: MarkerId) {
    exists path: seq<MarkerId> :: LeadsTo(markers, starts, path, id)
  }

  lemma MarkerStart(markers: map<MarkerId, Marker>, starts: seq<MarkerId>, id: MarkerId)
    requires id in starts
    ensures MarkerReachable(markers, starts, id)
  {
    assert LeadsTo(markers, starts, [id], id);
  }

  lemma MarkerParent(markers: map<MarkerId, Marker>, starts: seq<MarkerId>, id: MarkerId, parent: MarkerId)
    requires MarkerReachable(markers, starts, id) && id in markers && parent in markers[id].parents
    ensures MarkerReachable(markers, starts, parent)
  {
    var path :| LeadsTo(markers, starts, path, id);
    assert LeadsTo(markers, starts, path + [parent], parent);
  }

  lemma InputsAreSpent(db: Db, op: Outpoint, input: Outpoint)
    requires Indexed(db) && input in Inputs(db, op)
    ensures op in db.vtxos && input in db.vtxos
    ensures Covers(db.markers, db.vtxos[op].markers, db.vtxos[input].markers)
  {
    var v := db.vtxos[op];
    assert RowIndexed(db, v);
    var tx := db.txs[v.outpoint.txid];
    CheckpointInput(tx.checkpoints, v.expiresAt, input);
  }

  lemma {:induction false} CheckpointInput(checkpoints: seq<Option<Checkpoint>>, expiresAt: int, input: Outpoint)
    requires ExpandCheckpoints(checkpoints, expiresAt).Ok?
    requires input in ExpandCheckpoints(checkpoints, expiresAt).value.inputs
    ensures exists c :: c in checkpoints && c.Some? && input in CheckpointInputs(c.value)
  {
    var n := |checkpoints| - 1;
    if input in CheckpointInputs(checkpoints[n].value) {
      assert checkpoints[n] in checkpoints;
    } else {
      CheckpointInput(checkpoints[..n], expiresAt, input);
    }
  }

  /**
   Marker completeness: every vtxo that op descends from has markers, and all of them are found by
   following parent links from the markers of op.
   */
  lemma {:induction false} AncestorMarkers(db: Db, op: Outpoint, path: seq<Outpoint>, ancestor: Outpoint)
    requires Indexed(db) && op in db.vtxos && Reaches(db, [op], path, ancestor)
    ensures ancestor in db.vtxos && db.vtxos[ancestor].markers != []
    ensures forall id :: id in db.vtxos[ancestor].markers ==> MarkerReachable(db.markers, db.vtxos[op].markers, id)
    decreases |path|
  {
    hide MarkerReachable, Inputs;
    assert RowIndexed(db, db.vtxos[op]);
    var n := |path| - 1;
    var starts := db.vtxos[op].markers;
    if n == 0 {
      forall id | id in starts ensures MarkerReachable(db.markers, starts, id) {
        MarkerStart(db.markers, starts, id);
      }
    } else {
      var before := path[n - 1];
      assert Reaches(db, [op], path[..n], before);
      AncestorMarkers(db, op, path[..n], before);
      InputsAreSpent(db, before, ancestor);
      assert RowIndexed(db, db.vtxos[ancestor]);
      forall id | id in db.vtxos[ancestor].markers ensures MarkerReachable(db.markers, starts, id) {
        if id !in db.vtxos[before].markers {
          var m :| m in db.vtxos[before].markers && m in db.markers && id in db.markers[m].parents;
          MarkerParent(db.markers, starts, m, id);
        }
      }
    }
  }

  /** Over every run of leaves and offchain txs added to an empty database. */
  lemma MarkerCompleteness(steps: seq<BuildStep>, op: Outpoint, ancestor: Outpoint)
    requires CanBuildAll(Empty, steps) && op in BuildAll(Empty, steps).vtxos
    requires Reachable(BuildAll(Empty, steps), [op], ancestor)
    ensures var db := BuildAll(Empty, steps);
            && ancestor in db.vtxos && db.vtxos[ancestor].markers != []
            && (forall id :: id in db.vtxos[ancestor].markers ==>
                  MarkerReachable(db.markers, db.vtxos[op].markers, id))
  {
    hide CanBuildAll, BuildAll, MarkerReachable, Reaches;
    assert Indexed(Empty);
    BuiltIndexed(Empty, steps);
    var db := BuildAll(Empty, steps);
    var path :| Reaches(db, [op], path, ancestor);
    AncestorMarkers(db, op, path, ancestor);
  }
}
