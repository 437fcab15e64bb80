/** What every row of a built index looks like: its depth and its markers, in terms of the rows it descends from. */
module MarkerRows {
  import opened Outpoints
  import opened VtxoChain
  import opened MarkerIndex

  /** op is spent by one of the checkpoints. */
  ghost predicate SpentIn(tx: OffchainTx, op: Outpoint) {
    exists c :: c in tx.checkpoints && c.Some? && c.value.input == op
  }

  /** The depth is one more than that of the deepest row spent, in 32 bits. */
  ghost predicate DeeperThan(db: Db, tx: OffchainTx, depth: nat) {
    exists op :: SpentIn(tx, op) && op in db.vtxos && depth == (db.vtxos[op].depth + 1) % 0x1_0000_0000
      && forall o :: SpentIn(tx, o) && o in db.vtxos ==> db.vtxos[o].depth <= db.vtxos[op].depth
  }

  /** id is a marker of a row spent. */
  ghost predicate Inherited(db: Db, tx: OffchainTx, id: MarkerId) {
    exists op :: SpentIn(tx, op) && op in db.vtxos && id in db.vtxos[op].markers
  }

  /** At every hundredth level a row has one marker of its tx, which has the inherited ones as parents; else it has these. */
  ghost predicate CarriesTxMarker(db: Db, tx: OffchainTx, v: Vtxo) {
    && v.depth % 100 == 0
    && var id := TxMarker(v.outpoint.txid, v.depth);
    && id in v.markers && id in db.markers && db.markers[id].depth == v.depth
    && (forall p :: p in db.markers[id].parents <==> Inherited(db, tx, p))
    && (forall m :: m in v.markers ==> m == id || m == OutpointMarker(v.outpoint))
  }

  ghost predicate CarriesInherited(db: Db, tx: OffchainTx, v: Vtxo) {
    && (forall m :: Inherited(db, tx, m) ==> m in v.markers)
    && (forall m :: m in v.markers ==> Inherited(db, tx, m) || m == OutpointMarker(v.outpoint))
  }

  ghost predicate TxRow(db: Db, v: Vtxo) {
    && v.outpoint.txid in db.txs
    && var tx := db.txs[v.outpoint.txid];
    && (forall op :: SpentIn(tx, op) ==> op in db.vtxos)
    && DeeperThan(db, tx, v.depth) && (CarriesTxMarker(db, tx, v) || CarriesInherited(db, tx, v))
  }

  ghost predicate LeafRow(v: Vtxo) {
    v.depth == 0 && v.markers == [OutpointMarker(v.outpoint)]
  }

  ghost predicate Shaped(db: Db) {
    forall op :: op in db.vtxos ==>
      var v := db.vtxos[op]; v.outpoint == op && if v.preconfirmed then TxRow(db, v) else LeafRow(v)
  }

  lemma KeepsTxRow(db: Db, db': Db, v: Vtxo)
    requires TxRow(db, v) && Contains(db, db')
    ensures TxRow(db', v)
  {
    var tx := db.txs[v.outpoint.txid];
    hide SpentIn;
    forall id ensures Inherited(db, tx, id) <==> Inherited(db', tx, id) {
      if Inherited(db', tx, id) {
        var op :| SpentIn(tx, op) && op in db'.vtxos && id in db'.vtxos[op].markers;
        assert op in db.vtxos;
      }
    }
    hide Inherited;
    var op :| SpentIn(tx, op) && op in db.vtxos && v.depth == (db.vtxos[op].depth + 1) % 0x1_0000_0000
           && forall o :: SpentIn(tx, o) && o in db.vtxos ==> db.vtxos[o].depth <= db.vtxos[op].depth;
    assert DeeperThan(db', tx, v.depth);
  }

  lemma StoredSpends(checkpoints: seq<Checkpoint>, op: Outpoint)
    ensures SpentIn(StoredTx(checkpoints), op) <==> op in Spent(checkpoints)
  {
    var tx, spent := StoredTx(checkpoints), Spent(checkpoints);
    if op in spent {
      var i :| 0 <= i < |spent| && spent[i] == op;
      assert tx.checkpoints[i] == Some(checkpoints[i]) && tx.checkpoints[i] in tx.checkpoints;
    }
    if SpentIn(tx, op) {
      var c :| c in tx.checkpoints && c.Some? && c.value.input == op;
      var i :| 0 <= i < |tx.checkpoints| && tx.checkpoints[i] == c;
      assert spent[i] == op;
    }
  }

  /** What adding a tx writes: its checkpoints, one row for each output, and its markers. */
  lemma TxStored(db: Db, step: BuildStep, vout: nat)
    requires step.AddTx? && CanBuild(db, step) && vout in step.outputs
    ensures var db', op := Build(db, step), Outpoint(step.txid, vout);
            && step.txid in db'.txs && db'.txs[step.txid] == StoredTx(step.checkpoints) && op in db'.vtxos
            && var v := db'.vtxos[op];
            var marked, id, own := v.depth % 100 == 0 && step.stored, TxMarker(step.txid, v.depth), OutpointMarker(op);
            var shared := if marked then [id] else step.parents;
            && v == Vtxo(op, true, step.expiresAt, step.commitment, v.depth, shared + if step.outputs[vout] then [own] else [])
            && v.depth == NewDepth(db, Spent(step.checkpoints))
            && (marked ==> id in db'.markers && db'.markers[id] == Marker(id, v.depth, step.parents))
            && (step.outputs[vout] ==> own in db'.markers && db'.markers[own] == Marker(own, v.depth, shared))
  {
    hide NewDepth, FreshTxid, ParentMarker;
  }

  lemma ParentsInherited(db: Db, step: BuildStep, id: MarkerId)
    requires step.AddTx? && CanBuild(db, step)
    ensures id in step.parents <==> Inherited(db, StoredTx(step.checkpoints), id)
  {
    hide FreshTxid;
    var spent := Spent(step.checkpoints);
    if id in step.parents {
      var op :| op in spent && MarkerOf(db, op, id);
      StoredSpends(step.checkpoints, op);
    }
    if Inherited(db, StoredTx(step.checkpoints), id) {
      var op :| SpentIn(StoredTx(step.checkpoints), op) && op in db.vtxos && id in db.vtxos[op].markers;
      StoredSpends(step.checkpoints, op);
      assert MarkerOf(db, op, id) && ParentMarker(db, spent, id);
    }
  }

  lemma NewTxRow(db: Db, step: BuildStep, vout: nat)
    requires step.AddTx? && CanBuild(db, step) && vout in step.outputs
    ensures var op := Outpoint(step.txid, vout);
            op in Build(db, step).vtxos && TxRow(Build(db, step), Build(db, step).vtxos[op])
  {
    hide ParentMarker, FreshTxid, Build, StoredTx, Contains, Inherited, DeeperThan, NewDepth, SpentIn, CanBuild;
    var db' := Build(db, step);
    BuildContains(db, step);
    TxStored(db, step, vout);
    var v := db'.vtxos[Outpoint(step.txid, vout)];
    NewDeeper(db, step, db');
    forall id ensures id in step.parents <==> Inherited(db', StoredTx(step.checkpoints), id) {
      ParentsInherited(db, step, id);
      StillInherited(db, step, db', id);
    }
  }

  lemma NewDeeper(db: Db, step: BuildStep, db': Db)
    requires step.AddTx? && CanBuild(db, step) && Contains(db, db')
    ensures var tx := StoredTx(step.checkpoints);
            DeeperThan(db', tx, NewDepth(db, Spent(step.checkpoints))) && forall op :: SpentIn(tx, op) ==> op in db'.vtxos
  {
    hide MaxDepth, ParentMarker, FreshTxid, StoredTx;
    var spent, tx := Spent(step.checkpoints), StoredTx(step.checkpoints);
    var deepest := DeepestSpent(db, spent);
    forall o ensures SpentIn(tx, o) <==> o in spent {
      StoredSpends(step.checkpoints, o);
    }
    hide SpentIn;
    assert forall o :: o in spent ==> o in db.vtxos && o in db'.vtxos && db'.vtxos[o] == db.vtxos[o];
  }

  lemma StillInherited(db: Db, step: BuildStep, db': Db, id: MarkerId)
    requires step.AddTx? && CanBuild(db, step) && Contains(db, db')
    ensures Inherited(db, StoredTx(step.checkpoints), id) <==> Inherited(db', StoredTx(step.checkpoints), id)
  {
    hide ParentMarker, FreshTxid, StoredTx;
    var spent, tx := Spent(step.checkpoints), StoredTx(step.checkpoints);
    forall o | SpentIn(tx, o) ensures o in db.vtxos {
      StoredSpends(step.checkpoints, o);
      assert o in spent;
    }
    hide SpentIn;
  }

  lemma BuildShaped(db: Db, step: BuildStep)
    requires Shaped(db) && CanBuild(db, step)
    ensures Shaped(Build(db, step))
  {
    hide TxRow, CanBuild;
    var db' := Build(db, step);
    BuildContains(db, step);
    forall op | op in db'.vtxos
      ensures var v := db'.vtxos[op]; v.outpoint == op && if v.preconfirmed then TxRow(db', v) else LeafRow(v)
    {
      if op in db.vtxos {
        if db.vtxos[op].preconfirmed {
          KeepsTxRow(db, db', db.vtxos[op]);
        }
      } else if step.AddTx? {
        assert op.txid == step.txid && op.vout in step.outputs;
        TxStored(db, step, op.vout);
        NewTxRow(db, step, op.vout);
      }
    }
  }

  lemma {:induction false} BuiltShaped(db: Db, steps: seq<BuildStep>)
    requires Shaped(db) && CanBuildAll(db, steps)
    ensures Shaped(BuildAll(db, steps))
    decreases |steps|
  {
    hide CanBuild, Shaped;
    if steps != [] {
      BuildShaped(db, steps[0]);
      BuiltShaped(Build(db, steps[0]), steps[1..]);
    }
  }

  /**
   Over every run of leaves and offchain txs: a leaf has depth 0 and its own marker. Every other row is one deeper
   than the deepest row its tx spends, and carries either the marker of its tx, at every hundredth level, which
   leads to exactly the markers of the rows spent, or these markers themselves; a dust output carries its own besides.
   */
  lemma BuiltRows(steps: seq<BuildStep>, op: Outpoint)
    requires CanBuildAll(Empty, steps) && op in BuildAll(Empty, steps).vtxos
    ensures var db := BuildAll(Empty, steps); var v := db.vtxos[op];
            && v.outpoint == op && (v.preconfirmed ==> TxRow(db, v)) && (!v.preconfirmed ==> LeafRow(v))
  {
    hide CanBuildAll, BuildAll, TxRow;
    BuiltShaped(Empty, steps);
  }
}
