/**
 Queries of the vtxo, marker and offchain tx repositories: rows come in any order, and a query may fail
 unless its store is up.
 */
module VtxoStore {
  import opened Outpoints
  import opened VtxoChain

  method Rows(db: Db, keys: set<Outpoint>) returns (rows: seq<Vtxo>)
    requires keys <= db.vtxos.Keys
    ensures forall v :: v in rows <==> exists op :: op in keys && v == db.vtxos[op]
  {
    rows := [];
    var left := keys;
    while left != {}
      invariant left <= keys
      invariant forall v :: v in rows <==> exists op :: op in keys && op !in left && v == db.vtxos[op]
      decreases |left|
    {
      var op :| op in left;
      rows := rows + [db.vtxos[op]];
      left := left - {op};
    }
  }

  method GetVtxos(db: Db, ops: seq<Outpoint>, up: bool) returns (r: Result<seq<Vtxo>>)
    ensures up ==> r.Ok?
    ensures r.Err? ==> r.error == StoreFailure
    ensures r.Ok? ==> forall v :: v in r.value <==> exists op :: op in ops && op in db.vtxos && v == db.vtxos[op]
  {
    var fails := Fails(up);
    if fails {
      return Err(StoreFailure);
    }
    var rows := Rows(db, set op | op in ops && op in db.vtxos);
    return Ok(rows);
  }

  /** All vtxos that carry the marker. */
  method GetVtxosByMarker(db: Db, id: MarkerId, up: bool) returns (r: Result<seq<Vtxo>>)
    ensures up ==> r.Ok?
    ensures r.Ok? ==>
              forall v :: v in r.value <==> exists op :: op in db.vtxos && id in db.vtxos[op].markers && v == db.vtxos[op]
  {
    var fails := Fails(up);
    if fails {
      return Err(StoreFailure);
    }
    var rows := Rows(db, set op | op in db.vtxos && id in db.vtxos[op].markers);
    return Ok(rows);
  }

  predicate Tagged(v: Vtxo, ids: seq<MarkerId>) {
    exists id :: id in ids && id in v.markers
  }

  /** All vtxos that carry one of the markers. */
  method GetVtxoChainByMarkers(db: Db, ids: seq<MarkerId>, up: bool) returns (r: Result<seq<Vtxo>>)
    ensures up ==> r.Ok?
    ensures r.Ok? ==>
              forall v :: v in r.value <==> exists op :: op in db.vtxos && Tagged(db.vtxos[op], ids) && v == db.vtxos[op]
  {
    var fails := Fails(up);
    if fails {
      return Err(StoreFailure);
    }
    var rows := Rows(db, set op | op in db.vtxos && Tagged(db.vtxos[op], ids));
    return Ok(rows);
  }

  method GetMarkersByIds(db: Db, ids: seq<MarkerId>, up: bool) returns (r: Result<seq<Marker>>)
    ensures up ==> r.Ok?
    ensures r.Ok? ==> forall m :: m in r.value <==> exists id :: id in ids && id in db.markers && m == db.markers[id]
  {
    var fails := Fails(up);
    if fails {
      return Err(StoreFailure);
    }
    var rows: seq<Marker> := [];
    var keys := set id | id in ids && id in db.markers;
    var left := keys;
    while left != {}
      invariant left <= keys
      invariant forall m :: m in rows <==> exists id :: id in keys && id !in left && m == db.markers[id]
      decreases |left|
    {
      var id :| id in left;
      rows := rows + [db.markers[id]];
      left := left - {id};
    }
    return Ok(rows);
  }

  /** The offchain txs found, under their txids. */
  method GetOffchainTxsByTxids(db: Db, txids: set<Txid>, up: bool) returns (r: Result<map<Txid, OffchainTx>>)
    ensures up ==> r.Ok?
    ensures r.Err? ==> r.error == StoreFailure
    ensures r.Ok? ==> r.value == map txid | txid in txids && txid in db.txs :: db.txs[txid]
  {
    var fails := Fails(up);
    if fails {
      return Err(StoreFailure);
    }
    return Ok(map txid | txid in txids && txid in db.txs :: db.txs[txid]);
  }

  method GetOffchainTx(db: Db, txid: Txid, up: bool) returns (r: Result<OffchainTx>)
    ensures up ==> r != Err(StoreFailure)
    ensures r.Ok? ==> txid in db.txs && r.value == db.txs[txid]
    ensures r.Err? ==> r.error == StoreFailure || (r.error == TxNotFound(txid) && txid !in db.txs)
  {
    var fails := Fails(up);
    if fails {
      return Err(StoreFailure);
    }
    return if txid in db.txs then Ok(db.txs[txid]) else Err(TxNotFound(txid));
  }

  /** The branch of a batch tree that leads to one leaf, from the root down. */
  method GetBranch(db: Db, commitment: Txid, leaf: Txid, up: bool) returns (r: Result<seq<Txid>>)
    ensures up ==> r != Err(StoreFailure)
    ensures r.Ok? ==> (commitment, leaf) in db.branches && r.value == db.branches[(commitment, leaf)]
    ensures r.Err? ==> r.error == StoreFailure || (r.error == NoBranch && (commitment, leaf) !in db.branches)
  {
    var fails := Fails(up);
    if fails {
      return Err(StoreFailure);
    }
    return if (commitment, leaf) in db.branches then Ok(db.branches[(commitment, leaf)]) else Err(NoBranch);
  }
}
