/** The indexer's walk: caches in front of the database, filled by marker preloads that may fail. */
module VtxoChainWalk {
  import opened Outpoints
  import opened VtxoChain
  import opened VtxoChainTheorems
  import opened MarkerIndex
  import opened MarkerPreload
  import opened VtxoStore
  import opened VtxoChainLinks

  type VtxoCache = map<Outpoint, Vtxo>
  type TxCache = map<Txid, OffchainTx>

  /** A cache holds rows of the database only. */
  ghost predicate Faithful(db: Db, cache: VtxoCache) {
    forall op :: op in cache ==> op in db.vtxos && cache[op] == db.vtxos[op]
  }

  ghost predicate FaithfulTxs(db: Db, cache: TxCache) {
    forall txid :: txid in cache ==> txid in db.txs && cache[txid] == db.txs[txid]
  }

  ghost predicate FromDb(db: Db, rows: seq<Vtxo>) {
    forall v :: v in rows ==> v.outpoint in db.vtxos && v == db.vtxos[v.outpoint]
  }

  // Filling the caches.

  method CacheRows(db: Db, rows: seq<Vtxo>, cache: VtxoCache) returns (cache': VtxoCache)
    requires Faithful(db, cache) && FromDb(db, rows)
    ensures Faithful(db, cache') && cache.Keys <= cache'.Keys
    ensures forall v :: v in rows ==> v.outpoint in cache'
  {
    cache' := cache;
    for i := 0 to |rows|
      invariant Faithful(db, cache') && cache.Keys <= cache'.Keys
      invariant forall j :: 0 <= j < i ==> rows[j].outpoint in cache'
    {
      assert rows[i] in rows;
      if rows[i].outpoint !in cache' {
        cache' := cache'[rows[i].outpoint := rows[i]];
      }
    }
  }

  function AllMarkers(rows: seq<Vtxo>): seq<MarkerId> {
    if rows == [] then [] else AllMarkers(rows[..|rows| - 1]) + rows[|rows| - 1].markers
  }

  method CollectMarkers(rows: seq<Vtxo>) returns (ids: seq<MarkerId>)
    ensures ids == AllMarkers(rows)
  {
    ids := [];
    for i := 0 to |rows|
      invariant ids == AllMarkers(rows[..i])
    {
      assert rows[..i + 1][..i] == rows[..i];
      ids := ids + rows[i].markers;
    }
    assert rows[..|rows|] == rows;
  }

  /** The offchain txs that rows need and the cache does not have. */
  method MissingTxids(rows: seq<Vtxo>, cache: TxCache) returns (txids: set<Txid>)
    ensures forall txid :: txid in txids <==>
              txid !in cache && exists v :: v in rows && v.preconfirmed && v.outpoint.txid == txid
  {
    txids := {};
    for i := 0 to |rows|
      invariant forall txid :: txid in txids <==>
                  txid !in cache && exists j :: 0 <= j < i && rows[j].preconfirmed && rows[j].outpoint.txid == txid
    {
      if rows[i].preconfirmed && rows[i].outpoint.txid !in cache {
        txids := txids + {rows[i].outpoint.txid};
      }
    }
    forall txid
      ensures txid in txids <==> txid !in cache && exists v :: v in rows && v.preconfirmed && v.outpoint.txid == txid
    {
      if v :| v in rows && v.preconfirmed && v.outpoint.txid == txid {
        var j :| 0 <= j < |rows| && rows[j] == v;
      }
    }
  }

  /** op carries a marker that the markers of the rows lead to. */
  ghost predicate InWindow(db: Db, rows: seq<Vtxo>, op: Outpoint) {
    op in db.vtxos && exists id :: id in db.vtxos[op].markers && MarkerReachable(db.markers, AllMarkers(rows), id)
  }

  lemma WindowIsTagged(db: Db, rows: seq<Vtxo>, ids: seq<MarkerId>, op: Outpoint)
    requires forall id :: id in ids <==> MarkerReachable(db.markers, AllMarkers(rows), id)
    ensures InWindow(db, rows, op) <==> op in db.vtxos && Tagged(db.vtxos[op], ids)
  {
    hide MarkerReachable, AllMarkers;
  }

  /**
   Caches the start rows, the vtxos of their marker window and the offchain txs of these. A query
   that fails ends the preload early and leaves the caches as far as it got.
   */
  method PreloadByMarkers(db: Db, rows: seq<Vtxo>, vtxoCache: VtxoCache, txCache: TxCache, hasTxs: bool, up: bool)
    returns (ok: bool, vtxoCache': VtxoCache, txCache': TxCache)
    requires Keyed(db) && FromDb(db, rows) && Faithful(db, vtxoCache) && FaithfulTxs(db, txCache)
    ensures up ==> ok
    ensures Faithful(db, vtxoCache') && FaithfulTxs(db, txCache')
    ensures vtxoCache.Keys <= vtxoCache'.Keys && txCache.Keys <= txCache'.Keys
    ensures ok ==> forall op :: InWindow(db, rows, op) ==> op in vtxoCache'
    ensures ok && hasTxs ==>
              forall op :: InWindow(db, rows, op) && db.vtxos[op].preconfirmed && op.txid in db.txs ==> op.txid in txCache'
  {
    hide MarkerReachable, AllMarkers, Levels, InWindow;
    txCache' := txCache;
    vtxoCache' := CacheRows(db, rows, vtxoCache);
    var starts := CollectMarkers(rows);
    if starts == [] {
      forall op ensures !InWindow(db, rows, op) {
        NothingInWindow(db, rows, op);
      }
      return true, vtxoCache', txCache';
    }
    var climbed, ids, _ := ClimbMarkers(db, starts, up);
    if !climbed {
      return false, vtxoCache', txCache';
    }
    var fetched := GetVtxoChainByMarkers(db, ids, up);
    if fetched.Err? {
      return false, vtxoCache', txCache';
    }
    var window := fetched.value;
    forall op | InWindow(db, rows, op) ensures op in db.vtxos && db.vtxos[op] in window && db.vtxos[op].outpoint == op {
      WindowIsTagged(db, rows, ids, op);
    }
    vtxoCache' := CacheRows(db, window, vtxoCache');
    var missing := MissingTxids(window, txCache');
    if missing != {} && hasTxs {
      var txs := GetOffchainTxsByTxids(db, missing, up);
      if txs.Err? {
        return false, vtxoCache', txCache';
      }
      txCache' := txCache' + txs.value;
    }
    return true, vtxoCache', txCache';
  }

  lemma NothingInWindow(db: Db, rows: seq<Vtxo>, op: Outpoint)
    requires AllMarkers(rows) == []
    ensures !InWindow(db, rows, op)
  {
  }

  /** On an index built from leaves and offchain txs, the window of a vtxo holds all its ancestors. */
  lemma AncestorsInWindow(db: Db, op: Outpoint, ancestor: Outpoint)
    requires Indexed(db) && op in db.vtxos && Reachable(db, [op], ancestor)
    ensures InWindow(db, [db.vtxos[op]], ancestor)
  {
    hide MarkerReachable, Reaches;
    var path :| Reaches(db, [op], path, ancestor);
    AncestorMarkers(db, op, path, ancestor);
    assert AllMarkers([db.vtxos[op]]) == db.vtxos[op].markers by {
      assert [db.vtxos[op]][..0] == [];
    }
    assert db.vtxos[ancestor].markers[0] in db.vtxos[ancestor].markers;
  }

  /** Loads a marker's vtxos into the cache; a failed query is skipped. */
  method LoadWindow(db: Db, id: MarkerId, cache: VtxoCache, up: bool) returns (cache': VtxoCache)
    requires Keyed(db) && Faithful(db, cache)
    ensures Faithful(db, cache') && cache.Keys <= cache'.Keys
    ensures up ==> forall op :: op in db.vtxos && id in db.vtxos[op].markers ==> op in cache'
  {
    var window := GetVtxosByMarker(db, id, up);
    cache' := cache;
    if window.Ok? {
      cache' := CacheRows(db, window.value, cache);
    }
  }

  method LoadWindows(db: Db, ids: seq<MarkerId>, cache: VtxoCache, loaded: set<MarkerId>, up: bool)
    returns (cache': VtxoCache, loaded': set<MarkerId>)
    requires Keyed(db) && Faithful(db, cache)
    ensures Faithful(db, cache') && cache.Keys <= cache'.Keys && loaded <= loaded'
  {
    cache', loaded' := cache, loaded;
    for i := 0 to |ids|
      invariant Faithful(db, cache') && cache.Keys <= cache'.Keys && loaded <= loaded'
    {
      if ids[i] !in loaded' {
        loaded' := loaded' + {ids[i]};
        cache' := LoadWindow(db, ids[i], cache', up);
      }
    }
  }

  /** Afterwards every one of the outpoints that the database has is cached, whatever was cached before. */
  method EnsureVtxosCached(
    db: Db, ops: seq<Outpoint>, cache: VtxoCache, loaded: set<MarkerId>, hasMarkers: bool, up: bool, markersUp: bool)
    returns (ok: bool, cache': VtxoCache, loaded': set<MarkerId>, queried: bool)
    requires Keyed(db) && Faithful(db, cache)
    ensures Faithful(db, cache') && cache.Keys <= cache'.Keys
    ensures queried <==> exists op :: op in ops && op !in cache
    ensures up ==> ok
    ensures ok ==> forall op :: op in ops && op in db.vtxos ==> op in cache'
    ensures !queried ==> ok && cache' == cache
  {
    cache', loaded' := cache, loaded;
    var missing: seq<Outpoint> := [];
    for i := 0 to |ops|
      invariant forall op :: op in missing <==> op in ops[..i] && op !in cache
    {
      assert ops[..i + 1] == ops[..i] + [ops[i]];
      if ops[i] !in cache {
        missing := missing + [ops[i]];
      }
    }
    assert ops[..|ops|] == ops;
    if missing == [] {
      return true, cache', loaded', false;
    }
    assert missing[0] in missing;
    var fetched := GetVtxos(db, missing, up);
    if fetched.Err? {
      return false, cache', loaded', true;
    }
    var rows := fetched.value;
    cache' := CacheRows(db, rows, cache');
    forall op | op in ops && op in db.vtxos ensures op in cache' {
      if op !in cache {
        assert db.vtxos[op] in rows && db.vtxos[op].outpoint == op;
      }
    }
    if hasMarkers {
      ghost var had := cache'.Keys;
      for i := 0 to |rows|
        invariant Faithful(db, cache') && had <= cache'.Keys
      {
        cache', loaded' := LoadWindows(db, rows[i].markers, cache', loaded', markersUp);
      }
    }
    return true, cache', loaded', true;
  }

  // Expanding one vtxo.

  method AddCheckpoints(v: Vtxo, tx: OffchainTx) returns (r: Result<Expansion>)
    ensures r == ExpandArkTx(v, tx)
    ensures r.Ok? <==> Readable(tx)
    ensures r.Ok? ==> DescribesTx(v, tx.checkpoints, r.value.chain)
  {
    hide DescribesTx, Readable;
    ArkTxExpands(v, tx);
    var ark := ChainTx(v.outpoint.txid, v.expiresAt, ArkTx, []);
    var checkpoints: seq<ChainTx> := [];
    var outpoints, inputs := [v.outpoint], [];
    for i := 0 to |tx.checkpoints|
      invariant ark == ChainTx(v.outpoint.txid, v.expiresAt, ArkTx, SpendsAll(checkpoints))
      invariant var x := ExpandCheckpoints(tx.checkpoints[..i], v.expiresAt);
                && x.Ok? && checkpoints == x.value.chain && outpoints == [v.outpoint] + x.value.outpoints
                && inputs == x.value.inputs
    {
      assert tx.checkpoints[..i + 1][..i] == tx.checkpoints[..i];
      match tx.checkpoints[i]
      case None =>
        CheckpointError(tx.checkpoints, i, v.expiresAt);
        return Err(BadCheckpoint);
      case Some(c) =>
        checkpoints := checkpoints + [ChainTx(c.txid, v.expiresAt, CheckpointTx, [SpendsOutpoint(c.input)])];
        outpoints := outpoints + [Outpoint(c.txid, 0)];
        ark := ark.(spends := ark.spends + [SpendsTx(c.txid)]);
        inputs := inputs + [c.input] + c.others;
    }
    assert tx.checkpoints[..|tx.checkpoints|] == tx.checkpoints;
    return Ok(Expansion([ark] + checkpoints, outpoints, inputs));
  }

  /** One checkpoint that does not decode fails the whole tx. */
  lemma {:induction false} CheckpointError(checkpoints: seq<Option<Checkpoint>>, i: nat, expiresAt: int)
    requires i < |checkpoints| && checkpoints[i].None? && ExpandCheckpoints(checkpoints[..i], expiresAt).Ok?
    ensures ExpandCheckpoints(checkpoints, expiresAt) == Err(BadCheckpoint)
  {
    var n := |checkpoints| - 1;
    if i < n {
      assert checkpoints[..n][..i] == checkpoints[..i];
      CheckpointError(checkpoints[..n], i, expiresAt);
    }
  }

  method AddBranch(v: Vtxo, path: seq<Txid>) returns (x: Expansion)
    ensures x == ExpandBranch(v, path)
    ensures DescribesBranch(v, path, x.chain)
  {
    BranchDescribed(v, path);
    hide DescribesBranch;
    var n := |path|;
    var txs: seq<ChainTx> := [];
    for i := 0 to n
      invariant |txs| == i
      invariant forall j :: 0 <= j < i ==> txs[j] == ChainTx(path[n - 1 - j], v.expiresAt, TreeTx, [])
    {
      txs := txs + [ChainTx(path[n - 1 - i], v.expiresAt, TreeTx, [])];
    }
    for i := 0 to n
      invariant |txs| == n
      invariant forall j :: 0 <= j < i ==> txs[j] == BranchTx(v, path, j)
      invariant forall j :: i <= j < n ==> txs[j] == ChainTx(path[n - 1 - j], v.expiresAt, TreeTx, [])
    {
      if i == n - 1 {
        txs := txs[i := txs[i].(spends := [SpendsTx(v.rootCommitment)])];
      } else {
        txs := txs[i := txs[i].(spends := [SpendsTx(txs[i + 1].txid)])];
      }
    }
    var outpoints: seq<Outpoint> := [];
    for i := 0 to n
      invariant |outpoints| == i && forall j :: 0 <= j < i ==> outpoints[j] == Outpoint(path[j], 0)
    {
      outpoints := outpoints + [Outpoint(path[i], 0)];
    }
    return Expansion(txs + [ChainTx(v.rootCommitment, v.expiresAt, CommitmentTx, [])], [v.outpoint] + outpoints, []);
  }

  method ExpandVtxo(db: Db, v: Vtxo, txCache: TxCache, up: bool) returns (r: Result<Expansion>, txCache': TxCache)
    requires FaithfulTxs(db, txCache)
    ensures r == Expand(db, v) || (r == Err(StoreFailure) && !up)
    ensures r.Ok? ==> Describes(db, v, r.value.chain)
    ensures FaithfulTxs(db, txCache')
  {
    if Expand(db, v).Ok? {
      ExpandDescribes(db, v);
    }
    hide Describes, DescribesTx, DescribesBranch;
    hide ExpandArkTx, ExpandBranch;
    txCache' := txCache;
    if v.preconfirmed {
      if v.outpoint.txid !in txCache' {
        var tx := GetOffchainTx(db, v.outpoint.txid, up);
        if tx.Err? {
          return Err(tx.error), txCache';
        }
        txCache' := txCache'[v.outpoint.txid := tx.value];
      }
      r := AddCheckpoints(v, txCache'[v.outpoint.txid]);
    } else {
      var path := GetBranch(db, v.rootCommitment, v.outpoint.txid, up);
      if path.Err? {
        return Err(path.error), txCache';
      }
      var x := AddBranch(v, path.value);
      r := Ok(x);
    }
  }

  // The walk.

  method Unvisited(ops: seq<Outpoint>, visited: set<Outpoint>, ghost done: seq<Outpoint>) returns (next: seq<Outpoint>)
    requires forall op :: op in visited <==> op in done
    ensures next == NotIn(ops, done)
  {
    next := [];
    for i := 0 to |ops|
      invariant next == NotIn(ops[..i], done)
    {
      assert ops[..i + 1][..i] == ops[..i];
      if ops[i] !in visited {
        next := next + [ops[i]];
      }
    }
    assert ops[..|ops|] == ops;
  }

  /** The outpoints of a frontier that the database has, in their order. */
  function Present(db: Db, ops: seq<Outpoint>): seq<Outpoint> {
    if ops == [] then [] else (if ops[0] in db.vtxos then [ops[0]] else []) + Present(db, ops[1..])
  }

  function Keys(rows: seq<Vtxo>): seq<Outpoint> {
    seq(|rows|, i requires 0 <= i < |rows| => rows[i].outpoint)
  }

  method ReadFrontier(db: Db, ops: seq<Outpoint>, cache: VtxoCache) returns (found: seq<Vtxo>)
    requires Keyed(db) && Faithful(db, cache) && forall op :: op in ops && op in db.vtxos ==> op in cache
    ensures FromDb(db, found) && Keys(found) == Present(db, ops)
  {
    found := [];
    for i := 0 to |ops|
      invariant FromDb(db, found)
      invariant Keys(found) + Present(db, ops[i..]) == Present(db, ops)
    {
      assert ops[i..][1..] == ops[i + 1..] && ops[i] in ops;
      if ops[i] in cache {
        assert Keys(found + [cache[ops[i]]]) == Keys(found) + [ops[i]];
        found := found + [cache[ops[i]]];
      }
    }
  }

  lemma {:induction false} LevelPresent(db: Db, ops: seq<Outpoint>, w: Progress, next: seq<Outpoint>, limit: Option<nat>)
    ensures PlainLevel(db, ops, w, next, limit) == PlainLevel(db, Present(db, ops), w, next, limit)
    decreases |ops|
  {
    hide Expand;
    if ops != [] {
      var rest := Present(db, ops[1..]);
      assert [ops[0]] + rest != [] && ([ops[0]] + rest)[1..] == rest;
      if ops[0] !in db.vtxos {
        assert Present(db, ops) == rest;
        LevelPresent(db, ops[1..], w, next, limit);
      } else if ops[0] in w.expanded {
        LevelPresent(db, ops[1..], w, next, limit);
      } else if Expand(db, db.vtxos[ops[0]]).Ok? {
        var x := Expand(db, db.vtxos[ops[0]]).value;
        LevelPresent(db, ops[1..], Add(w, ops[0], x), next + NotIn(x.inputs, w.expanded + [ops[0]]), limit);
      }
    }
  }

  lemma {:induction false} PresentEmpty(db: Db, ops: seq<Outpoint>)
    ensures Present(db, ops) == [] <==> NoneFound(db, ops)
  {
    if ops != [] {
      PresentEmpty(db, ops[1..]);
      assert NoneFound(db, ops) ==> NoneFound(db, ops[1..]);
      assert ops[0] !in db.vtxos && NoneFound(db, ops[1..]) ==> NoneFound(db, ops) by {
        assert forall i :: 0 < i < |ops| ==> ops[i] == ops[1..][i - 1];
      }
    }
  }

  /** One level: expands the rows of the frontier that were not visited before. */
  method WalkLevel(
    db: Db, rows: seq<Vtxo>, w0: Progress, visited0: set<Outpoint>, txCache: TxCache, limit: nat, up: bool)
    returns (level: Level, visited: set<Outpoint>, txCache': TxCache)
    requires FromDb(db, rows) && FaithfulTxs(db, txCache)
    requires forall op :: op in visited0 <==> op in w0.expanded
    ensures level == PlainLevel(db, Keys(rows), w0, [], Some(limit)) || (level == Broken(StoreFailure) && !up)
    ensures FaithfulTxs(db, txCache')
    ensures level.Expanded? ==> forall op :: op in visited <==> op in level.w.expanded
  {
    hide Expand, NotIn;
    var w, next := w0, [];
    visited, txCache' := visited0, txCache;
    for i := 0 to |rows|
      invariant FaithfulTxs(db, txCache')
      invariant forall op :: op in visited <==> op in w.expanded
      invariant PlainLevel(db, Keys(rows), w0, [], Some(limit)) == PlainLevel(db, Keys(rows)[i..], w, next, Some(limit))
    {
      var v := rows[i];
      assert v in rows && Keys(rows)[i..][0] == v.outpoint && Keys(rows)[i..][1..] == Keys(rows)[i + 1..];
      if v.outpoint !in visited {
        if |w.chain| >= limit {
          return Stopped(w), visited, txCache';
        }
        var x;
        x, txCache' := ExpandVtxo(db, v, txCache', up);
        if x.Err? {
          return Broken(x.error), visited, txCache';
        }
        visited := visited + {v.outpoint};
        var more := Unvisited(x.value.inputs, visited, w.expanded + [v.outpoint]);
        w := Add(w, v.outpoint, x.value);
        next := next + more;
      }
    }
    return Expanded(w, next), visited, txCache';
  }

  /** The preload of a single vtxo that works leaves all its ancestors in the cache. */
  ghost predicate PreloadsAll(db: Db, starts: seq<Outpoint>, hasMarkers: bool, markersUp: bool) {
    Indexed(db) && hasMarkers && markersUp && |starts| == 1 && starts[0] in db.vtxos
  }

  ghost predicate CachesReachable(db: Db, starts: seq<Outpoint>, cache: VtxoCache) {
    forall op :: Reachable(db, starts, op) ==> op in cache
  }

  /** The caches a walk starts with. */
  method StartCaches(db: Db, starts: seq<Outpoint>, hasMarkers: bool, hasTxs: bool, up: bool, markersUp: bool)
    returns (ok: bool, vtxoCache: VtxoCache, txCache: TxCache)
    requires Keyed(db)
    ensures up ==> ok
    ensures Faithful(db, vtxoCache) && FaithfulTxs(db, txCache)
    ensures ok && PreloadsAll(db, starts, hasMarkers, markersUp) ==> CachesReachable(db, starts, vtxoCache)
  {
    hide Faithful, FaithfulTxs, InWindow, Keyed, Indexed, Reachable;
    ok, vtxoCache, txCache := true, map[], map[];
    EmptyCaches(db);
    if hasMarkers {
      var rows := GetVtxos(db, starts, up);
      if rows.Err? {
        return false, vtxoCache, txCache;
      }
      assert FromDb(db, rows.value) by { RowsKeyed(db, starts, rows.value); }
      var loaded;
      loaded, vtxoCache, txCache := PreloadByMarkers(db, rows.value, vtxoCache, txCache, hasTxs, markersUp);
      if PreloadsAll(db, starts, hasMarkers, markersUp) {
        AncestorsCached(db, starts[0], rows.value, vtxoCache);
        assert starts == [starts[0]];
      }
    }
  }

  /** The rows of a frontier, with their offchain txs in the cache as far as they exist. */
  method LoadLevel(
    db: Db, frontier: seq<Outpoint>, vtxoCache: VtxoCache, txCache: TxCache, loaded: set<MarkerId>, hasMarkers: bool,
    up: bool, markersUp: bool)
    returns (ok: bool, rows: seq<Vtxo>, vtxoCache': VtxoCache, txCache': TxCache, loaded': set<MarkerId>, queried: bool)
    requires Keyed(db) && Faithful(db, vtxoCache) && FaithfulTxs(db, txCache)
    ensures Faithful(db, vtxoCache') && FaithfulTxs(db, txCache') && vtxoCache.Keys <= vtxoCache'.Keys
    ensures up ==> ok
    ensures ok ==> FromDb(db, rows) && Keys(rows) == Present(db, frontier)
    ensures queried <==> exists op :: op in frontier && op !in vtxoCache
  {
    hide Faithful, FaithfulTxs, Keyed;
    rows, txCache' := [], txCache;
    ok, vtxoCache', loaded', queried := EnsureVtxosCached(db, frontier, vtxoCache, loaded, hasMarkers, up, markersUp);
    if !ok {
      return;
    }
    rows := ReadFrontier(db, frontier, vtxoCache');
    var missing := MissingTxids(rows, txCache');
    if |rows| > 0 && missing != {} {
      var txs := GetOffchainTxsByTxids(db, missing, up);
      if txs.Err? {
        ok := false;
        return;
      }
      CacheTxs(db, txCache', txs.value);
      txCache' := txCache' + txs.value;
    }
  }

  /**
   The indexer's walk returns what the plain walk returns while the stores of vtxos, txs and rounds are
   up, or fails because one of their queries failed. Whether the marker store is up does not matter: a
   preload that fails costs nothing but the queries it would have saved. hops counts the levels that had
   to query vtxos: none on a built index, where the preload of a vtxo has fetched all its ancestors.
   */
  method WalkVtxoChain(
    db: Db, starts: seq<Outpoint>, limit: nat, hasMarkers: bool, hasTxs: bool, up: bool, markersUp: bool)
    returns (walk: Walk, hops: nat)
    requires Keyed(db)
    ensures walk == PlainWalk(db, starts, Start, Some(limit)) || (walk == Failed(StoreFailure) && !up)
    ensures LinkedWalk(walk)
    ensures PreloadsAll(db, starts, hasMarkers, markersUp) ==> hops == 0
  {
    hide LinkedWalk;
    WalkLinked(db, starts, limit);
    hide PlainLevel, Faithful, FaithfulTxs, Keyed, PreloadsAll, Visiting, Reachable, CachesReachable;
    hops := 0;
    var w, visited: set<Outpoint>, frontier, loaded: set<MarkerId> := Start, {}, starts, {};
    var ok, vtxoCache, txCache := StartCaches(db, starts, hasMarkers, hasTxs, up, markersUp);
    if !ok {
      return Failed(StoreFailure), hops;
    }
    StartVisiting(db, starts);
    while frontier != []
      invariant Faithful(db, vtxoCache) && FaithfulTxs(db, txCache)
      invariant forall op :: op in visited <==> op in w.expanded
      invariant PlainWalk(db, starts, Start, Some(limit)) == PlainWalk(db, frontier, w, Some(limit))
      invariant Visiting(db, starts, w, frontier)
      invariant PreloadsAll(db, starts, hasMarkers, markersUp) ==> hops == 0 && CachesReachable(db, starts, vtxoCache)
      decreases |Unexpanded(db, w)|, |frontier|
    {
      FrontierCached(db, starts, w, frontier, vtxoCache);
      ghost var before := vtxoCache;
      var rows, queried;
      ok, rows, vtxoCache, txCache, loaded, queried :=
        LoadLevel(db, frontier, vtxoCache, txCache, loaded, hasMarkers, up, markersUp);
      MoreCached(db, starts, before, vtxoCache);
      if queried {
        hops := hops + 1;
      }
      if !ok {
        return Failed(StoreFailure), hops;
      }
      PresentEmpty(db, frontier);
      if |rows| == 0 {
        return Failed(VtxoNotFound(frontier)), hops;
      }
      var level;
      level, visited, txCache := WalkLevel(db, rows, w, visited, txCache, limit, up);
      LevelPresent(db, frontier, w, [], Some(limit));
      LevelShrinks(db, frontier, w, Some(limit));
      assert frontier + [] == frontier;
      LevelVisits(db, starts, frontier, w, [], Some(limit));
      match level
      case Broken(e) => return Failed(e), hops;
      case Stopped(w') => return Walked(w', true), hops;
      case Expanded(w', next) => w, frontier := w', next;
    }
    return Walked(w, false), hops;
  }

  /** A walk that succeeds lists a linked chain. */
  ghost predicate LinkedWalk(walk: Walk) {
    walk.Walked? ==> Linked(walk.w.chain)
  }

  lemma WalkLinked(db: Db, starts: seq<Outpoint>, limit: nat)
    requires Keyed(db)
    ensures LinkedWalk(PlainWalk(db, starts, Start, Some(limit))) && LinkedWalk(Failed(StoreFailure))
  {
    hide PlainWalk, Linked, Keyed;
    if PlainWalk(db, starts, Start, Some(limit)).Walked? {
      ChainLinked(db, starts, Some(limit));
    }
  }

  lemma FrontierCached(db: Db, starts: seq<Outpoint>, w: Progress, frontier: seq<Outpoint>, cache: VtxoCache)
    requires Visiting(db, starts, w, frontier)
    ensures CachesReachable(db, starts, cache) ==> forall op :: op in frontier ==> op in cache
  {
  }

  lemma MoreCached(db: Db, starts: seq<Outpoint>, cache: VtxoCache, cache': VtxoCache)
    requires cache.Keys <= cache'.Keys
    ensures CachesReachable(db, starts, cache) ==> CachesReachable(db, starts, cache')
  {
  }

  lemma AncestorsCached(db: Db, op: Outpoint, rows: seq<Vtxo>, cache: VtxoCache)
    requires Indexed(db) && op in db.vtxos && db.vtxos[op] in rows
    requires forall a :: InWindow(db, rows, a) ==> a in cache
    ensures forall a :: Reachable(db, [op], a) ==> a in cache
  {
    hide InWindow, Indexed, Reachable;
    forall a | Reachable(db, [op], a) ensures a in cache {
      AncestorsInWindow(db, op, a);
      WindowGrows(db, db.vtxos[op], rows, a);
    }
  }

  lemma {:induction false} AllMarkersHas(rows: seq<Vtxo>, v: Vtxo)
    requires v in rows
    ensures forall id :: id in v.markers ==> id in AllMarkers(rows)
  {
    var n := |rows| - 1;
    if v != rows[n] {
      AllMarkersHas(rows[..n], v);
    }
  }

  /** The window of a row is part of the window of rows it is among. */
  lemma WindowGrows(db: Db, v: Vtxo, rows: seq<Vtxo>, op: Outpoint)
    requires v in rows && InWindow(db, [v], op)
    ensures InWindow(db, rows, op)
  {
    AllMarkersHas(rows, v);
    assert AllMarkers([v]) == v.markers by {
      assert [v][..0] == [];
    }
    var id :| id in db.vtxos[op].markers && MarkerReachable(db.markers, v.markers, id);
    var path :| LeadsTo(db.markers, v.markers, path, id);
    assert LeadsTo(db.markers, AllMarkers(rows), path, id);
  }

  lemma EmptyCaches(db: Db)
    ensures Faithful(db, map[]) && FaithfulTxs(db, map[])
  {
  }

  lemma RowsKeyed(db: Db, ops: seq<Outpoint>, rows: seq<Vtxo>)
    requires Keyed(db) && forall v :: v in rows ==> exists op :: op in ops && op in db.vtxos && v == db.vtxos[op]
    ensures FromDb(db, rows)
  {
  }

  lemma CacheTxs(db: Db, cache: TxCache, txs: TxCache)
    requires FaithfulTxs(db, cache) && forall txid :: txid in txs ==> txid in db.txs && txs[txid] == db.txs[txid]
    ensures FaithfulTxs(db, cache + txs)
  {
  }
}
