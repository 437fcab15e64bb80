/**
 The chain of a vtxo: the transactions between it and the commitment txs it comes from, found by
 walking upwards from outpoint to outpoint. This is the plain walk, which looks every outpoint up in
 the database; the indexer's own walk is proved against it.
 */
module VtxoChain {
  import opened Outpoints

  /** Marker identifiers: the string "txid:vout", or "txid:marker:depth". */
  datatype MarkerId = OutpointMarker(outpoint: Outpoint) | TxMarker(txid: Txid, depth: nat)

  datatype Marker = Marker(id: MarkerId, depth: nat, parents: seq<MarkerId>)

  datatype Vtxo = Vtxo(
    outpoint: Outpoint, preconfirmed: bool, expiresAt: int, rootCommitment: Txid, depth: nat, markers: seq<MarkerId>)

  /** A checkpoint tx has at least one input. */
  datatype Checkpoint = Checkpoint(txid: Txid, input: Outpoint, others: seq<Outpoint>)

  /** Checkpoints in the order in which they are visited; None is one that does not decode. */
  datatype OffchainTx = OffchainTx(checkpoints: seq<Option<Checkpoint>>)

  /** branches holds, for a commitment tx and a leaf of its tree, the txids from the root to the leaf. */
  datatype Db = Db(
    vtxos: map<Outpoint, Vtxo>, txs: map<Txid, OffchainTx>, branches: map<(Txid, Txid), seq<Txid>>,
    markers: map<MarkerId, Marker>)

  /** Rows are stored under their own keys. */
  ghost predicate Keyed(db: Db) {
    && (forall op :: op in db.vtxos ==> db.vtxos[op].outpoint == op)
    && (forall id :: id in db.markers ==> db.markers[id].id == id)
  }

  datatype TxKind = ArkTx | CheckpointTx | TreeTx | CommitmentTx

  datatype Spend = SpendsTx(txid: Txid) | SpendsOutpoint(outpoint: Outpoint)

  datatype ChainTx = ChainTx(txid: Txid, expiresAt: int, kind: TxKind, spends: seq<Spend>)

  datatype WalkError = VtxoNotFound(frontier: seq<Outpoint>) | TxNotFound(txid: Txid) | BadCheckpoint | NoBranch
                     | StoreFailure

  datatype Result<+T> = Ok(value: T) | Err(error: WalkError)

  // Expanding one vtxo.

  /** What one vtxo adds: chain txs, outpoints seen, and the outpoints its checkpoints spend. */
  datatype Expansion = Expansion(chain: seq<ChainTx>, outpoints: seq<Outpoint>, inputs: seq<Outpoint>)

  function CheckpointInputs(c: Checkpoint): seq<Outpoint> {
    [c.input] + c.others
  }

  /** The checkpoints, their chain txs one after the other. */
  function ExpandCheckpoints(checkpoints: seq<Option<Checkpoint>>, expiresAt: int): Result<Expansion> {
    if checkpoints == [] then Ok(Expansion([], [], []))
    else
      var n := |checkpoints| - 1;
      match (ExpandCheckpoints(checkpoints[..n], expiresAt), checkpoints[n])
      case (Err(e), _) => Err(e)
      case (Ok(_), None) => Err(BadCheckpoint)
      case (Ok(x), Some(c)) =>
        Ok(Expansion(x.chain + [ChainTx(c.txid, expiresAt, CheckpointTx, [SpendsOutpoint(c.input)])],
                     x.outpoints + [Outpoint(c.txid, 0)],
                     x.inputs + CheckpointInputs(c)))
  }

  function SpendsAll(chain: seq<ChainTx>): seq<Spend> {
    seq(|chain|, i requires 0 <= i < |chain| => SpendsTx(chain[i].txid))
  }

  function ExpandArkTx(v: Vtxo, tx: OffchainTx): Result<Expansion> {
    match ExpandCheckpoints(tx.checkpoints, v.expiresAt)
    case Err(e) => Err(e)
    case Ok(x) =>
      Ok(Expansion([ChainTx(v.outpoint.txid, v.expiresAt, ArkTx, SpendsAll(x.chain))] + x.chain,
                   [v.outpoint] + x.outpoints, x.inputs))
  }

  /** The branch of the batch tree from the leaf up to the commitment tx: each tx spends the next one. */
  function BranchTx(v: Vtxo, path: seq<Txid>, i: nat): ChainTx
    requires i < |path|
  {
    ChainTx(path[|path| - 1 - i], v.expiresAt, TreeTx,
            [SpendsTx(if i == |path| - 1 then v.rootCommitment else path[|path| - 2 - i])])
  }

  function ExpandBranch(v: Vtxo, path: seq<Txid>): Expansion {
    Expansion(seq(|path|, i requires 0 <= i < |path| => BranchTx(v, path, i))
              + [ChainTx(v.rootCommitment, v.expiresAt, CommitmentTx, [])],
              [v.outpoint] + seq(|path|, i requires 0 <= i < |path| => Outpoint(path[i], 0)), [])
  }

  function Expand(db: Db, v: Vtxo): Result<Expansion> {
    if v.preconfirmed then
      if v.outpoint.txid in db.txs then ExpandArkTx(v, db.txs[v.outpoint.txid]) else Err(TxNotFound(v.outpoint.txid))
    else if (v.rootCommitment, v.outpoint.txid) in db.branches then
      Ok(ExpandBranch(v, db.branches[(v.rootCommitment, v.outpoint.txid)]))
    else Err(NoBranch)
  }

  // The plain walk.

  /** How far a walk has got: the outpoints expanded, in order, and what they added. */
  datatype Progress = Progress(expanded: seq<Outpoint>, chain: seq<ChainTx>, outpoints: seq<Outpoint>)

  const Start := Progress([], [], [])

  function Add(w: Progress, op: Outpoint, x: Expansion): Progress {
    Progress(w.expanded + [op], w.chain + x.chain, w.outpoints + x.outpoints)
  }

  function NotIn(ops: seq<Outpoint>, done: seq<Outpoint>): seq<Outpoint> {
    if ops == [] then []
    else NotIn(ops[..|ops| - 1], done) + if ops[|ops| - 1] in done then [] else [ops[|ops| - 1]]
  }

  datatype Level = Expanded(w: Progress, next: seq<Outpoint>) | Stopped(w: Progress) | Broken(error: WalkError)

  /** limit None is no limit. */
  predicate Reached(limit: Option<nat>, w: Progress) {
    limit.Some? && |w.chain| >= limit.value
  }

  /** Expands what a frontier holds, skipping what the database does not have or is expanded already. */
  function PlainLevel(db: Db, ops: seq<Outpoint>, w: Progress, next: seq<Outpoint>, limit: Option<nat>): Level
    decreases |ops|
  {
    if ops == [] then Expanded(w, next)
    else if ops[0] !in db.vtxos || ops[0] in w.expanded then PlainLevel(db, ops[1..], w, next, limit)
    else if Reached(limit, w) then Stopped(w)
    else
      match Expand(db, db.vtxos[ops[0]])
      case Err(e) => Broken(e)
      case Ok(x) =>
        PlainLevel(db, ops[1..], Add(w, ops[0], x), next + NotIn(x.inputs, w.expanded + [ops[0]]), limit)
  }

  ghost function Unexpanded(db: Db, w: Progress): set<Outpoint> {
    set op | op in db.vtxos && op !in w.expanded
  }

  lemma {:induction false} LevelProgress(db: Db, ops: seq<Outpoint>, w: Progress, next: seq<Outpoint>, limit: Option<nat>)
    requires PlainLevel(db, ops, w, next, limit).Expanded?
    ensures var l := PlainLevel(db, ops, w, next, limit);
            && Unexpanded(db, l.w) <= Unexpanded(db, w)
            && (Unexpanded(db, l.w) == Unexpanded(db, w) ==> l.w == w && l.next == next)
    decreases |ops|
  {
    if ops != [] {
      if ops[0] !in db.vtxos || ops[0] in w.expanded {
        LevelProgress(db, ops[1..], w, next, limit);
      } else {
        var x := Expand(db, db.vtxos[ops[0]]).value;
        LevelProgress(db, ops[1..], Add(w, ops[0], x), next + NotIn(x.inputs, w.expanded + [ops[0]]), limit);
        assert ops[0] in Unexpanded(db, w) && ops[0] !in Unexpanded(db, Add(w, ops[0], x));
      }
    }
  }

  predicate NoneFound(db: Db, ops: seq<Outpoint>) {
    forall i :: 0 <= i < |ops| ==> ops[i] !in db.vtxos
  }

  datatype Walk = Walked(w: Progress, truncated: bool) | Failed(error: WalkError)

  lemma LevelShrinks(db: Db, ops: seq<Outpoint>, w: Progress, limit: Option<nat>)
    requires ops != []
    ensures var l := PlainLevel(db, ops, w, [], limit);
            l.Expanded? ==>
              || |Unexpanded(db, l.w)| < |Unexpanded(db, w)|
              || (Unexpanded(db, l.w) == Unexpanded(db, w) && l.next == [])
  {
    var l := PlainLevel(db, ops, w, [], limit);
    if l.Expanded? {
      LevelProgress(db, ops, w, [], limit);
      Smaller(Unexpanded(db, l.w), Unexpanded(db, w));
    }
  }

  lemma Smaller(a: set<Outpoint>, b: set<Outpoint>)
    requires a <= b
    ensures |a| <= |b| && (a != b ==> |a| < |b|)
  {
    assert b == a + (b - a);
  }

  ghost function PlainWalk(db: Db, frontier: seq<Outpoint>, w: Progress, limit: Option<nat>): Walk
    decreases |Unexpanded(db, w)|, |frontier|
  {
    if frontier == [] then Walked(w, false)
    else if NoneFound(db, frontier) then Failed(VtxoNotFound(frontier))
    else
      LevelShrinks(db, frontier, w, limit);
      match PlainLevel(db, frontier, w, [], limit)
      case Expanded(w', next) => PlainWalk(db, next, w', limit)
      case Stopped(w') => Walked(w', true)
      case Broken(e) => Failed(e)
  }
}
