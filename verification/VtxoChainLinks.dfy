/** What a walk lists: which txs each vtxo adds to the chain, what each of them spends, and the outpoints seen. */
module VtxoChainLinks {
  import opened Outpoints
  import opened VtxoChain
  import opened VtxoChainTheorems

  // What one vtxo adds.

  /** The ark tx of an offchain tx, followed by its checkpoints in their order. */
  ghost predicate DescribesTx(v: Vtxo, checkpoints: seq<Option<Checkpoint>>, part: seq<ChainTx>) {
    && |part| == |checkpoints| + 1
    && part[0].txid == v.outpoint.txid && part[0].kind == ArkTx && |part[0].spends| == |checkpoints|
    && (forall i :: 0 <= i < |checkpoints| ==>
          && checkpoints[i].Some? && part[0].spends[i] == SpendsTx(part[i + 1].txid)
          && part[i + 1].txid == checkpoints[i].value.txid && part[i + 1].kind == CheckpointTx
          && part[i + 1].spends == [SpendsOutpoint(checkpoints[i].value.input)])
  }

  /** The branch from the leaf to the root, followed by the commitment tx: each tx spends the next one. */
  ghost predicate DescribesBranch(v: Vtxo, path: seq<Txid>, part: seq<ChainTx>) {
    && |part| == |path| + 1
    && (forall i :: 0 <= i < |path| ==>
          && part[i].txid == path[|path| - 1 - i] && part[i].kind == TreeTx
          && part[i].spends == [SpendsTx(part[i + 1].txid)])
    && part[|path|].txid == v.rootCommitment && part[|path|].kind == CommitmentTx && part[|path|].spends == []
  }

  ghost predicate Describes(db: Db, v: Vtxo, part: seq<ChainTx>) {
    && (forall i :: 0 <= i < |part| ==> part[i].expiresAt == v.expiresAt)
    && if v.preconfirmed
       then v.outpoint.txid in db.txs && DescribesTx(v, db.txs[v.outpoint.txid].checkpoints, part)
       else
         && (v.rootCommitment, v.outpoint.txid) in db.branches
         && DescribesBranch(v, db.branches[(v.rootCommitment, v.outpoint.txid)], part)
  }

  lemma {:induction false} CheckpointsListed(checkpoints: seq<Option<Checkpoint>>, expiresAt: int)
    requires ExpandCheckpoints(checkpoints, expiresAt).Ok?
    ensures var x := ExpandCheckpoints(checkpoints, expiresAt).value;
            && |x.chain| == |checkpoints| == |x.outpoints|
            && (forall i :: 0 <= i < |checkpoints| ==>
                  && checkpoints[i].Some?
                  && x.chain[i] == ChainTx(checkpoints[i].value.txid, expiresAt, CheckpointTx, [SpendsOutpoint(checkpoints[i].value.input)])
                  && x.outpoints[i] == Outpoint(x.chain[i].txid, 0))
  {
    if checkpoints != [] {
      CheckpointsListed(checkpoints[..|checkpoints| - 1], expiresAt);
    }
  }

  lemma TxDescribed(v: Vtxo, tx: OffchainTx)
    requires ExpandArkTx(v, tx).Ok?
    ensures var part := ExpandArkTx(v, tx).value.chain;
            DescribesTx(v, tx.checkpoints, part) && forall i :: 0 <= i < |part| ==> part[i].expiresAt == v.expiresAt
  {
    hide ExpandCheckpoints;
    CheckpointsListed(tx.checkpoints, v.expiresAt);
  }

  /** All checkpoints decode. */
  ghost predicate Readable(tx: OffchainTx) {
    forall c :: c in tx.checkpoints ==> c.Some?
  }

  lemma ArkTxExpands(v: Vtxo, tx: OffchainTx)
    ensures ExpandArkTx(v, tx).Ok? <==> Readable(tx)
    ensures ExpandArkTx(v, tx).Ok? ==> DescribesTx(v, tx.checkpoints, ExpandArkTx(v, tx).value.chain)
  {
    CheckpointInputsMean(tx.checkpoints, v.expiresAt, v.outpoint);
    if ExpandArkTx(v, tx).Ok? {
      TxDescribed(v, tx);
    }
  }

  lemma BranchDescribed(v: Vtxo, path: seq<Txid>)
    ensures var part := ExpandBranch(v, path).chain;
            DescribesBranch(v, path, part) && forall i :: 0 <= i < |part| ==> part[i].expiresAt == v.expiresAt
  {
  }

  lemma ExpandDescribes(db: Db, v: Vtxo)
    requires Expand(db, v).Ok?
    ensures Describes(db, v, Expand(db, v).value.chain)
  {
    hide ExpandArkTx, ExpandBranch, DescribesTx, DescribesBranch;
    if v.preconfirmed {
      TxDescribed(v, db.txs[v.outpoint.txid]);
    } else {
      BranchDescribed(v, db.branches[(v.rootCommitment, v.outpoint.txid)]);
    }
  }

  /** A vtxo can be expanded exactly if what made it is stored: its offchain tx with readable checkpoints, or its branch. */
  lemma ExpandsExactly(db: Db, v: Vtxo)
    ensures Expand(db, v).Ok? <==>
              if v.preconfirmed
              then v.outpoint.txid in db.txs && forall c :: c in db.txs[v.outpoint.txid].checkpoints ==> c.Some?
              else (v.rootCommitment, v.outpoint.txid) in db.branches
  {
    if v.preconfirmed && v.outpoint.txid in db.txs {
      CheckpointInputsMean(db.txs[v.outpoint.txid].checkpoints, v.expiresAt, v.outpoint);
    }
  }

  /** Output 0 of a checkpoint or a tree tx. */
  ghost predicate OutputOf(chain: seq<ChainTx>, op: Outpoint) {
    exists k :: 0 <= k < |chain| && (chain[k].kind == CheckpointTx || chain[k].kind == TreeTx) && op == Outpoint(chain[k].txid, 0)
  }

  lemma OutputOfConcat(a: seq<ChainTx>, b: seq<ChainTx>, op: Outpoint)
    ensures OutputOf(a + b, op) <==> OutputOf(a, op) || OutputOf(b, op)
  {
    var all := a + b;
    if OutputOf(a, op) {
      var k :| 0 <= k < |a| && (a[k].kind == CheckpointTx || a[k].kind == TreeTx) && op == Outpoint(a[k].txid, 0);
      assert all[k] == a[k];
    }
    if OutputOf(b, op) {
      var k :| 0 <= k < |b| && (b[k].kind == CheckpointTx || b[k].kind == TreeTx) && op == Outpoint(b[k].txid, 0);
      assert all[|a| + k] == b[k];
    }
  }

  lemma ExpandOutpoints(db: Db, v: Vtxo)
    requires Expand(db, v).Ok?
    ensures var x := Expand(db, v).value;
            forall op :: op in x.outpoints <==> op == v.outpoint || OutputOf(x.chain, op)
  {
    if v.preconfirmed {
      TxOutpoints(v, db.txs[v.outpoint.txid]);
    } else {
      BranchOutpoints(v, db.branches[(v.rootCommitment, v.outpoint.txid)]);
    }
  }

  lemma TxOutpoints(v: Vtxo, tx: OffchainTx)
    requires ExpandArkTx(v, tx).Ok?
    ensures var x := ExpandArkTx(v, tx).value;
            forall op :: op in x.outpoints <==> op == v.outpoint || OutputOf(x.chain, op)
  {
    hide ExpandCheckpoints;
    CheckpointsListed(tx.checkpoints, v.expiresAt);
    var x, c := ExpandArkTx(v, tx).value, ExpandCheckpoints(tx.checkpoints, v.expiresAt).value;
    forall k | 0 < k < |x.chain| ensures x.outpoints[k] == Outpoint(x.chain[k].txid, 0) && x.chain[k].kind == CheckpointTx {
      assert x.outpoints[k] == c.outpoints[k - 1] && x.chain[k] == c.chain[k - 1];
    }
    assert |x.outpoints| == |x.chain| && x.outpoints[0] == v.outpoint && x.chain[0].kind == ArkTx;
  }

  lemma BranchOutpoints(v: Vtxo, path: seq<Txid>)
    ensures var x := ExpandBranch(v, path);
            forall op :: op in x.outpoints <==> op == v.outpoint || OutputOf(x.chain, op)
  {
    var x, n := ExpandBranch(v, path), |path|;
    assert x.chain[n].kind == CommitmentTx && x.outpoints[0] == v.outpoint;
    forall k | 0 < k <= n ensures OutputOf(x.chain, x.outpoints[k]) {
      assert x.chain[n - k].kind == TreeTx && x.outpoints[k] == Outpoint(x.chain[n - k].txid, 0);
    }
    forall k | 0 <= k < n ensures Outpoint(x.chain[k].txid, 0) in x.outpoints {
      assert x.outpoints[n - k] == Outpoint(x.chain[k].txid, 0);
    }
  }

  /** What it leads to: the inputs of the checkpoints of its offchain tx, if all of them decode. */
  lemma InputsMean(db: Db, op: Outpoint, input: Outpoint)
    ensures input in Inputs(db, op) <==>
              && op in db.vtxos && db.vtxos[op].preconfirmed && db.vtxos[op].outpoint.txid in db.txs
              && (forall c :: c in db.txs[db.vtxos[op].outpoint.txid].checkpoints ==> c.Some?)
              && exists c :: c in db.txs[db.vtxos[op].outpoint.txid].checkpoints && c.Some?
                    && (input == c.value.input || input in c.value.others)
  {
    if op in db.vtxos && db.vtxos[op].preconfirmed && db.vtxos[op].outpoint.txid in db.txs {
      CheckpointInputsMean(db.txs[db.vtxos[op].outpoint.txid].checkpoints, db.vtxos[op].expiresAt, input);
    }
  }

  lemma {:induction false} CheckpointInputsMean(checkpoints: seq<Option<Checkpoint>>, expiresAt: int, input: Outpoint)
    ensures var x := ExpandCheckpoints(checkpoints, expiresAt);
            && (x.Ok? <==> forall c :: c in checkpoints ==> c.Some?)
            && (x.Ok? ==> (input in x.value.inputs <==>
                             exists c :: c in checkpoints && c.Some? && (input == c.value.input || input in c.value.others)))
  {
    if checkpoints != [] {
      var n := |checkpoints| - 1;
      CheckpointInputsMean(checkpoints[..n], expiresAt, input);
      assert checkpoints == checkpoints[..n] + [checkpoints[n]];
    }
  }

  // The parts of a chain.

  /** at holds where in the chain the part of each expanded vtxo begins, and where the last one ends. */
  ghost predicate Parts(db: Db, w: Progress, at: seq<nat>) {
    && |at| == |w.expanded| + 1 && at[0] == 0 && at[|w.expanded|] == |w.chain|
    && (forall j :: 0 <= j < |w.expanded| ==> PartAt(db, w, at, j))
  }

  ghost predicate PartAt(db: Db, w: Progress, at: seq<nat>, j: nat)
    requires j < |w.expanded| && |at| == |w.expanded| + 1
  {
    && w.expanded[j] in db.vtxos && at[j] < at[j + 1] <= |w.chain|
    && Describes(db, db.vtxos[w.expanded[j]], w.chain[at[j]..at[j + 1]])
  }

  ghost predicate Below(at: seq<nat>, limit: Option<nat>) {
    limit.Some? ==> forall j :: 0 <= j < |at| - 1 ==> at[j] < limit.value
  }

  lemma PartMore(db: Db, w: Progress, at: seq<nat>, op: Outpoint)
    requires Parts(db, w, at) && op in db.vtxos && Expand(db, db.vtxos[op]).Ok?
    ensures var w' := Add(w, op, Expand(db, db.vtxos[op]).value); Parts(db, w', at + [|w'.chain|])
  {
    hide Describes, Expand;
    var x := Expand(db, db.vtxos[op]).value;
    var w' := Add(w, op, x);
    var at' := at + [|w'.chain|];
    ExpandDescribes(db, db.vtxos[op]);
    ExpandsToSomething(db, db.vtxos[op]);
    forall j | 0 <= j < |w'.expanded| ensures PartAt(db, w', at', j) {
      if j < |w.expanded| {
        assert PartAt(db, w, at, j);
        assert w'.chain[at[j]..at[j + 1]] == w.chain[at[j]..at[j + 1]];
      } else {
        assert w'.chain[|w.chain|..|w'.chain|] == x.chain;
      }
    }
  }

  lemma {:induction false} LevelParts(
    db: Db, ops: seq<Outpoint>, w: Progress, next: seq<Outpoint>, limit: Option<nat>, at: seq<nat>) returns (at': seq<nat>)
    requires Parts(db, w, at) && Below(at, limit) && !PlainLevel(db, ops, w, next, limit).Broken?
    ensures var l := PlainLevel(db, ops, w, next, limit);
            Parts(db, l.w, at') && Below(at', limit) && (l.Stopped? ==> limit.Some? && |l.w.chain| >= limit.value)
    decreases |ops|
  {
    hide Expand, PartAt, NotIn;
    if ops == [] || (ops[0] in db.vtxos && ops[0] !in w.expanded && Reached(limit, w)) {
      return at;
    }
    if ops[0] !in db.vtxos || ops[0] in w.expanded {
      at' := LevelParts(db, ops[1..], w, next, limit, at);
    } else {
      var x := Expand(db, db.vtxos[ops[0]]).value;
      PartMore(db, w, at, ops[0]);
      at' := LevelParts(db, ops[1..], Add(w, ops[0], x), next + NotIn(x.inputs, w.expanded + [ops[0]]), limit,
                        at + [|Add(w, ops[0], x).chain|]);
    }
  }

  lemma {:induction false} WalkParts(db: Db, frontier: seq<Outpoint>, w: Progress, limit: Option<nat>, at: seq<nat>)
    returns (at': seq<nat>)
    requires Parts(db, w, at) && Below(at, limit) && PlainWalk(db, frontier, w, limit).Walked?
    ensures var walk := PlainWalk(db, frontier, w, limit);
            Parts(db, walk.w, at') && Below(at', limit) && (walk.truncated ==> limit.Some? && |walk.w.chain| >= limit.value)
    decreases |Unexpanded(db, w)|, |frontier|
  {
    hide PlainLevel, Parts, Below;
    if frontier == [] {
      return at;
    }
    LevelShrinks(db, frontier, w, limit);
    at' := LevelParts(db, frontier, w, [], limit, at);
    var l := PlainLevel(db, frontier, w, [], limit);
    if l.Expanded? {
      at' := WalkParts(db, l.next, l.w, limit, at');
    }
  }

  /**
   The chain of every walk that succeeds is made of one part for each vtxo expanded, in that order. A
   preconfirmed vtxo lists its ark tx, which spends its checkpoints, and these, each with the first input
   it spends; a leaf lists its branch up to the commitment tx, each tx spending the next one. A walk with a
   limit begins no part once that many txs are listed.
   */
  lemma ChainInParts(db: Db, starts: seq<Outpoint>, limit: Option<nat>) returns (at: seq<nat>)
    requires PlainWalk(db, starts, Start, limit).Walked?
    ensures var walk := PlainWalk(db, starts, Start, limit);
            && Parts(db, walk.w, at)
            && (limit.Some? ==> forall j :: 0 <= j < |at| - 1 ==> at[j] < limit.value)
            && (walk.truncated ==> limit.Some? && |walk.w.chain| >= limit.value)
  {
    hide PlainWalk, Parts;
    assert Parts(db, Start, [0]) by { NoParts(db); }
    at := WalkParts(db, starts, Start, limit, [0]);
  }

  lemma NoParts(db: Db)
    ensures Parts(db, Start, [0])
  {
  }

  // Position by position.

  /** The k-th tx of a chain and its neighbours. */
  ghost predicate LinkedAt(chain: seq<ChainTx>, k: nat)
    requires k < |chain|
  {
    match chain[k].kind
    case TreeTx =>
      && k + 1 < |chain| && chain[k].spends == [SpendsTx(chain[k + 1].txid)]
      && (chain[k + 1].kind == TreeTx || chain[k + 1].kind == CommitmentTx)
    case CommitmentTx => chain[k].spends == []
    case ArkTx =>
      var n := |chain[k].spends|;
      && k + n < |chain|
      && (forall i :: k < i <= k + n ==> chain[i].kind == CheckpointTx && chain[k].spends[i - k - 1] == SpendsTx(chain[i].txid))
      && (k + n + 1 < |chain| ==> chain[k + n + 1].kind != CheckpointTx)
    case CheckpointTx =>
      && k > 0 && (chain[k - 1].kind == ArkTx || chain[k - 1].kind == CheckpointTx)
      && |chain[k].spends| == 1 && chain[k].spends[0].SpendsOutpoint?
  }

  /** Every tx is linked to its neighbours, and the first one is no checkpoint. */
  ghost predicate Linked(chain: seq<ChainTx>) {
    && (chain != [] ==> chain[0].kind != CheckpointTx)
    && forall k :: 0 <= k < |chain| ==> LinkedAt(chain, k)
  }

  lemma LinkedConcat(a: seq<ChainTx>, b: seq<ChainTx>)
    requires Linked(a) && Linked(b)
    ensures Linked(a + b)
  {
    var all := a + b;
    forall k | 0 <= k < |all| ensures LinkedAt(all, k) {
      if k < |a| {
        assert LinkedAt(a, k);
        assert forall i :: 0 <= i < |a| ==> all[i] == a[i];
        assert b != [] ==> all[|a|] == b[0];
      } else {
        assert LinkedAt(b, k - |a|);
        assert forall i :: |a| <= i < |all| ==> all[i] == b[i - |a|];
      }
    }
  }

  lemma PartLinked(db: Db, v: Vtxo, part: seq<ChainTx>)
    requires Describes(db, v, part)
    ensures Linked(part)
  {
    if v.preconfirmed {
      TxLinked(v, db.txs[v.outpoint.txid].checkpoints, part);
    } else {
      BranchLinked(v, db.branches[(v.rootCommitment, v.outpoint.txid)], part);
    }
  }

  lemma TxLinked(v: Vtxo, checkpoints: seq<Option<Checkpoint>>, part: seq<ChainTx>)
    requires DescribesTx(v, checkpoints, part)
    ensures Linked(part)
  {
    forall k | 0 < k < |part|
      ensures part[k].kind == CheckpointTx && |part[k].spends| == 1 && part[k].spends[0].SpendsOutpoint?
      ensures part[0].spends[k - 1] == SpendsTx(part[k].txid)
    {
      var i := k - 1;
      assert checkpoints[i].Some? && part[i + 1] == part[k];
    }
    assert forall k :: 0 < k < |part| ==> LinkedAt(part, k);
    assert LinkedAt(part, 0);
  }

  lemma BranchLinked(v: Vtxo, path: seq<Txid>, part: seq<ChainTx>)
    requires DescribesBranch(v, path, part)
    ensures Linked(part)
  {
    forall k | 0 <= k < |part| ensures LinkedAt(part, k) {
      if k < |path| {
        assert part[k].kind == TreeTx && part[k].txid == path[|path| - 1 - k];
        assert k + 1 < |path| ==> part[k + 1].txid == path[|path| - 1 - (k + 1)];
      }
    }
  }

  /** What the walk has listed and seen so far. */
  ghost predicate Seen(w: Progress) {
    Linked(w.chain) && forall op :: op in w.outpoints <==> op in w.expanded || OutputOf(w.chain, op)
  }

  lemma SeenMore(db: Db, w: Progress, op: Outpoint)
    requires Keyed(db) && Seen(w) && op in db.vtxos && Expand(db, db.vtxos[op]).Ok?
    ensures Seen(Add(w, op, Expand(db, db.vtxos[op]).value))
  {
    hide Expand, Linked, Describes, OutputOf;
    var x := Expand(db, db.vtxos[op]).value;
    ExpandDescribes(db, db.vtxos[op]);
    PartLinked(db, db.vtxos[op], x.chain);
    LinkedConcat(w.chain, x.chain);
    ExpandOutpoints(db, db.vtxos[op]);
    forall o ensures OutputOf(w.chain + x.chain, o) <==> OutputOf(w.chain, o) || OutputOf(x.chain, o) {
      OutputOfConcat(w.chain, x.chain, o);
    }
  }

  lemma {:induction false} LevelSees(db: Db, ops: seq<Outpoint>, w: Progress, next: seq<Outpoint>, limit: Option<nat>)
    requires Keyed(db) && Seen(w)
    ensures var l := PlainLevel(db, ops, w, next, limit); !l.Broken? ==> Seen(l.w)
    decreases |ops|
  {
    hide Expand, Seen, NotIn, Keyed;
    if ops != [] {
      if ops[0] !in db.vtxos || ops[0] in w.expanded {
        LevelSees(db, ops[1..], w, next, limit);
      } else if !Reached(limit, w) && Expand(db, db.vtxos[ops[0]]).Ok? {
        var x := Expand(db, db.vtxos[ops[0]]).value;
        SeenMore(db, w, ops[0]);
        LevelSees(db, ops[1..], Add(w, ops[0], x), next + NotIn(x.inputs, w.expanded + [ops[0]]), limit);
      }
    }
  }

  lemma {:induction false} WalkSees(db: Db, frontier: seq<Outpoint>, w: Progress, limit: Option<nat>)
    requires Keyed(db) && Seen(w)
    ensures var walk := PlainWalk(db, frontier, w, limit); walk.Walked? ==> Seen(walk.w)
    decreases |Unexpanded(db, w)|, |frontier|
  {
    hide PlainLevel, Seen, Keyed;
    if frontier != [] && !NoneFound(db, frontier) {
      LevelShrinks(db, frontier, w, limit);
      LevelSees(db, frontier, w, [], limit);
      var l := PlainLevel(db, frontier, w, [], limit);
      if l.Expanded? {
        WalkSees(db, l.next, l.w, limit);
      }
    }
  }

  /**
   In the chain of every walk that succeeds, a tree tx is followed by the tree or commitment tx it spends, an
   ark tx by exactly the checkpoints it spends, and a checkpoint spends one outpoint. The outpoints are the
   vtxos expanded and output 0 of every checkpoint and tree tx listed.
   */
  lemma ChainLinked(db: Db, starts: seq<Outpoint>, limit: Option<nat>)
    requires Keyed(db) && PlainWalk(db, starts, Start, limit).Walked?
    ensures var w := PlainWalk(db, starts, Start, limit).w;
            && Linked(w.chain) && (forall k :: 0 <= k < |w.chain| ==> LinkedAt(w.chain, k))
            && (forall op :: op in w.outpoints <==>
                  || op in w.expanded
                  || exists k :: 0 <= k < |w.chain| && (w.chain[k].kind == CheckpointTx || w.chain[k].kind == TreeTx)
                       && op == Outpoint(w.chain[k].txid, 0))
  {
    hide PlainWalk, Keyed;
    assert Seen(Start);
    WalkSees(db, starts, Start, limit);
  }
}
