/**
 The checkpoints of an offchain tx are kept in a map and visited in any order. What a walk then depends
 on, and what it does not.
 */
module VtxoChainReorder {
  import opened Outpoints
  import opened VtxoChain
  import opened VtxoChainTheorems
  import opened VtxoChainAgree
  import opened VtxoChainPaging

  /** The same rows, each offchain tx with the same checkpoints in some order. */
  ghost predicate SameUpToOrder(db: Db, db': Db) {
    && db'.vtxos == db.vtxos && db'.branches == db.branches && db'.markers == db.markers
    && db'.txs.Keys == db.txs.Keys
    && (forall txid :: txid in db.txs ==> multiset(db'.txs[txid].checkpoints) == multiset(db.txs[txid].checkpoints))
  }

  /** All checkpoints are the same one, so there is only one order. */
  ghost predicate OneOrder(checkpoints: seq<Option<Checkpoint>>) {
    forall i, j :: 0 <= i < j < |checkpoints| ==> checkpoints[i] == checkpoints[j]
  }

  /** The offchain tx that made the vtxo, if any, has no two different checkpoints. */
  ghost predicate OneOrderAt(db: Db, op: Outpoint) {
    op in db.vtxos && db.vtxos[op].preconfirmed && db.vtxos[op].outpoint.txid in db.txs ==>
      OneOrder(db.txs[db.vtxos[op].outpoint.txid].checkpoints)
  }

  ghost predicate NoChoice(db: Db, op: Outpoint) {
    forall a :: Reachable(db, [op], a) ==> OneOrderAt(db, a)
  }

  /** A txid commits to the inputs of a checkpoint. */
  ghost predicate TxidsCommit(db: Db) {
    forall txid :: txid in db.txs ==> CheckpointsCommit(db.txs[txid].checkpoints)
  }

  ghost predicate CheckpointsCommit(checkpoints: seq<Option<Checkpoint>>) {
    forall a, b :: a in checkpoints && b in checkpoints && a.Some? && b.Some? && a.value.txid == b.value.txid ==> a == b
  }

  // Without a choice every order gives the same walk.

  lemma OneOrderOnly(a: seq<Option<Checkpoint>>, b: seq<Option<Checkpoint>>)
    requires OneOrder(a) && multiset(a) == multiset(b)
    ensures a == b
  {
    assert |multiset(a)| == |a| && |multiset(b)| == |b|;
    forall i | 0 <= i < |b| ensures b[i] == a[i] {
      assert b[i] in multiset(b) && b[i] in a;
    }
  }

  lemma NoChoiceAgrees(db: Db, db': Db, op: Outpoint)
    requires SameUpToOrder(db, db') && OneOrderAt(db, op)
    ensures AgreeAt(db, db', op)
  {
    hide ExpandArkTx, ExpandBranch, OneOrder;
    if op in db.vtxos && db.vtxos[op].preconfirmed && db.vtxos[op].outpoint.txid in db.txs {
      var txid := db.vtxos[op].outpoint.txid;
      OneOrderOnly(db.txs[txid].checkpoints, db'.txs[txid].checkpoints);
    }
  }

  /** Then chain and pages are the same for every order, errors included. */
  lemma SameWithoutChoice(db: Db, db': Db, op: Outpoint)
    requires SameUpToOrder(db, db') && NoChoice(db, op)
    ensures FullChain(db', op) == FullChain(db, op)
    ensures forall offset, size :: TokenPage(db', op, offset, size) == TokenPage(db, op, offset, size)
  {
    hide Reachable, OneOrderAt, AgreeAt, SameUpToOrder, PlainWalk;
    forall a | Reachable(db, [op], a) ensures AgreeAt(db, db', a) {
      NoChoiceAgrees(db, db', a);
    }
    forall limit ensures PlainWalk(db, [op], Start, limit) == PlainWalk(db', [op], Start, limit) {
      WalkAgrees(db, db', [op], limit);
    }
  }

  // With a choice some order gives another chain.

  /** The chains differ somewhere within both. */
  ghost predicate Parted(c: seq<ChainTx>, c': seq<ChainTx>) {
    exists k :: 0 <= k < |c| && k < |c'| && c[k] != c'[k]
  }

  lemma PartedExtends(c: seq<ChainTx>, c': seq<ChainTx>, d: seq<ChainTx>, d': seq<ChainTx>)
    requires Parted(c, c') && c <= d && c' <= d'
    ensures Parted(d, d')
  {
    var k :| 0 <= k < |c| && k < |c'| && c[k] != c'[k];
    assert d[k] == c[k] && d'[k] == c'[k];
  }

  /** The vtxo expands to something else from the first tx on. */
  ghost predicate DiffersAt(db: Db, db': Db, op: Outpoint) {
    && op in db.vtxos && Expand(db, db.vtxos[op]).Ok? && Expand(db', db.vtxos[op]).Ok?
    && var c, c' := Expand(db, db.vtxos[op]).value.chain, Expand(db', db.vtxos[op]).value.chain;
    && c != [] && c' != [] && c[0] != c'[0]
  }

  ghost predicate AgreeOrDiffer(db: Db, db': Db) {
    && db'.vtxos == db.vtxos
    && (forall op :: op in db.vtxos ==> AgreeAt(db, db', op) || DiffersAt(db, db', op))
  }

  /** Nothing that was expanded since w expands differently in the two. */
  ghost predicate SameSince(db: Db, db': Db, w: Progress, ops: seq<Outpoint>) {
    forall op :: op in ops && op !in w.expanded ==> !DiffersAt(db, db', op)
  }

  lemma {:induction false} LevelParts(db: Db, db': Db, ops: seq<Outpoint>, w: Progress, next: seq<Outpoint>)
    requires AgreeOrDiffer(db, db')
    ensures var l, l' := PlainLevel(db, ops, w, next, None), PlainLevel(db', ops, w, next, None);
            || (l == l' && (l.Expanded? ==> SameSince(db, db', w, l.w.expanded)))
            || (l.Expanded? && l'.Expanded? ==> Parted(l.w.chain, l'.w.chain))
    decreases |ops|
  {
    hide Expand, Parted;
    if ops != [] {
      var op := ops[0];
      if op !in db.vtxos || op in w.expanded {
        LevelParts(db, db', ops[1..], w, next);
      } else if DiffersAt(db, db', op) {
        PartsHere(db, db', op, ops[1..], w, next);
      } else if Expand(db, db.vtxos[op]).Ok? {
        assert AgreeAt(db, db', op);
        var x := Expand(db, db.vtxos[op]).value;
        LevelParts(db, db', ops[1..], Add(w, op, x), next + NotIn(x.inputs, w.expanded + [op]));
      } else {
        assert AgreeAt(db, db', op);
      }
    }
  }

  lemma PartsHere(db: Db, db': Db, op: Outpoint, rest: seq<Outpoint>, w: Progress, next: seq<Outpoint>)
    requires DiffersAt(db, db', op)
    ensures var x, x' := Expand(db, db.vtxos[op]).value, Expand(db', db.vtxos[op]).value;
            var l := PlainLevel(db, rest, Add(w, op, x), next + NotIn(x.inputs, w.expanded + [op]), None);
            var l' := PlainLevel(db', rest, Add(w, op, x'), next + NotIn(x'.inputs, w.expanded + [op]), None);
            l.Expanded? && l'.Expanded? ==> Parted(l.w.chain, l'.w.chain)
  {
    hide Expand, PlainLevel, NotIn;
    var x, x' := Expand(db, db.vtxos[op]).value, Expand(db', db.vtxos[op]).value;
    var c, c' := w.chain + x.chain, w.chain + x'.chain;
    assert c[|w.chain|] == x.chain[0] && c'[|w.chain|] == x'.chain[0];
    assert Parted(c, c');
    LevelExtends(db, rest, Add(w, op, x), next + NotIn(x.inputs, w.expanded + [op]), None);
    LevelExtends(db', rest, Add(w, op, x'), next + NotIn(x'.inputs, w.expanded + [op]), None);
    var l := PlainLevel(db, rest, Add(w, op, x), next + NotIn(x.inputs, w.expanded + [op]), None);
    var l' := PlainLevel(db', rest, Add(w, op, x'), next + NotIn(x'.inputs, w.expanded + [op]), None);
    if l.Expanded? && l'.Expanded? {
      PartedExtends(c, c', l.w.chain, l'.w.chain);
    }
  }

  lemma {:induction false} WalkParts(db: Db, db': Db, frontier: seq<Outpoint>, w: Progress)
    requires AgreeOrDiffer(db, db')
    ensures var walk, walk' := PlainWalk(db, frontier, w, None), PlainWalk(db', frontier, w, None);
            walk.Walked? && walk'.Walked? ==>
              || Parted(walk.w.chain, walk'.w.chain)
              || (walk == walk' && SameSince(db, db', w, walk.w.expanded))
    decreases |Unexpanded(db, w)|, |frontier|
  {
    hide PlainLevel, DiffersAt, AgreeAt, Parted;
    if frontier != [] && !NoneFound(db, frontier) {
      LevelShrinks(db, frontier, w, None);
      LevelShrinks(db', frontier, w, None);
      LevelParts(db, db', frontier, w, []);
      var l, l' := PlainLevel(db, frontier, w, [], None), PlainLevel(db', frontier, w, [], None);
      LevelPrefix(db, frontier, w, [], 0);
      LevelPrefix(db', frontier, w, [], 0);
      if l.Expanded? && l'.Expanded? {
        if l == l' && SameSince(db, db', w, l.w.expanded) {
          WalkParts(db, db', l.next, l.w);
        } else {
          WalkExtends(db, l.next, l.w, None);
          WalkExtends(db', l'.next, l'.w, None);
          var walk, walk' := PlainWalk(db, frontier, w, None), PlainWalk(db', frontier, w, None);
          if walk.Walked? && walk'.Walked? {
            PartedExtends(l.w.chain, l'.w.chain, walk.w.chain, walk'.w.chain);
          }
        }
      }
    }
  }

  /** A tx expands exactly if all its checkpoints decode, and then it spends them in their order. */
  lemma {:induction false} CheckpointChain(checkpoints: seq<Option<Checkpoint>>, expiresAt: int)
    ensures var x := ExpandCheckpoints(checkpoints, expiresAt);
            if forall c :: c in checkpoints ==> c.Some?
            then && x.Ok? && |x.value.chain| == |checkpoints|
                 && forall k :: 0 <= k < |checkpoints| ==> x.value.chain[k].txid == checkpoints[k].value.txid
            else x == Err(BadCheckpoint)
  {
    if checkpoints != [] {
      var n := |checkpoints| - 1;
      CheckpointChain(checkpoints[..n], expiresAt);
      assert checkpoints == checkpoints[..n] + [checkpoints[n]] && checkpoints[n] in checkpoints;
      assert forall c :: c in checkpoints[..n] ==> c in checkpoints;
    }
  }

  /** Two checkpoints of one tx change places. */
  function SwapAt(checkpoints: seq<Option<Checkpoint>>, i: nat, j: nat): seq<Option<Checkpoint>>
    requires i < |checkpoints| && j < |checkpoints|
  {
    checkpoints[i := checkpoints[j]][j := checkpoints[i]]
  }

  function Swapped(db: Db, txid: Txid, i: nat, j: nat): Db
    requires txid in db.txs && i < |db.txs[txid].checkpoints| && j < |db.txs[txid].checkpoints|
  {
    db.(txs := db.txs[txid := OffchainTx(SwapAt(db.txs[txid].checkpoints, i, j))])
  }

  lemma SwapSame(checkpoints: seq<Option<Checkpoint>>, i: nat, j: nat)
    requires i < |checkpoints| && j < |checkpoints|
    ensures multiset(SwapAt(checkpoints, i, j)) == multiset(checkpoints)
    ensures forall c :: c in SwapAt(checkpoints, i, j) <==> c in checkpoints
  {
    var swapped := SwapAt(checkpoints, i, j);
    assert forall c :: c in swapped <==> c in multiset(swapped);
    assert forall c :: c in checkpoints <==> c in multiset(checkpoints);
  }

  lemma SwapReorders(db: Db, txid: Txid, i: nat, j: nat)
    requires txid in db.txs && i < |db.txs[txid].checkpoints| && j < |db.txs[txid].checkpoints|
    ensures SameUpToOrder(db, Swapped(db, txid, i, j))
  {
    SwapSame(db.txs[txid].checkpoints, i, j);
  }

  lemma SwapDiffers(v: Vtxo, tx: OffchainTx, i: nat, j: nat)
    requires i < |tx.checkpoints| && j < |tx.checkpoints| && tx.checkpoints[i] != tx.checkpoints[j]
    requires CheckpointsCommit(tx.checkpoints)
    ensures var x, x' := ExpandArkTx(v, tx), ExpandArkTx(v, OffchainTx(SwapAt(tx.checkpoints, i, j)));
            if x.Ok? then x'.Ok? && x.value.chain != [] && x'.value.chain != [] && x.value.chain[0] != x'.value.chain[0]
            else x' == x
  {
    hide ExpandCheckpoints;
    var swapped := SwapAt(tx.checkpoints, i, j);
    SwapSame(tx.checkpoints, i, j);
    CheckpointChain(tx.checkpoints, v.expiresAt);
    CheckpointChain(swapped, v.expiresAt);
    var x, x' := ExpandArkTx(v, tx), ExpandArkTx(v, OffchainTx(swapped));
    if x.Ok? {
      assert tx.checkpoints[i] in tx.checkpoints && tx.checkpoints[j] in tx.checkpoints;
      assert x.value.chain[0].spends[i] == SpendsTx(tx.checkpoints[i].value.txid);
      assert x'.value.chain[0].spends[i] == SpendsTx(swapped[i].value.txid) && swapped[i] == tx.checkpoints[j];
    }
  }

  lemma SwapAgreesOrDiffers(db: Db, txid: Txid, i: nat, j: nat)
    requires txid in db.txs && i < |db.txs[txid].checkpoints| && j < |db.txs[txid].checkpoints|
    requires db.txs[txid].checkpoints[i] != db.txs[txid].checkpoints[j] && TxidsCommit(db)
    ensures AgreeOrDiffer(db, Swapped(db, txid, i, j))
    ensures forall op ::
              op in db.vtxos && db.vtxos[op].preconfirmed && db.vtxos[op].outpoint.txid == txid && Expand(db, db.vtxos[op]).Ok?
              ==> DiffersAt(db, Swapped(db, txid, i, j), op)
  {
    hide ExpandArkTx, ExpandBranch, CheckpointsCommit;
    var db' := Swapped(db, txid, i, j);
    forall op | op in db.vtxos
      ensures AgreeAt(db, db', op) || DiffersAt(db, db', op)
      ensures db.vtxos[op].preconfirmed && db.vtxos[op].outpoint.txid == txid && Expand(db, db.vtxos[op]).Ok? ==>
                DiffersAt(db, db', op)
    {
      SwapDiffers(db.vtxos[op], db.txs[txid], i, j);
    }
  }

  /** If a reachable tx has two different checkpoints, swapping them gives another chain or an error. */
  lemma ChoiceParts(db: Db, op: Outpoint) returns (db': Db)
    requires FullChain(db, op).Ok? && TxidsCommit(db) && !NoChoice(db, op)
    ensures SameUpToOrder(db, db') && FullChain(db', op) != FullChain(db, op)
  {
    hide Reachable, PlainWalk, Expand, TxidsCommit, AgreeOrDiffer, SameUpToOrder;
    var a :| Reachable(db, [op], a) && !OneOrderAt(db, a);
    var txid := db.vtxos[a].outpoint.txid;
    var checkpoints := db.txs[txid].checkpoints;
    var i, j :| 0 <= i < j < |checkpoints| && checkpoints[i] != checkpoints[j];
    db' := Swapped(db, txid, i, j);
    SwapReorders(db, txid, i, j);
    SwapAgreesOrDiffers(db, txid, i, j);
    ReachableExpands(db, [op], a);
    WalkParts(db, db', [op], Start);
  }

  /**
   The exact condition: for a vtxo whose chain can be walked, the chain is the same in every order exactly
   if no offchain tx above it has two different checkpoints.
   */
  lemma SameInEveryOrder(db: Db, op: Outpoint)
    requires FullChain(db, op).Ok? && TxidsCommit(db)
    ensures NoChoice(db, op) <==> forall db' :: SameUpToOrder(db, db') ==> FullChain(db', op) == FullChain(db, op)
  {
    hide FullChain, NoChoice, TxidsCommit, SameUpToOrder, TokenPage;
    if NoChoice(db, op) {
      forall db' | SameUpToOrder(db, db') ensures FullChain(db', op) == FullChain(db, op) {
        SameWithoutChoice(db, db', op);
      }
    } else {
      var db' := ChoiceParts(db, op);
    }
  }

  // What every order keeps.

  /** A chain tx without the order of what it spends. */
  datatype LooseTx = LooseTx(txid: Txid, expiresAt: int, kind: TxKind, spends: multiset<Spend>)

  function Loose(tx: ChainTx): LooseTx {
    LooseTx(tx.txid, tx.expiresAt, tx.kind, multiset(tx.spends))
  }

  function Bag(chain: seq<ChainTx>): multiset<LooseTx> {
    if chain == [] then multiset{} else Bag(chain[..|chain| - 1]) + multiset{Loose(chain[|chain| - 1])}
  }

  lemma Assoc<T>(a: multiset<T>, b: multiset<T>, c: multiset<T>)
    ensures (a + b) + c == a + (b + c)
  {
  }

  lemma {:induction false} BagConcat(a: seq<ChainTx>, b: seq<ChainTx>)
    ensures Bag(a + b) == Bag(a) + Bag(b)
    decreases |b|
  {
    hide Loose, Bag;
    if b == [] {
      assert a + b == a;
      BagNone();
    } else {
      var n := |b| - 1;
      BagConcat(a, b[..n]);
      BagSnoc(a + b[..n], b[n]);
      BagSnoc(b[..n], b[n]);
      assert (a + b[..n]) + [b[n]] == a + b && b[..n] + [b[n]] == b;
      Assoc(Bag(a), Bag(b[..n]), multiset{Loose(b[n])});
    }
  }

  lemma BagNone()
    ensures Bag([]) == multiset{}
  {
  }

  lemma BagSnoc(chain: seq<ChainTx>, tx: ChainTx)
    ensures Bag(chain + [tx]) == Bag(chain) + multiset{Loose(tx)}
  {
    assert (chain + [tx])[..|chain|] == chain;
  }

  lemma BagOne(tx: ChainTx)
    ensures Bag([tx]) == multiset{Loose(tx)}
  {
    assert [tx][..0] == [];
  }

  /** What expanding checkpoints gives, without any order. */
  datatype Contents = Contents(txs: multiset<LooseTx>, spends: multiset<Spend>, inputs: multiset<Outpoint>)

  function Plus(a: Contents, b: Contents): Contents {
    Contents(a.txs + b.txs, a.spends + b.spends, a.inputs + b.inputs)
  }

  function CheckpointContents(c: Checkpoint, expiresAt: int): Contents {
    Contents(multiset{LooseTx(c.txid, expiresAt, CheckpointTx, multiset{SpendsOutpoint(c.input)})},
             multiset{SpendsTx(c.txid)}, multiset(CheckpointInputs(c)))
  }

  function ExpansionContents(x: Expansion): Contents {
    Contents(Bag(x.chain), multiset(SpendsAll(x.chain)), multiset(x.inputs))
  }

  const NoContents := Contents(multiset{}, multiset{}, multiset{})

  /** The contents of checkpoints that all decode. */
  function AllContents(checkpoints: seq<Option<Checkpoint>>, expiresAt: int): Contents {
    if checkpoints == [] then NoContents
    else
      var n := |checkpoints| - 1;
      var before := AllContents(checkpoints[..n], expiresAt);
      if checkpoints[n].Some? then Plus(before, CheckpointContents(checkpoints[n].value, expiresAt)) else before
  }

  lemma {:induction false} ExpandedContents(checkpoints: seq<Option<Checkpoint>>, expiresAt: int)
    requires ExpandCheckpoints(checkpoints, expiresAt).Ok?
    ensures ExpansionContents(ExpandCheckpoints(checkpoints, expiresAt).value) == AllContents(checkpoints, expiresAt)
  {
    hide ExpansionContents, CheckpointContents, Plus;
    if checkpoints == [] {
      NothingExpanded();
    } else {
      var n := |checkpoints| - 1;
      ExpandedContents(checkpoints[..n], expiresAt);
      var x := ExpandCheckpoints(checkpoints[..n], expiresAt).value;
      ContentsMore(x, checkpoints[n].value, expiresAt, ExpandCheckpoints(checkpoints, expiresAt).value.outpoints);
    }
  }

  lemma NothingExpanded()
    ensures ExpansionContents(Expansion([], [], [])) == NoContents
  {
    assert SpendsAll([]) == [];
  }

  lemma ContentsMore(x: Expansion, c: Checkpoint, expiresAt: int, outpoints: seq<Outpoint>)
    ensures var tx := ChainTx(c.txid, expiresAt, CheckpointTx, [SpendsOutpoint(c.input)]);
            ExpansionContents(Expansion(x.chain + [tx], outpoints, x.inputs + CheckpointInputs(c)))
            == Plus(ExpansionContents(x), CheckpointContents(c, expiresAt))
  {
    hide Bag, CheckpointInputs;
    var tx := ChainTx(c.txid, expiresAt, CheckpointTx, [SpendsOutpoint(c.input)]);
    BagSnoc(x.chain, tx);
    assert SpendsAll(x.chain + [tx]) == SpendsAll(x.chain) + [SpendsTx(c.txid)];
  }

  /** Taking out one checkpoint takes out its contents. */
  lemma {:induction false} ContentsWithout(checkpoints: seq<Option<Checkpoint>>, expiresAt: int, i: nat)
    requires i < |checkpoints| && checkpoints[i].Some?
    ensures AllContents(checkpoints, expiresAt)
         == Plus(AllContents(checkpoints[..i] + checkpoints[i + 1..], expiresAt),
                 CheckpointContents(checkpoints[i].value, expiresAt))
    decreases |checkpoints|
  {
    hide CheckpointContents, Plus, AllContents;
    var n := |checkpoints| - 1;
    LastContents(checkpoints, expiresAt);
    if i == n {
      assert checkpoints[..i] + checkpoints[i + 1..] == checkpoints[..n];
    } else {
      ContentsWithout(checkpoints[..n], expiresAt, i);
      var rest := checkpoints[..i] + checkpoints[i + 1..];
      assert rest[..|rest| - 1] == checkpoints[..n][..i] + checkpoints[..n][i + 1..] && rest[|rest| - 1] == checkpoints[n];
      LastContents(rest, expiresAt);
      if checkpoints[n].Some? {
        PlusSwaps(AllContents(rest[..|rest| - 1], expiresAt), CheckpointContents(checkpoints[i].value, expiresAt),
                  CheckpointContents(checkpoints[n].value, expiresAt));
      }
    }
  }

  lemma LastContents(checkpoints: seq<Option<Checkpoint>>, expiresAt: int)
    requires checkpoints != []
    ensures var n := |checkpoints| - 1;
            AllContents(checkpoints, expiresAt)
            == if checkpoints[n].Some? then Plus(AllContents(checkpoints[..n], expiresAt), CheckpointContents(checkpoints[n].value, expiresAt))
               else AllContents(checkpoints[..n], expiresAt)
  {
  }

  lemma PlusSwaps(a: Contents, b: Contents, c: Contents)
    ensures Plus(Plus(a, b), c) == Plus(Plus(a, c), b)
  {
  }

  lemma {:induction false} SameContents(a: seq<Option<Checkpoint>>, b: seq<Option<Checkpoint>>, expiresAt: int)
    requires multiset(a) == multiset(b) && forall c :: c in a ==> c.Some?
    ensures AllContents(a, expiresAt) == AllContents(b, expiresAt)
    decreases |a|
  {
    hide CheckpointContents;
    if a == [] {
      assert |multiset(b)| == |b|;
    } else {
      var n := |a| - 1;
      var i := RestSame(a, b);
      assert a[n] in a && forall c :: c in a[..n] ==> c in a;
      SameContents(a[..n], b[..i] + b[i + 1..], expiresAt);
      ContentsWithout(b, expiresAt, i);
    }
  }

  lemma RestSame<T>(a: seq<T>, b: seq<T>) returns (i: nat)
    requires multiset(a) == multiset(b) && a != []
    ensures i < |b| && b[i] == a[|a| - 1] && multiset(a[..|a| - 1]) == multiset(b[..i] + b[i + 1..])
  {
    var n := |a| - 1;
    assert a == a[..n] + [a[n]];
    assert a[n] in multiset(b) && a[n] in b;
    i :| 0 <= i < |b| && b[i] == a[n];
    assert b == b[..i] + [b[i]] + b[i + 1..];
    assert multiset(b[..i] + b[i + 1..]) == multiset(b) - multiset{b[i]};
    assert multiset(a[..n]) == multiset(a) - multiset{a[n]};
  }

  lemma ArkReordered(v: Vtxo, tx: OffchainTx, tx': OffchainTx)
    requires multiset(tx'.checkpoints) == multiset(tx.checkpoints)
    ensures ExpandArkTx(v, tx).Ok? <==> ExpandArkTx(v, tx').Ok?
    ensures ExpandArkTx(v, tx).Ok? ==>
              && Bag(ExpandArkTx(v, tx).value.chain) == Bag(ExpandArkTx(v, tx').value.chain)
              && multiset(ExpandArkTx(v, tx).value.inputs) == multiset(ExpandArkTx(v, tx').value.inputs)
  {
    hide ExpandCheckpoints, AllContents, Bag;
    var a, b := tx.checkpoints, tx'.checkpoints;
    assert forall c :: c in a <==> c in multiset(a);
    assert forall c :: c in b <==> c in multiset(b);
    CheckpointChain(a, v.expiresAt);
    CheckpointChain(b, v.expiresAt);
    if ExpandArkTx(v, tx).Ok? {
      SameContents(a, b, v.expiresAt);
      ExpandedContents(a, v.expiresAt);
      ExpandedContents(b, v.expiresAt);
      ArkBag(v, ExpandCheckpoints(a, v.expiresAt).value.chain);
      ArkBag(v, ExpandCheckpoints(b, v.expiresAt).value.chain);
    }
  }

  lemma ArkBag(v: Vtxo, chain: seq<ChainTx>)
    ensures Bag([ChainTx(v.outpoint.txid, v.expiresAt, ArkTx, SpendsAll(chain))] + chain)
         == multiset{LooseTx(v.outpoint.txid, v.expiresAt, ArkTx, multiset(SpendsAll(chain)))} + Bag(chain)
  {
    var ark := ChainTx(v.outpoint.txid, v.expiresAt, ArkTx, SpendsAll(chain));
    BagConcat([ark], chain);
    BagOne(ark);
  }

  /** What a vtxo adds, without any order. */
  ghost predicate ReorderedAt(db: Db, db': Db, op: Outpoint) {
    op in db.vtxos ==>
      && op in db'.vtxos && (Expand(db, db.vtxos[op]).Ok? <==> Expand(db', db'.vtxos[op]).Ok?)
      && (Expand(db, db.vtxos[op]).Ok? ==>
            && Bag(Expand(db, db.vtxos[op]).value.chain) == Bag(Expand(db', db'.vtxos[op]).value.chain)
            && multiset(Expand(db, db.vtxos[op]).value.inputs) == multiset(Expand(db', db'.vtxos[op]).value.inputs))
  }

  lemma ExpandReordered(db: Db, db': Db, op: Outpoint)
    requires SameUpToOrder(db, db')
    ensures ReorderedAt(db, db', op)
  {
    hide ExpandArkTx, ExpandBranch, Bag;
    if op in db.vtxos && db.vtxos[op].preconfirmed && db.vtxos[op].outpoint.txid in db.txs {
      var txid := db.vtxos[op].outpoint.txid;
      ArkReordered(db.vtxos[op], db.txs[txid], db'.txs[txid]);
    }
  }

  lemma SameInputs(db: Db, db': Db, op: Outpoint)
    requires SameUpToOrder(db, db')
    ensures forall input :: input in Inputs(db, op) <==> input in Inputs(db', op)
  {
    hide Expand, Bag;
    ExpandReordered(db, db', op);
    var a, b := Inputs(db, op), Inputs(db', op);
    assert forall input :: input in a <==> input in multiset(a);
    assert forall input :: input in b <==> input in multiset(b);
  }

  lemma SameReachable(db: Db, db': Db, starts: seq<Outpoint>, op: Outpoint)
    requires SameUpToOrder(db, db') && Reachable(db, starts, op)
    ensures Reachable(db', starts, op)
  {
    hide Inputs, SameUpToOrder;
    var path :| Reaches(db, starts, path, op);
    forall i | 0 <= i < |path| - 1 ensures path[i + 1] in Inputs(db', path[i]) {
      SameInputs(db, db', path[i]);
    }
    assert Reaches(db', starts, path, op);
  }

  lemma ReorderedBack(db: Db, db': Db)
    requires SameUpToOrder(db, db')
    ensures SameUpToOrder(db', db)
  {
  }

  // The txs of a chain are those of the vtxos expanded.

  function ChainOf(db: Db, op: Outpoint): seq<ChainTx> {
    if op in db.vtxos && Expand(db, db.vtxos[op]).Ok? then Expand(db, db.vtxos[op]).value.chain else []
  }

  function OpsBag(db: Db, ops: seq<Outpoint>): multiset<LooseTx> {
    if ops == [] then multiset{} else OpsBag(db, ops[..|ops| - 1]) + Bag(ChainOf(db, ops[|ops| - 1]))
  }

  lemma OpsBagSnoc(db: Db, ops: seq<Outpoint>, op: Outpoint)
    ensures OpsBag(db, ops + [op]) == OpsBag(db, ops) + Bag(ChainOf(db, op))
  {
    assert (ops + [op])[..|ops|] == ops;
  }

  lemma {:induction false} LevelBag(db: Db, ops: seq<Outpoint>, w: Progress, next: seq<Outpoint>, limit: Option<nat>)
    requires Bag(w.chain) == OpsBag(db, w.expanded)
    ensures var l := PlainLevel(db, ops, w, next, limit); !l.Broken? ==> Bag(l.w.chain) == OpsBag(db, l.w.expanded)
    decreases |ops|
  {
    hide Expand, Bag, OpsBag;
    if ops != [] {
      if ops[0] !in db.vtxos || ops[0] in w.expanded {
        LevelBag(db, ops[1..], w, next, limit);
      } else if Expand(db, db.vtxos[ops[0]]).Ok? {
        var x := Expand(db, db.vtxos[ops[0]]).value;
        BagConcat(w.chain, x.chain);
        OpsBagSnoc(db, w.expanded, ops[0]);
        LevelBag(db, ops[1..], Add(w, ops[0], x), next + NotIn(x.inputs, w.expanded + [ops[0]]), limit);
      }
    }
  }

  lemma {:induction false} WalkBag(db: Db, frontier: seq<Outpoint>, w: Progress, limit: Option<nat>)
    requires Bag(w.chain) == OpsBag(db, w.expanded)
    ensures var walk := PlainWalk(db, frontier, w, limit); walk.Walked? ==> Bag(walk.w.chain) == OpsBag(db, walk.w.expanded)
    decreases |Unexpanded(db, w)|, |frontier|
  {
    hide PlainLevel, Bag, OpsBag;
    if frontier != [] && !NoneFound(db, frontier) {
      LevelShrinks(db, frontier, w, limit);
      LevelBag(db, frontier, w, [], limit);
      var l := PlainLevel(db, frontier, w, [], limit);
      if l.Expanded? {
        WalkBag(db, l.next, l.w, limit);
      }
    }
  }

  lemma {:induction false} OpsBagWithout(db: Db, ops: seq<Outpoint>, i: nat)
    requires i < |ops|
    ensures OpsBag(db, ops) == OpsBag(db, ops[..i] + ops[i + 1..]) + Bag(ChainOf(db, ops[i]))
    decreases |ops|
  {
    hide Bag, ChainOf;
    var n := |ops| - 1;
    if i == n {
      assert ops[..i] + ops[i + 1..] == ops[..n];
    } else {
      OpsBagWithout(db, ops[..n], i);
      var rest := ops[..i] + ops[i + 1..];
      assert rest[..|rest| - 1] == ops[..n][..i] + ops[..n][i + 1..] && rest[|rest| - 1] == ops[n];
    }
  }

  lemma {:induction false} OpsBagSame(db: Db, db': Db, a: seq<Outpoint>, b: seq<Outpoint>)
    requires SameUpToOrder(db, db') && multiset(a) == multiset(b)
    ensures OpsBag(db, a) == OpsBag(db', b)
    decreases |a|
  {
    hide Bag, SameUpToOrder, Expand;
    if a == [] {
      assert |multiset(b)| == |b|;
    } else {
      var n := |a| - 1;
      var i := RestSame(a, b);
      OpsBagSame(db, db', a[..n], b[..i] + b[i + 1..]);
      OpsBagWithout(db', b, i);
      ExpandReordered(db, db', a[n]);
      SameRows(db, db');
    }
  }

  lemma SameRows(db: Db, db': Db)
    requires SameUpToOrder(db, db')
    ensures db'.vtxos == db.vtxos
  {
  }

  lemma {:induction false} CountOne(ops: seq<Outpoint>)
    requires NoDuplicates(ops)
    ensures forall op :: multiset(ops)[op] == if op in ops then 1 else 0
  {
    if ops != [] {
      var n := |ops| - 1;
      CountOne(ops[..n]);
      assert ops == ops[..n] + [ops[n]] && ops[n] !in ops[..n];
    }
  }

  /**
   Whatever the order: two whole walks that succeed expand the same vtxos, each one once, and list the same
   txs, up to the order of the txs and of what an ark tx spends.
   */
  lemma EveryOrderKeeps(db: Db, db': Db, op: Outpoint)
    requires SameUpToOrder(db, db') && FullChain(db, op).Ok? && FullChain(db', op).Ok?
    ensures var w, w' := PlainWalk(db, [op], Start, None).w, PlainWalk(db', [op], Start, None).w;
            && NoDuplicates(w.expanded) && NoDuplicates(w'.expanded)
            && (forall a :: a in w.expanded <==> a in w'.expanded)
    ensures Bag(FullChain(db, op).value) == Bag(FullChain(db', op).value)
  {
    hide Reachable, PlainWalk, Bag, SameUpToOrder;
    var w, w' := PlainWalk(db, [op], Start, None).w, PlainWalk(db', [op], Start, None).w;
    ExpandsReachableOnce(db, [op], None);
    ExpandsReachableOnce(db', [op], None);
    WalkPrefix(db, [op], Start, 0);
    WalkPrefix(db', [op], Start, 0);
    ReorderedBack(db, db');
    SameRows(db, db');
    forall a ensures Reachable(db, [op], a) <==> Reachable(db', [op], a) {
      if Reachable(db, [op], a) {
        SameReachable(db, db', [op], a);
      }
      if Reachable(db', [op], a) {
        SameReachable(db', db, [op], a);
      }
    }
    CountOne(w.expanded);
    CountOne(w'.expanded);
    assert multiset(w.expanded) == multiset(w'.expanded);
    BagNone();
    WalkBag(db, [op], Start, None);
    WalkBag(db', [op], Start, None);
    OpsBagSame(db, db', w.expanded, w'.expanded);
  }

  /** If no row above the vtxo is missing, its chain can be walked in every order. */
  lemma EveryOrderSucceeds(db: Db, db': Db, op: Outpoint)
    requires SameUpToOrder(db, db') && ChainPresent(db, [op])
    ensures FullChain(db', op).Ok?
  {
    hide Reachable, PlainWalk, Expand, SameUpToOrder, Bag;
    ReorderedBack(db, db');
    SameRows(db, db');
    forall a | Reachable(db', [op], a) ensures a in db'.vtxos && Expand(db', db'.vtxos[a]).Ok? {
      SameReachable(db', db, [op], a);
      ReachableExpands(db, [op], a);
      ExpandReordered(db, db', a);
    }
    StartVisiting(db', [op]);
    WalkSucceeds(db', [op], [op], Start);
  }

  // What it does to pages.

  /** The chain starts with what the vtxo itself adds. */
  lemma StartsWithOwn(db: Db, op: Outpoint)
    requires FullChain(db, op).Ok?
    ensures op in db.vtxos && Expand(db, db.vtxos[op]).Ok?
    ensures Expand(db, db.vtxos[op]).value.chain <= FullChain(db, op).value
  {
    hide Expand, NotIn;
    assert [op][0] == op && [op][1..] == [];
    assert op in db.vtxos;
    OwnLevel(db, op);
    hide PlainLevel;
    var l := PlainLevel(db, [op], Start, [], None);
    if l.Expanded? {
      WalkExtends(db, l.next, l.w, None);
    }
  }

  lemma OwnLevel(db: Db, op: Outpoint)
    requires op in db.vtxos
    ensures var l := PlainLevel(db, [op], Start, [], None);
            if Expand(db, db.vtxos[op]).Ok? then l.Expanded? && l.w.chain == Expand(db, db.vtxos[op]).value.chain
            else l.Broken?
  {
    hide Expand, NotIn;
    assert [op][0] == op && [op][1..] == [];
    if Expand(db, db.vtxos[op]).Ok? {
      var x := Expand(db, db.vtxos[op]).value;
      assert [] + x.chain == x.chain;
    }
  }

  /**
   For every vtxo whose tx has two checkpoints: a first page of two txs, and a second one read after the
   two have changed places, both hold the same checkpoint.
   */
  lemma PageRepeats(db: Db, op: Outpoint)
    requires op in db.vtxos && db.vtxos[op].preconfirmed && db.vtxos[op].outpoint.txid in db.txs
    requires |db.txs[db.vtxos[op].outpoint.txid].checkpoints| >= 2
    requires FullChain(db, op).Ok? && FullChain(Swapped(db, db.vtxos[op].outpoint.txid, 0, 1), op).Ok?
    ensures var txid := db.vtxos[op].outpoint.txid;
            var first, second := TokenPage(db, op, 0, 2), TokenPage(Swapped(db, txid, 0, 1), op, 2, 2);
            && first.Ok? && second.Ok? && first.value.next == Some(2)
            && |first.value.chain| == 2 && |second.value.chain| >= 1
            && db.txs[txid].checkpoints[0].Some?
            && first.value.chain[1].txid == second.value.chain[0].txid == db.txs[txid].checkpoints[0].value.txid
  {
    hide FullChain, TokenPage, ExpandCheckpoints, ExpandBranch;
    var v := db.vtxos[op];
    var db' := Swapped(db, v.outpoint.txid, 0, 1);
    var a, b := db.txs[v.outpoint.txid].checkpoints, db'.txs[v.outpoint.txid].checkpoints;
    StartsWithOwn(db, op);
    StartsWithOwn(db', op);
    CheckpointChain(a, v.expiresAt);
    CheckpointChain(b, v.expiresAt);
    TokenPageIsSlice(db, op, 0, 2);
    TokenPageIsSlice(db', op, 2, 2);
    var full, full' := FullChain(db, op).value, FullChain(db', op).value;
    var own, own' := Expand(db, v).value.chain, Expand(db', v).value.chain;
    assert a[0] in a && b[1] == a[0];
    assert full[1] == own[1] && own[1] == ExpandCheckpoints(a, v.expiresAt).value.chain[0];
    assert full'[2] == own'[2] && own'[2] == ExpandCheckpoints(b, v.expiresAt).value.chain[1];
  }
}
