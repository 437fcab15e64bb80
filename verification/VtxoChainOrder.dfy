/**
 Paging needs the checkpoints of a tx to be visited in the same order by every walk. The source keeps
 them in a map and ranges over it, so the order may differ from one page to the next.
 */
module VtxoChainOrder {
  import opened Outpoints
  import opened VtxoChain
  import opened VtxoChainPaging

  const Forked := Outpoint("ark", 0)

  function Leaf(txid: Txid): Vtxo {
    Vtxo(Outpoint(txid, 0), false, 0, "batch", 0, [])
  }

  /** One offchain tx whose two checkpoints spend two leaves of one batch. */
  function Fork(a: Checkpoint, b: Checkpoint): Db {
    Db(map[Forked := Vtxo(Forked, true, 0, "batch", 1, []),
           Outpoint("left", 0) := Leaf("left"), Outpoint("right", 0) := Leaf("right")],
       map["ark" := OffchainTx([Some(a), Some(b)])],
       map[("batch", "left") := ["left"], ("batch", "right") := ["right"]], map[])
  }

  function Check(txid: Txid, leaf: Txid): Checkpoint {
    Checkpoint(txid, Outpoint(leaf, 0), [])
  }

  function Chain(a: Checkpoint, b: Checkpoint): seq<ChainTx> {
    [ChainTx("ark", 0, ArkTx, [SpendsTx(a.txid), SpendsTx(b.txid)]),
     ChainTx(a.txid, 0, CheckpointTx, [SpendsOutpoint(a.input)]),
     ChainTx(b.txid, 0, CheckpointTx, [SpendsOutpoint(b.input)])]
  }

  lemma CheckpointSnoc(before: seq<Option<Checkpoint>>, c: Checkpoint)
    requires ExpandCheckpoints(before, 0).Ok?
    ensures var x, x' := ExpandCheckpoints(before, 0).value, ExpandCheckpoints(before + [Some(c)], 0);
            && x'.Ok? && x'.value.inputs == x.inputs + CheckpointInputs(c)
            && x'.value.chain == x.chain + [ChainTx(c.txid, 0, CheckpointTx, [SpendsOutpoint(c.input)])]
  {
    var all := before + [Some(c)];
    assert all[..|all| - 1] == before;
  }

  lemma ForkExpands(a: Checkpoint, b: Checkpoint)
    requires a.others == b.others == []
    ensures Forked in Fork(a, b).vtxos
    ensures var x := Expand(Fork(a, b), Fork(a, b).vtxos[Forked]);
            x.Ok? && x.value.chain == Chain(a, b) && x.value.inputs == [a.input, b.input]
  {
    assert ExpandCheckpoints([], 0) == Ok(Expansion([], [], []));
    CheckpointSnoc([], a);
    CheckpointSnoc([Some(a)], b);
    assert [Some(a)] + [Some(b)] == [Some(a), Some(b)] && [] + [Some(a)] == [Some(a)];
    hide ExpandCheckpoints;
    var x := ExpandCheckpoints([Some(a), Some(b)], 0).value;
    assert SpendsAll(x.chain) == [SpendsTx(a.txid), SpendsTx(b.txid)];
  }

  lemma ExpandFirst(db: Db, op: Outpoint, rest: seq<Outpoint>, w: Progress, next: seq<Outpoint>)
    requires op in db.vtxos && op !in w.expanded && Expand(db, db.vtxos[op]).Ok?
    ensures var x := Expand(db, db.vtxos[op]).value;
            PlainLevel(db, [op] + rest, w, next, None)
            == PlainLevel(db, rest, Add(w, op, x), next + NotIn(x.inputs, w.expanded + [op]), None)
  {
    hide Expand;
    assert ([op] + rest)[1..] == rest;
  }

  predicate Leaves(a: Outpoint, b: Outpoint) {
    {a, b} == {Outpoint("left", 0), Outpoint("right", 0)} && a != b
  }

  lemma LeavesExpand(a: Checkpoint, b: Checkpoint, leaf: Outpoint)
    requires leaf == Outpoint("left", 0) || leaf == Outpoint("right", 0)
    ensures leaf in Fork(a, b).vtxos
    ensures var x := Expand(Fork(a, b), Fork(a, b).vtxos[leaf]);
            x.Ok? && x.value.inputs == [] && |x.value.chain| == 2 && x.value.chain[0].kind == TreeTx
            && x.value.chain[0].txid == leaf.txid
  {
  }

  lemma Unvisited(a: Outpoint, b: Outpoint)
    requires a != Forked && b != Forked
    ensures NotIn([a, b], [Forked]) == [a, b]
  {
    assert [a, b][..1] == [a] && [a][..0] == [];
    assert NotIn([a], [Forked]) == [a];
  }

  lemma LeavesNotForked(a: Outpoint, b: Outpoint)
    requires Leaves(a, b)
    ensures a != Forked && b != Forked
  {
    assert a in {a, b} && b in {a, b};
  }

  lemma ForkLevel(a: Checkpoint, b: Checkpoint) returns (w: Progress)
    requires a.others == b.others == [] && Leaves(a.input, b.input)
    ensures PlainLevel(Fork(a, b), [Forked], Start, [], None) == Expanded(w, [a.input, b.input])
    ensures w.chain == Chain(a, b) && w.expanded == [Forked]
  {
    hide Expand, Fork, NotIn, Chain, Leaves;
    var db := Fork(a, b);
    ForkExpands(a, b);
    LeavesNotForked(a.input, b.input);
    w := Add(Start, Forked, Expand(db, db.vtxos[Forked]).value);
    ExpandFirst(db, Forked, [], Start, []);
    assert [Forked] + [] == [Forked] && [] + [Forked] == [Forked];
    Unvisited(a.input, b.input);
  }

  lemma LeafLevel(a: Checkpoint, b: Checkpoint, w: Progress) returns (w': Progress)
    requires Leaves(a.input, b.input) && w.expanded == [Forked] && w.chain == Chain(a, b)
    ensures PlainLevel(Fork(a, b), [a.input, b.input], w, [], None) == Expanded(w', [])
    ensures |w'.chain| == 7 && w'.chain[..3] == Chain(a, b) && w'.chain[3].txid == a.input.txid
  {
    var db := Fork(a, b);
    assert a.input in {a.input, b.input} && b.input in {a.input, b.input};
    LeavesExpand(a, b, a.input);
    LeavesExpand(a, b, b.input);
    hide Expand, Fork;
    var xa, xb := Expand(db, db.vtxos[a.input]).value, Expand(db, db.vtxos[b.input]).value;
    var half := Add(w, a.input, xa);
    w' := Add(half, b.input, xb);
    ExpandFirst(db, a.input, [b.input], w, []);
    ExpandFirst(db, b.input, [], half, []);
    assert [a.input] + [b.input] == [a.input, b.input] && [b.input] + [] == [b.input];
  }

  lemma ForkChain(a: Checkpoint, b: Checkpoint)
    requires a.others == b.others == [] && Leaves(a.input, b.input)
    ensures var full := FullChain(Fork(a, b), Forked);
            full.Ok? && |full.value| == 7 && full.value[..3] == Chain(a, b) && full.value[3].txid == a.input.txid
  {
    var db := Fork(a, b);
    var w := ForkLevel(a, b);
    var w' := LeafLevel(a, b, w);
    assert Forked in db.vtxos && [Forked][0] == Forked && !NoneFound(db, [Forked]);
    assert a.input in {a.input, b.input} && a.input in db.vtxos;
    assert [a.input, b.input][0] == a.input && !NoneFound(db, [a.input, b.input]);
    hide PlainLevel, Fork, NoneFound;
    WalkStep(db, [Forked], Start);
    WalkStep(db, [a.input, b.input], w);
  }

  lemma WalkStep(db: Db, frontier: seq<Outpoint>, w: Progress)
    requires frontier != [] && !NoneFound(db, frontier) && PlainLevel(db, frontier, w, [], None).Expanded?
    ensures var l := PlainLevel(db, frontier, w, [], None);
            PlainWalk(db, frontier, w, None) == PlainWalk(db, l.next, l.w, None)
  {
    hide PlainLevel;
  }

  /** Two pages read in two orders: one checkpoint comes twice and the other one never. */
  lemma OrderMatters()
    ensures var a, b := Check("k1", "left"), Check("k2", "right");
            var first, second := TokenPage(Fork(a, b), Forked, 0, 2), TokenPage(Fork(b, a), Forked, 2, 2);
            && first.Ok? && second.Ok? && first.value.next == Some(2)
            && |first.value.chain| == |second.value.chain| == 2
            && first.value.chain[1].txid == "k1" && second.value.chain[0].txid == "k1"
            && (forall tx :: tx in first.value.chain + second.value.chain ==> tx.txid != "k2")
  {
    hide FullChain, TokenPage, Fork;
    var a, b := Check("k1", "left"), Check("k2", "right");
    ForkChain(a, b);
    ForkChain(b, a);
    TokenPageIsSlice(Fork(a, b), Forked, 0, 2);
    TokenPageIsSlice(Fork(b, a), Forked, 2, 2);
    var ab, ba := FullChain(Fork(a, b), Forked).value, FullChain(Fork(b, a), Forked).value;
    assert ab[0] == ab[..3][0] && ab[1] == ab[..3][1] && ba[2] == ba[..3][2];
  }
}
