/** Reducing the subtrees that outputs fund to the maximal ones. */
module SweepSubTrees {
  import opened Outpoints
  import opened TxTrees
  import opened SweepFrontier

  function ContainsTree(t0: TxTree, t1: TxTree): bool {
    Find(t0, t1.txid).Some?
  }

  /** Among subtrees of one tree, containsTree tells whether the second lies in the first. */
  lemma ContainsIsBelow(t: TxTree, x: TxTree, y: TxTree)
    requires Distinct(Nodes(t)) && x in Nodes(t) && y in Nodes(t)
    ensures ContainsTree(x, y) <==> y in Nodes(x)
  {
    FindSound(x, y.txid);
    if ContainsTree(x, y) {
      SubNodes(t, x);
      SameNode(Nodes(t), Find(x, y.txid).value, y);
    }
  }

  type SubTrees = map<Txid, TxTree>

  ghost predicate KeyedByRoot(t: TxTree, subs: SubTrees) {
    forall txid :: txid in subs ==> subs[txid] in Nodes(t) && subs[txid].txid == txid
  }

  ghost predicate Included(subs: SubTrees, txid: Txid)
    requires txid in subs
  {
    exists other :: other in subs && other != txid && ContainsTree(subs[other], subs[txid])
  }

  method IsIncluded(subs: SubTrees, txid: Txid) returns (included: bool)
    requires txid in subs
    ensures included <==> Included(subs, txid)
  {
    var left := subs.Keys;
    while left != {}
      invariant left <= subs.Keys
      invariant forall other :: other in subs && other !in left && other != txid ==> !ContainsTree(subs[other], subs[txid])
      decreases |left|
    {
      var other :| other in left;
      if other != txid && ContainsTree(subs[other], subs[txid]) {
        return true;
      }
      left := left - {other};
    }
    return false;
  }

  /** Climbs from a subtree to one that no other subtree contains. */
  lemma {:induction false} Maximal(t: TxTree, subs: SubTrees, txid: Txid) returns (top: Txid)
    requires Distinct(Nodes(t)) && KeyedByRoot(t, subs) && txid in subs
    ensures top in subs && !Included(subs, top) && subs[txid] in Nodes(subs[top])
    decreases Size(t) - Size(subs[txid])
  {
    if Included(subs, txid) {
      var other :| other in subs && other != txid && ContainsTree(subs[other], subs[txid]);
      ContainsIsBelow(t, subs[other], subs[txid]);
      SubSize(subs[other], subs[txid]);
      SubSize(t, subs[other]);
      top := Maximal(t, subs, other);
      SubNodes(subs[top], subs[other]);
    } else {
      top := txid;
    }
  }

  /** The subtrees that the inputs fund, under the txids of their roots. */
  ghost predicate Funds(t: TxTree, inputs: seq<Outpoint>, subs: SubTrees) {
    && KeyedByRoot(t, subs)
    && (forall txid :: txid in subs ==> subs[txid].input in inputs)
    && (forall x :: x in Nodes(t) && x.input in inputs ==> x.txid in subs && subs[x.txid] == x)
  }

  method CollectSubTrees(t: TxTree, inputs: seq<Outpoint>) returns (subs: SubTrees)
    requires Distinct(Nodes(t))
    ensures Funds(t, inputs, subs)
  {
    hide Nodes;
    subs := map[];
    for i := 0 to |inputs|
      invariant Funds(t, inputs[..i], subs)
    {
      var found := FindInput(t, inputs[i]);
      FindInputSound(t, inputs[i]);
      assert inputs[..i + 1] == inputs[..i] + [inputs[i]];
      if found.Some? {
        forall x | x in Nodes(t) && (x.input == inputs[i] || x.txid == found.value.txid) ensures x == found.value {
          SameNode(Nodes(t), x, found.value);
        }
        subs := subs[found.value.txid := found.value];
      }
    }
    assert inputs[..|inputs|] == inputs;
  }

  /** Those that no other one contains, each one once. */
  method KeepMaximal(subs: SubTrees) returns (kept: seq<TxTree>)
    requires forall txid :: txid in subs ==> subs[txid].txid == txid
    ensures forall x :: x in kept <==> x.txid in subs && subs[x.txid] == x && !Included(subs, x.txid)
    ensures forall i, j :: 0 <= i < j < |kept| ==> kept[i].txid != kept[j].txid
  {
    kept := [];
    var left := subs.Keys;
    while left != {}
      invariant left <= subs.Keys
      invariant forall x :: x in kept <==> x.txid in subs && x.txid !in left && subs[x.txid] == x && !Included(subs, x.txid)
      invariant forall i, j :: 0 <= i < j < |kept| ==> kept[i].txid != kept[j].txid
      decreases |left|
    {
      var txid :| txid in left;
      var included := IsIncluded(subs, txid);
      assert forall i :: 0 <= i < |kept| ==> kept[i] in kept;
      if !included {
        kept := kept + [subs[txid]];
      }
      left := left - {txid};
    }
  }

  /** The kept subtrees are not nested, and each subtree that an input funds lies in one of them. */
  method ComputeSubTrees(t: TxTree, inputs: seq<Outpoint>) returns (kept: seq<TxTree>)
    requires Distinct(Nodes(t))
    ensures forall x :: x in kept ==> x in Nodes(t) && x.input in inputs
    ensures Antichain(kept)
    ensures forall x :: x in Nodes(t) && x.input in inputs ==> exists k :: k in kept && x in Nodes(k)
  {
    hide Nodes, Distinct;
    var subs := CollectSubTrees(t, inputs);
    kept := KeepMaximal(subs);
    forall i, j | 0 <= i < |kept| && 0 <= j < |kept| && i != j ensures kept[i] !in Nodes(kept[j]) {
      assert kept[i] in kept && kept[j] in kept;
      ContainsIsBelow(t, kept[j], kept[i]);
    }
    forall x | x in Nodes(t) && x.input in inputs ensures exists k :: k in kept && x in Nodes(k) {
      var top := Maximal(t, subs, x.txid);
      assert subs[top] in kept;
    }
  }
}
