/** Trees of transactions: each one spends an output of its parent, the root an output of the commitment tx. */
module TxTrees {
  import opened Outpoints

  /** vtxo is the index of the first output that is no anchor, expiry the relative locktime of the tx's input. */
  datatype TxTree = TxTree(txid: Txid, input: Outpoint, vtxo: Option<nat>, expiry: nat, children: seq<TxTree>)

  /** All nodes, parents before children. */
  function Nodes(t: TxTree): seq<TxTree> {
    [t] + ForestNodes(t.children)
  }

  function ForestNodes(ts: seq<TxTree>): seq<TxTree> {
    if ts == [] then [] else Nodes(ts[0]) + ForestNodes(ts[1..])
  }

  function Leaves(t: TxTree): seq<TxTree> {
    if t.children == [] then [t] else ForestLeaves(t.children)
  }

  function ForestLeaves(ts: seq<TxTree>): seq<TxTree> {
    if ts == [] then [] else Leaves(ts[0]) + ForestLeaves(ts[1..])
  }

  /** No two nodes are the same tx or spend the same output. */
  ghost predicate Distinct(nodes: seq<TxTree>) {
    forall i, j :: 0 <= i < j < |nodes| ==> nodes[i].txid != nodes[j].txid && nodes[i].input != nodes[j].input
  }

  lemma DistinctSplit(a: seq<TxTree>, b: seq<TxTree>)
    requires Distinct(a + b)
    ensures Distinct(a) && Distinct(b)
    ensures forall x, y :: x in a && y in b ==> x.txid != y.txid && x.input != y.input
  {
    var all := a + b;
    forall i, j | 0 <= i < j < |b| ensures b[i].txid != b[j].txid && b[i].input != b[j].input {
      assert all[|a| + i] == b[i] && all[|a| + j] == b[j];
    }
    forall i, j | 0 <= i < j < |a| ensures a[i].txid != a[j].txid && a[i].input != a[j].input {
      assert all[i] == a[i] && all[j] == a[j];
    }
    forall x, y | x in a && y in b ensures x.txid != y.txid && x.input != y.input {
      var i :| 0 <= i < |a| && a[i] == x;
      var j :| 0 <= j < |b| && b[j] == y;
      assert all[i] == x && all[|a| + j] == y;
    }
  }

  /** Distinct nodes are told apart by their txids and by their inputs. */
  lemma SameNode(nodes: seq<TxTree>, x: TxTree, y: TxTree)
    requires Distinct(nodes) && x in nodes && y in nodes && (x.txid == y.txid || x.input == y.input)
    ensures x == y
  {
    var i :| 0 <= i < |nodes| && nodes[i] == x;
    var j :| 0 <= j < |nodes| && nodes[j] == y;
  }

  lemma {:induction false} LeavesAreNodes(t: TxTree)
    ensures forall x :: x in Leaves(t) ==> x in Nodes(t) && x.children == []
  {
    ForestLeavesAreNodes(t.children);
  }

  lemma {:induction false} ForestLeavesAreNodes(ts: seq<TxTree>)
    ensures forall x :: x in ForestLeaves(ts) ==> x in ForestNodes(ts) && x.children == []
  {
    if ts != [] {
      LeavesAreNodes(ts[0]);
      ForestLeavesAreNodes(ts[1..]);
    }
  }

  /** The leaves are exactly the nodes without children. */
  lemma {:induction false} ChildlessAreLeaves(t: TxTree, x: TxTree)
    ensures x in Leaves(t) <==> x in Nodes(t) && x.children == []
  {
    LeavesAreNodes(t);
    if x in Nodes(t) && x != t {
      ForestChildlessAreLeaves(t.children, x);
    }
  }

  lemma {:induction false} ForestChildlessAreLeaves(ts: seq<TxTree>, x: TxTree)
    ensures x in ForestLeaves(ts) <==> x in ForestNodes(ts) && x.children == []
  {
    if ts != [] {
      ChildlessAreLeaves(ts[0], x);
      ForestChildlessAreLeaves(ts[1..], x);
    }
  }

  /** A node is the root or a node of one of its children. */
  lemma {:induction false} NodesMean(t: TxTree, x: TxTree)
    ensures x in Nodes(t) <==> x == t || exists i :: 0 <= i < |t.children| && x in Nodes(t.children[i])
  {
    ForestNodesMean(t.children, x);
  }

  lemma {:induction false} ForestNodesMean(ts: seq<TxTree>, x: TxTree)
    ensures x in ForestNodes(ts) <==> exists i :: 0 <= i < |ts| && x in Nodes(ts[i])
  {
    if ts != [] {
      ForestNodesMean(ts[1..], x);
      if x in ForestNodes(ts[1..]) {
        var i :| 0 <= i < |ts[1..]| && x in Nodes(ts[1..][i]);
        assert ts[i + 1] == ts[1..][i];
      }
      if i :| 0 < i < |ts| && x in Nodes(ts[i]) {
        assert ts[1..][i - 1] == ts[i];
      }
    }
  }

  /** The nodes of a subtree are nodes of the tree. */
  lemma {:induction false} SubNodes(t: TxTree, x: TxTree)
    requires x in Nodes(t)
    ensures forall y :: y in Nodes(x) ==> y in Nodes(t)
    ensures forall y :: y in Leaves(x) ==> y in Leaves(t)
  {
    if x != t {
      ForestSubNodes(t.children, x);
      assert t.children != [];
    }
  }

  lemma {:induction false} ForestSubNodes(ts: seq<TxTree>, x: TxTree)
    requires x in ForestNodes(ts)
    ensures forall y :: y in Nodes(x) ==> y in ForestNodes(ts)
    ensures forall y :: y in Leaves(x) ==> y in ForestLeaves(ts)
  {
    if x in Nodes(ts[0]) {
      SubNodes(ts[0], x);
    } else {
      ForestSubNodes(ts[1..], x);
    }
  }

  /** Two subtrees are nested or have no node in common. */
  ghost predicate NestedOrApart(x: TxTree, y: TxTree) {
    x in Nodes(y) || y in Nodes(x) || forall z :: z in Nodes(x) ==> z !in Nodes(y)
  }

  lemma {:induction false} SubtreesNest(t: TxTree, x: TxTree, y: TxTree)
    requires Distinct(Nodes(t)) && x in Nodes(t) && y in Nodes(t)
    ensures NestedOrApart(x, y)
  {
    if x != t && y != t {
      DistinctSplit([t], ForestNodes(t.children));
      ForestSubtreesNest(t.children, x, y);
    }
  }

  lemma {:induction false} ForestSubtreesNest(ts: seq<TxTree>, x: TxTree, y: TxTree)
    requires Distinct(ForestNodes(ts)) && x in ForestNodes(ts) && y in ForestNodes(ts)
    ensures NestedOrApart(x, y)
  {
    DistinctSplit(Nodes(ts[0]), ForestNodes(ts[1..]));
    if x in Nodes(ts[0]) && y in Nodes(ts[0]) {
      SubtreesNest(ts[0], x, y);
    } else if x in Nodes(ts[0]) {
      SubNodes(ts[0], x);
      ForestSubNodes(ts[1..], y);
    } else if y in Nodes(ts[0]) {
      SubNodes(ts[0], y);
      ForestSubNodes(ts[1..], x);
    } else {
      ForestSubtreesNest(ts[1..], x, y);
    }
  }

  /** Every tx spends its parent, and the root spends a tx outside the tree. */
  ghost predicate Linked(t: TxTree) {
    && (forall x :: x in Nodes(t) ==> x.txid != t.input.txid)
    && (forall x :: x in Nodes(t) ==> forall i :: 0 <= i < |x.children| ==> x.children[i].input.txid == x.txid)
  }

  ghost predicate WellFormed(t: TxTree) {
    Distinct(Nodes(t)) && Linked(t)
  }

  ghost predicate ChildOf(p: TxTree, x: TxTree) {
    x in p.children
  }

  lemma {:induction false} HasParent(t: TxTree, x: TxTree) returns (p: TxTree)
    requires x in Nodes(t) && x != t
    ensures p in Nodes(t) && ChildOf(p, x)
  {
    if x in t.children {
      p := t;
    } else {
      p := ForestHasParent(t.children, x);
    }
  }

  lemma {:induction false} ForestHasParent(ts: seq<TxTree>, x: TxTree) returns (p: TxTree)
    requires x in ForestNodes(ts) && x !in ts
    ensures p in ForestNodes(ts) && ChildOf(p, x)
  {
    if x in Nodes(ts[0]) {
      p := HasParent(ts[0], x);
    } else {
      p := ForestHasParent(ts[1..], x);
    }
  }

  /** No tx of the tree spends a leaf. */
  lemma LeavesUnspent(t: TxTree, x: TxTree, leaf: TxTree)
    requires WellFormed(t) && x in Nodes(t) && leaf in Leaves(t)
    ensures x.input.txid != leaf.txid
  {
    LeavesAreNodes(t);
    if x != t {
      var p := HasParent(t, x);
      var i :| 0 <= i < |p.children| && p.children[i] == x;
      if leaf.txid == p.txid {
        SameNode(Nodes(t), leaf, p);
      }
    }
  }

  // Lookups.

  /** The subtree whose root spends the outpoint, found depth first. */
  function FindInput(t: TxTree, op: Outpoint): Option<TxTree> {
    if t.input == op then Some(t) else ForestFindInput(t.children, op)
  }

  function ForestFindInput(ts: seq<TxTree>, op: Outpoint): Option<TxTree> {
    if ts == [] then None
    else
      var found := FindInput(ts[0], op);
      if found.Some? then found else ForestFindInput(ts[1..], op)
  }

  function Find(t: TxTree, txid: Txid): Option<TxTree> {
    if t.txid == txid then Some(t) else ForestFind(t.children, txid)
  }

  function ForestFind(ts: seq<TxTree>, txid: Txid): Option<TxTree> {
    if ts == [] then None
    else
      var found := Find(ts[0], txid);
      if found.Some? then found else ForestFind(ts[1..], txid)
  }

  lemma {:induction false} FindInputSound(t: TxTree, op: Outpoint)
    ensures var found := FindInput(t, op);
            if found.Some? then found.value in Nodes(t) && found.value.input == op
            else forall x :: x in Nodes(t) ==> x.input != op
  {
    ForestFindInputSound(t.children, op);
  }

  lemma {:induction false} ForestFindInputSound(ts: seq<TxTree>, op: Outpoint)
    ensures var found := ForestFindInput(ts, op);
            if found.Some? then found.value in ForestNodes(ts) && found.value.input == op
            else forall x :: x in ForestNodes(ts) ==> x.input != op
  {
    if ts != [] {
      FindInputSound(ts[0], op);
      ForestFindInputSound(ts[1..], op);
    }
  }

  lemma {:induction false} FindSound(t: TxTree, txid: Txid)
    ensures var found := Find(t, txid);
            if found.Some? then found.value in Nodes(t) && found.value.txid == txid
            else forall x :: x in Nodes(t) ==> x.txid != txid
  {
    ForestFindSound(t.children, txid);
  }

  lemma {:induction false} ForestFindSound(ts: seq<TxTree>, txid: Txid)
    ensures var found := ForestFind(ts, txid);
            if found.Some? then found.value in ForestNodes(ts) && found.value.txid == txid
            else forall x :: x in ForestNodes(ts) ==> x.txid != txid
  {
    if ts != [] {
      FindSound(ts[0], txid);
      ForestFindSound(ts[1..], txid);
    }
  }

  // Sizes.

  function Size(t: TxTree): nat {
    1 + ForestSize(t.children)
  }

  function ForestSize(ts: seq<TxTree>): nat {
    if ts == [] then 0 else Size(ts[0]) + ForestSize(ts[1..])
  }

  lemma {:induction false} SubSize(t: TxTree, x: TxTree)
    requires x in Nodes(t)
    ensures x == t || Size(x) < Size(t)
  {
    if x != t {
      ForestSubSize(t.children, x);
    }
  }

  lemma {:induction false} ForestSubSize(ts: seq<TxTree>, x: TxTree)
    requires x in ForestNodes(ts)
    ensures Size(x) <= ForestSize(ts)
  {
    if x in Nodes(ts[0]) {
      SubSize(ts[0], x);
    } else {
      ForestSubSize(ts[1..], x);
    }
  }
}
