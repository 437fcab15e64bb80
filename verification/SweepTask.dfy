/** One sweep of a batch: which outputs are swept and which leaf vtxos the swept event lists. */
module SweepTask {
  import opened Outpoints
  import opened TxTrees
  import opened SweepFrontier
  import opened SweepSubTrees

  datatype Row = Row(swept: bool, unrolled: bool)

  type Rows = map<Outpoint, Row>

  /** The wallet's view: spent outputs and the txs it knows, onchain or in the mempool. */
  datatype Wallet = Wallet(spent: set<Outpoint>, known: set<Txid>)

  // The vtxos below an output.

  function LeafVtxo(leaf: TxTree): Option<Outpoint> {
    if leaf.vtxo.Some? then Some(Outpoint(leaf.txid, leaf.vtxo.value)) else None
  }

  function LeafVtxos(leaves: seq<TxTree>): seq<Outpoint> {
    if leaves == [] then []
    else
      var rest := LeafVtxos(leaves[..|leaves| - 1]);
      var last := LeafVtxo(leaves[|leaves| - 1]);
      if last.Some? then rest + [last.value] else rest
  }

  method ExtractVtxos(leaves: seq<TxTree>) returns (vtxos: seq<Outpoint>)
    ensures vtxos == LeafVtxos(leaves)
  {
    vtxos := [];
    for i := 0 to |leaves|
      invariant vtxos == LeafVtxos(leaves[..i])
    {
      assert leaves[..i + 1][..i] == leaves[..i];
      var vtxo := LeafVtxo(leaves[i]);
      if vtxo.Some? {
        vtxos := vtxos + [vtxo.value];
      }
    }
    assert leaves[..|leaves|] == leaves;
  }

  /** Applies a callback that remembers the subtree spending op and does not descend into it. */
  method ApplyFind(t: TxTree, op: Outpoint, found: Option<TxTree>) returns (found': Option<TxTree>)
    requires Distinct(Nodes(t)) && (found.Some? ==> forall x :: x in Nodes(t) ==> x.input != op)
    ensures found' == if found.Some? then found else FindInput(t, op)
    decreases t
  {
    if t.input == op {
      return Some(t);
    }
    DistinctSplit([t], ForestNodes(t.children));
    found' := found;
    for i := 0 to |t.children|
      invariant found' == if found.Some? then found else ForestFindInput(t.children[..i], op)
    {
      ForestSplit(t.children, i);
      ForestFindInputSound(t.children[..i], op);
      FoundBefore(t.children, i, op);
      found' := ApplyFind(t.children[i], op, found');
    }
    assert t.children[..|t.children|] == t.children;
  }

  lemma {:induction false} NodesConcat(a: seq<TxTree>, b: seq<TxTree>)
    ensures ForestNodes(a + b) == ForestNodes(a) + ForestNodes(b)
    decreases |a|
  {
    hide Nodes;
    if a == [] {
      assert a + b == b;
    } else {
      NodesConcat(a[1..], b);
      assert (a + b)[0] == a[0] && (a + b)[1..] == a[1..] + b;
    }
  }

  lemma {:induction false} FindConcat(a: seq<TxTree>, b: seq<TxTree>, op: Outpoint)
    ensures ForestFindInput(a + b, op) == if ForestFindInput(a, op).Some? then ForestFindInput(a, op) else ForestFindInput(b, op)
    decreases |a|
  {
    hide FindInput;
    if a == [] {
      assert a + b == b;
    } else {
      FindConcat(a[1..], b, op);
      assert (a + b)[0] == a[0] && (a + b)[1..] == a[1..] + b;
    }
  }

  lemma ForestSplit(ts: seq<TxTree>, i: nat)
    requires i < |ts| && Distinct(ForestNodes(ts))
    ensures Distinct(Nodes(ts[i])) && forall y :: y in Nodes(ts[i]) ==> y in ForestNodes(ts)
    ensures forall x, y :: x in ForestNodes(ts[..i]) && y in Nodes(ts[i]) ==> x.input != y.input
  {
    hide Distinct, Nodes;
    var before, rest := ForestNodes(ts[..i]), ForestNodes(ts[i..]);
    NodesConcat(ts[..i], ts[i..]);
    assert ts[..i] + ts[i..] == ts;
    assert ts[i..][0] == ts[i] && ts[i..][1..] == ts[i + 1..];
    assert rest == Nodes(ts[i]) + ForestNodes(ts[i + 1..]);
    DistinctSplit(before, rest);
    DistinctSplit(Nodes(ts[i]), ForestNodes(ts[i + 1..]));
  }

  lemma FoundBefore(ts: seq<TxTree>, i: nat, op: Outpoint)
    requires i < |ts|
    ensures ForestFindInput(ts[..i + 1], op)
            == if ForestFindInput(ts[..i], op).Some? then ForestFindInput(ts[..i], op) else FindInput(ts[i], op)
  {
    assert ts[..i + 1] == ts[..i] + [ts[i]] && [ts[i]][1..] == [];
    FindConcat(ts[..i], [ts[i]], op);
  }

  method FindLeaves(t: TxTree, op: Outpoint) returns (r: Option<seq<TxTree>>)
    requires Distinct(Nodes(t))
    ensures r == if FindInput(t, op).Some? then Some(Leaves(FindInput(t, op).value)) else None
  {
    var found := ApplyFind(t, op, None);
    return if found.Some? then Some(Leaves(found.value)) else None;
  }

  // What each output adds to the event.

  /** The vtxos that an output may add: itself, or the vtxos of the leaves of the subtree it funds. */
  function Under(t: TxTree, out: Outpoint): seq<Outpoint> {
    var found := FindInput(t, out);
    if found.Some? then LeafVtxos(Leaves(found.value)) else []
  }

  ghost predicate Adds(t: TxTree, out: Outpoint, vtxos: seq<Outpoint>) {
    vtxos == [] || vtxos == [out] || vtxos == Under(t, out)
  }

  /** A row lookup that may fail. */
  method GetRow(rows: Rows, op: Outpoint, up: bool) returns (r: Query<Option<Row>>)
    ensures up ==> r.Answer?
    ensures r.Answer? ==> r.value == if op in rows then Some(rows[op]) else None
  {
    var fails := Fails(up);
    if fails {
      return NoAnswer;
    }
    return Answer(if op in rows then Some(rows[op]) else None);
  }

  predicate Live(rows: Rows, op: Outpoint) {
    op in rows && !rows[op].swept && !rows[op].unrolled
  }

  /** The vtxos that an output adds: itself if it is a live vtxo, else all below it if the first is live. */
  function Contributes(t: TxTree, rows: Rows, out: Outpoint): seq<Outpoint> {
    if out in rows then (if Live(rows, out) then [out] else [])
    else if Under(t, out) != [] && Live(rows, Under(t, out)[0]) then Under(t, out)
    else []
  }

  /**
   Whether an expired output is to be swept, and the vtxos filed under it. If a row cannot be read the
   output may be swept with nothing filed under it.
   */
  method ClassifyOutput(t: TxTree, rows: Rows, out: Outpoint, up: bool) returns (sweep: bool, vtxos: seq<Outpoint>)
    requires Distinct(Nodes(t))
    ensures Adds(t, out, vtxos) && (!sweep ==> vtxos == [])
    ensures up ==> vtxos == Contributes(t, rows, out) && (sweep <==> vtxos != [])
  {
    vtxos := [];
    var own := GetRow(rows, out, up);
    if own.Answer? && own.value.Some? {
      if !own.value.value.swept && !own.value.value.unrolled {
        vtxos := [out];
      }
    } else {
      var leaves := FindLeaves(t, out);
      if leaves.None? {
        return false, [];
      }
      var below := ExtractVtxos(leaves.value);
      if below == [] {
        return false, [];
      }
      var first := GetRow(rows, below[0], up);
      if first.NoAnswer? {
        // Swept anyway, with no vtxo filed under it.
        return true, [];
      }
      if first.value.None? || first.value.value.swept || first.value.value.unrolled {
        return false, [];
      }
      vtxos := below;
    }
    sweep := vtxos != [];
  }

  /** The output is spent by the tree tx that it funds: its subtree is being unrolled. */
  predicate Unrolling(t: TxTree, wallet: Wallet, out: Outpoint) {
    out in wallet.spent && FindInput(t, out).Some? && FindInput(t, out).value.txid in wallet.known
  }

  // Different outputs add different vtxos.

  ghost predicate NoRepeats(ops: seq<Outpoint>) {
    forall i, j :: 0 <= i < j < |ops| ==> ops[i] != ops[j]
  }

  ghost predicate Boundary(t: TxTree, frontier: seq<TxTree>) {
    (forall x :: x in frontier ==> x in Nodes(t)) && Antichain(frontier)
  }

  ghost predicate FundsOne(frontier: seq<TxTree>, out: Outpoint) {
    exists x :: x in frontier && x.input == out
  }

  /** Outputs that fund nodes of an antichain. */
  ghost predicate Separate(t: TxTree, frontier: seq<TxTree>, outs: seq<Outpoint>) {
    Boundary(t, frontier) && NoRepeats(outs) && (forall out :: out in outs ==> FundsOne(frontier, out))
  }

  lemma {:induction false} LeafVtxosOrigin(leaves: seq<TxTree>, op: Outpoint)
    requires op in LeafVtxos(leaves)
    ensures exists leaf :: leaf in leaves && op.txid == leaf.txid
  {
    var n := |leaves| - 1;
    if op in LeafVtxos(leaves[..n]) {
      LeafVtxosOrigin(leaves[..n], op);
    } else {
      assert leaves[n] in leaves;
    }
  }

  lemma {:induction false} LeafVtxosDistinct(leaves: seq<TxTree>)
    requires Distinct(leaves)
    ensures NoRepeats(LeafVtxos(leaves))
  {
    if leaves != [] {
      var n := |leaves| - 1;
      DistinctSplit(leaves[..n], [leaves[n]]);
      assert leaves == leaves[..n] + [leaves[n]];
      LeafVtxosDistinct(leaves[..n]);
      var rest := LeafVtxos(leaves[..n]);
      forall i | 0 <= i < |rest| ensures rest[i].txid != leaves[n].txid {
        LeafVtxosOrigin(leaves[..n], rest[i]);
      }
    }
  }

  lemma FundedNode(t: TxTree, frontier: seq<TxTree>, out: Outpoint) returns (x: TxTree)
    requires Distinct(Nodes(t)) && Boundary(t, frontier) && FundsOne(frontier, out)
    ensures x in frontier && x.input == out && FindInput(t, out) == Some(x)
  {
    x :| x in frontier && x.input == out;
    FindInputSound(t, out);
    SameNode(Nodes(t), x, FindInput(t, out).value);
  }

  lemma SubtreeLeaves(t: TxTree, x: TxTree)
    requires Distinct(Nodes(t)) && x in Nodes(t)
    ensures Distinct(Leaves(x))
  {
    SubtreeDistinct(t, x);
    LeavesDistinct(x);
  }

  lemma {:induction false} SubtreeDistinct(t: TxTree, x: TxTree)
    requires Distinct(Nodes(t)) && x in Nodes(t)
    ensures Distinct(Nodes(x))
  {
    if x != t {
      DistinctSplit([t], ForestNodes(t.children));
      ForestSubtreeDistinct(t.children, x);
    }
  }

  lemma {:induction false} ForestSubtreeDistinct(ts: seq<TxTree>, x: TxTree)
    requires Distinct(ForestNodes(ts)) && x in ForestNodes(ts)
    ensures Distinct(Nodes(x))
  {
    DistinctSplit(Nodes(ts[0]), ForestNodes(ts[1..]));
    if x in Nodes(ts[0]) {
      SubtreeDistinct(ts[0], x);
    } else {
      ForestSubtreeDistinct(ts[1..], x);
    }
  }

  lemma AddsDistinct(t: TxTree, frontier: seq<TxTree>, out: Outpoint, vtxos: seq<Outpoint>)
    requires WellFormed(t) && Boundary(t, frontier) && FundsOne(frontier, out) && Adds(t, out, vtxos)
    ensures NoRepeats(vtxos)
  {
    var x := FundedNode(t, frontier, out);
    SubtreeLeaves(t, x);
    LeafVtxosDistinct(Leaves(x));
  }

  /** A vtxo filed under one output is filed under no other one. */
  lemma AddsApart(t: TxTree, frontier: seq<TxTree>, a: Outpoint, va: seq<Outpoint>, b: Outpoint, vb: seq<Outpoint>,
                  op: Outpoint)
    requires WellFormed(t) && Boundary(t, frontier) && FundsOne(frontier, a) && FundsOne(frontier, b) && a != b
    requires Adds(t, a, va) && Adds(t, b, vb) && op in va
    ensures op !in vb
  {
    hide WellFormed, Boundary, FundsOne, LeafVtxos, Leaves, FindInput;
    WellFormedDistinct(t);
    var x := FundedNode(t, frontier, a);
    var y := FundedNode(t, frontier, b);
    FrontierNodesOf(t, frontier, x);
    FrontierNodesOf(t, frontier, y);
    if op in vb {
      if op in Under(t, a) && op in Under(t, b) {
        LeafVtxosApart(t, frontier, x, y, op);
      } else if op in Under(t, a) {
        NotALeafVtxo(t, x, y, op);
      } else if op in Under(t, b) {
        NotALeafVtxo(t, y, x, op);
      }
    }
  }

  lemma WellFormedDistinct(t: TxTree)
    requires WellFormed(t)
    ensures Distinct(Nodes(t))
  {
  }

  lemma FrontierNodesOf(t: TxTree, frontier: seq<TxTree>, x: TxTree)
    requires Boundary(t, frontier) && x in frontier
    ensures x in Nodes(t)
  {
  }

  /** Different nodes of an antichain have no leaf vtxo in common. */
  lemma LeafVtxosApart(t: TxTree, frontier: seq<TxTree>, x: TxTree, y: TxTree, op: Outpoint)
    requires Distinct(Nodes(t)) && Boundary(t, frontier) && x in frontier && y in frontier && x != y
    ensures !(op in LeafVtxos(Leaves(x)) && op in LeafVtxos(Leaves(y)))
  {
    hide LeafVtxos, Distinct, Leaves, Nodes;
    NodesApart(t, frontier, x, y);
    SubNodes(t, x);
    SubNodes(t, y);
    LeavesAreNodes(x);
    LeavesAreNodes(y);
    if op in LeafVtxos(Leaves(x)) && op in LeafVtxos(Leaves(y)) {
      LeafVtxosOrigin(Leaves(x), op);
      LeafVtxosOrigin(Leaves(y), op);
      var lx :| lx in Leaves(x) && op.txid == lx.txid;
      var ly :| ly in Leaves(y) && op.txid == ly.txid;
      SameNode(Nodes(t), lx, ly);
    }
  }

  lemma NodesApart(t: TxTree, frontier: seq<TxTree>, x: TxTree, y: TxTree)
    requires Distinct(Nodes(t)) && Boundary(t, frontier) && x in frontier && y in frontier && x != y
    ensures forall z :: z in Nodes(x) ==> z !in Nodes(y)
  {
    hide Nodes, Distinct;
    var i :| 0 <= i < |frontier| && frontier[i] == x;
    var j :| 0 <= j < |frontier| && frontier[j] == y;
    SubtreesNest(t, x, y);
  }

  lemma NotALeafVtxo(t: TxTree, x: TxTree, y: TxTree, op: Outpoint)
    requires WellFormed(t) && x in Nodes(t) && y in Nodes(t) && op in LeafVtxos(Leaves(x))
    ensures y.input != op
  {
    LeafVtxosOrigin(Leaves(x), op);
    var leaf :| leaf in Leaves(x) && op.txid == leaf.txid;
    SubNodes(t, x);
    LeavesUnspent(t, y, leaf);
  }

  // The sweep itself.

  type Filed = map<Outpoint, seq<Outpoint>>

  function FiledUnder(filed: Filed, out: Outpoint): seq<Outpoint> {
    if out in filed then filed[out] else []
  }

  ghost predicate FiledWell(t: TxTree, filed: Filed) {
    forall out :: out in filed ==> Adds(t, out, filed[out])
  }

  ghost predicate SubSeq(part: seq<Outpoint>, whole: seq<Outpoint>) {
    NoRepeats(part) && forall op :: op in part ==> op in whole
  }

  lemma Extend(part: seq<Outpoint>, whole: seq<Outpoint>, op: Outpoint)
    requires SubSeq(part, whole) && op in whole && op !in part
    ensures SubSeq(part + [op], whole)
  {
    forall i | 0 <= i < |part| ensures part[i] != op {
      assert part[i] in part;
    }
  }

  /** An output is to be swept exactly if it contributes vtxos, and these are filed under it. */
  ghost predicate Classified(t: TxTree, rows: Rows, toSweep: seq<Outpoint>, filed: Filed, out: Outpoint) {
    && (out in toSweep <==> Contributes(t, rows, out) != [])
    && FiledUnder(filed, out) == Contributes(t, rows, out)
  }

  /** Goes over the expired outputs: those to sweep, and the vtxos filed under each. */
  method ClassifyOutputs(t: TxTree, rows: Rows, due: seq<Outpoint>, up: bool)
    returns (toSweep: seq<Outpoint>, filed: Filed)
    requires Distinct(Nodes(t)) && NoRepeats(due)
    ensures SubSeq(toSweep, due) && FiledWell(t, filed)
    ensures up ==> forall out :: out in due ==> Classified(t, rows, toSweep, filed, out)
  {
    hide Adds, Distinct, Contributes;
    toSweep, filed := [], map[];
    for i := 0 to |due|
      invariant SubSeq(toSweep, due[..i]) && FiledWell(t, filed)
      invariant forall out :: out in filed ==> out in due[..i]
      invariant up ==> forall out :: out in due[..i] ==> Classified(t, rows, toSweep, filed, out)
    {
      assert due[..i + 1] == due[..i] + [due[i]];
      assert due[i] !in due[..i];
      var sweep, vtxos := ClassifyOutput(t, rows, due[i], up);
      if sweep {
        if vtxos != [] {
          assert FiledUnder(filed, due[i]) + vtxos == vtxos;
          filed := filed[due[i] := FiledUnder(filed, due[i]) + vtxos];
        }
        Extend(toSweep, due[..i + 1], due[i]);
        toSweep := toSweep + [due[i]];
      }
    }
    assert due[..|due|] == due;
  }

  /**
   Splits the outputs by their status onchain; an output spent by its own tree tx is in neither part.
   Any status that cannot be told fails the sweep.
   */
  method SplitByStatus(t: TxTree, wallet: Wallet, outs: seq<Outpoint>, up: bool)
    returns (ok: bool, unspent: seq<Outpoint>, alreadySwept: seq<Outpoint>)
    requires NoRepeats(outs)
    ensures up ==> ok
    ensures ok ==> SubSeq(unspent, outs) && SubSeq(alreadySwept, outs)
    ensures ok ==> forall out :: out in outs ==>
                     && (out in unspent <==> out !in wallet.spent)
                     && (out in alreadySwept <==> out in wallet.spent && !Unrolling(t, wallet, out))
  {
    unspent, alreadySwept := [], [];
    for i := 0 to |outs|
      invariant SubSeq(unspent, outs[..i]) && SubSeq(alreadySwept, outs[..i])
      invariant forall out :: out in outs[..i] ==>
                  && (out in unspent <==> out !in wallet.spent)
                  && (out in alreadySwept <==> out in wallet.spent && !Unrolling(t, wallet, out))
    {
      assert outs[..i + 1] == outs[..i] + [outs[i]];
      assert outs[i] !in outs[..i];
      var fails := Fails(up);
      if fails {
        return false, [], [];
      }
      if outs[i] !in wallet.spent {
        Extend(unspent, outs[..i + 1], outs[i]);
        unspent := unspent + [outs[i]];
      } else {
        var subTree := FindInput(t, outs[i]);
        if subTree.None? || subTree.value.txid !in wallet.known {
          Extend(alreadySwept, outs[..i + 1], outs[i]);
          alreadySwept := alreadySwept + [outs[i]];
        }
      }
    }
    assert outs[..|outs|] == outs;
    ok := true;
  }

  /** The vtxos filed under the outputs, one output after the other. */
  function Listed(filed: Filed, outs: seq<Outpoint>): seq<Outpoint> {
    if outs == [] then [] else Listed(filed, outs[..|outs| - 1]) + FiledUnder(filed, outs[|outs| - 1])
  }

  method ListLeaves(filed: Filed, outs: seq<Outpoint>) returns (listed: seq<Outpoint>)
    ensures listed == Listed(filed, outs)
  {
    listed := [];
    for i := 0 to |outs|
      invariant listed == Listed(filed, outs[..i])
    {
      assert outs[..i + 1][..i] == outs[..i];
      listed := listed + FiledUnder(filed, outs[i]);
    }
    assert outs[..|outs|] == outs;
  }

  lemma {:induction false} ListedAll(filed: Filed, outs: seq<Outpoint>, out: Outpoint)
    requires out in outs
    ensures forall op :: op in FiledUnder(filed, out) ==> op in Listed(filed, outs)
  {
    var n := |outs| - 1;
    if out != outs[n] {
      ListedAll(filed, outs[..n], out);
    }
  }

  lemma {:induction false} ListedOrigin(filed: Filed, outs: seq<Outpoint>, op: Outpoint)
    requires op in Listed(filed, outs)
    ensures exists out :: out in outs && op in FiledUnder(filed, out)
  {
    var n := |outs| - 1;
    if op in Listed(filed, outs[..n]) {
      ListedOrigin(filed, outs[..n], op);
    } else {
      assert outs[n] in outs;
    }
  }

  /** Each leaf is listed at most once. */
  lemma {:induction false} ListedOnce(t: TxTree, frontier: seq<TxTree>, due: seq<Outpoint>, filed: Filed, outs: seq<Outpoint>)
    requires WellFormed(t) && Separate(t, frontier, due) && FiledWell(t, filed) && SubSeq(outs, due)
    ensures NoRepeats(Listed(filed, outs))
  {
    hide WellFormed, Boundary, FundsOne, Adds;
    if outs != [] {
      var n := |outs| - 1;
      var before, last := Listed(filed, outs[..n]), FiledUnder(filed, outs[n]);
      assert outs[n] in outs;
      ListedOnce(t, frontier, due, filed, outs[..n]);
      assert Adds(t, outs[n], last) by { EmptyAdds(t, outs[n]); }
      AddsDistinct(t, frontier, outs[n], last);
      forall op | op in before ensures op !in last {
        ListedOrigin(filed, outs[..n], op);
        var out :| out in outs[..n] && op in FiledUnder(filed, out);
        AddsApart(t, frontier, out, FiledUnder(filed, out), outs[n], last, op);
      }
      NoRepeatsConcat(before, last);
    }
  }

  lemma EmptyAdds(t: TxTree, out: Outpoint)
    ensures Adds(t, out, [])
  {
  }

  lemma NoRepeatsConcat(a: seq<Outpoint>, b: seq<Outpoint>)
    requires NoRepeats(a) && NoRepeats(b) && forall op :: op in a ==> op !in b
    ensures NoRepeats(a + b)
  {
    var all := a + b;
    forall i, j | 0 <= i < j < |all| ensures all[i] != all[j] {
      if i < |a| <= j {
        assert all[i] in a && all[j] in b;
      } else if i >= |a| {
        assert all[i] == b[i - |a|] && all[j] == b[j - |a|];
      }
    }
  }

  /** No vtxo below an output that is not swept is listed. */
  lemma OthersNotListed(t: TxTree, frontier: seq<TxTree>, due: seq<Outpoint>, filed: Filed, outs: seq<Outpoint>,
                        other: Outpoint, op: Outpoint)
    requires WellFormed(t) && Separate(t, frontier, due) && FiledWell(t, filed) && SubSeq(outs, due)
    requires FundsOne(frontier, other) && other !in outs && op in Under(t, other)
    ensures op !in Listed(filed, outs)
  {
    hide WellFormed, Boundary, FundsOne, Under;
    if op in Listed(filed, outs) {
      ListedOrigin(filed, outs, op);
      var out :| out in outs && op in FiledUnder(filed, out);
      AddsApart(t, frontier, other, Under(t, other), out, FiledUnder(filed, out), op);
    }
  }

  // The outputs that are due.

  ghost predicate DistinctInputs(ts: seq<TxTree>) {
    forall i, j :: 0 <= i < j < |ts| ==> ts[i].input != ts[j].input
  }

  lemma {:induction false} ExpiringDistinct(chain: Confirmed, u: Unit, ts: seq<TxTree>, time: int)
    requires DistinctInputs(ts)
    ensures NoRepeats(Expiring(chain, u, ts, time))
  {
    if ts != [] {
      ExpiringDistinct(chain, u, ts[1..], time);
      var rest := Expiring(chain, u, ts[1..], time);
      forall i | 0 <= i < |rest| ensures rest[i] != ts[0].input {
        ExpiringOrigin(chain, u, ts[1..], time, rest[i]);
        var x :| x in ts[1..] && x.input == rest[i];
        var k :| 0 <= k < |ts[1..]| && ts[1..][k] == x;
        assert ts[k + 1] == x;
      }
    }
  }

  lemma FrontierInputs(chain: Confirmed, t: TxTree)
    requires Distinct(Nodes(t))
    ensures DistinctInputs(Frontier(chain, t)) && forall x :: x in Frontier(chain, t) ==> x in Nodes(t)
  {
    var f := Frontier(chain, t);
    FrontierNodes(chain, t);
    FrontierAntichain(chain, t);
    forall i, j | 0 <= i < j < |f| ensures f[i].input != f[j].input {
      if f[i].input == f[j].input {
        SameNode(Nodes(t), f[i], f[j]);
      }
    }
  }

  ghost predicate ExpiresIn(chain: Confirmed, u: Unit, f: seq<TxTree>, op: Outpoint, times: set<int>) {
    exists x :: x in f && x.input == op && ExpiresAt(chain, u, x) in times
  }

  /** Adding the outputs of one more expiry time keeps them separate. */
  lemma DueMore(chain: Confirmed, u: Unit, t: TxTree, due: seq<Outpoint>, done: set<int>, time: int)
    requires Distinct(Nodes(t)) && Separate(t, Frontier(chain, t), due) && time !in done
    requires forall op :: op in due ==> ExpiresIn(chain, u, Frontier(chain, t), op, done)
    ensures var due' := due + Expiring(chain, u, Frontier(chain, t), time);
            && Separate(t, Frontier(chain, t), due')
            && (forall op :: op in due' ==> ExpiresIn(chain, u, Frontier(chain, t), op, done + {time}))
  {
    hide Nodes, Frontier, Expiring, Antichain, ExpiresAt;
    var f := Frontier(chain, t);
    var more := Expiring(chain, u, f, time);
    FrontierInputs(chain, t);
    ExpiringDistinct(chain, u, f, time);
    forall op | op in more
      ensures op !in due
      ensures exists x :: x in f && x.input == op && ExpiresAt(chain, u, x) == time
    {
      ExpiringOrigin(chain, u, f, time, op);
    }
    NoRepeatsConcat(due, more);
  }

  method AnyOf<T>(s: set<T>) returns (x: T)
    requires s != {}
    ensures x in s
  {
    x :| x in s;
  }

  /**
   One run of the sweep task on a tree. listed are the leaf vtxos of the swept event, swept the outputs
   it covers, scheduled the subtrees whose sweep is put off.
   */
  method SweepBatch(chain: Confirmed, u: Unit, t: TxTree, rows: Rows, wallet: Wallet, now: int, up: bool)
    returns (ok: bool, listed: seq<Outpoint>, swept: seq<Outpoint>, scheduled: seq<seq<TxTree>>)
    requires WellFormed(t)
    ensures up ==> (ok <==> Funded(chain, Frontier(chain, t)))
    ensures ok ==> NoRepeats(listed) && NoRepeats(swept)
    ensures ok ==> forall out :: out in swept ==>
                     exists x :: x in Frontier(chain, t) && x.input == out && ExpiresAt(chain, u, x) <= now
    ensures ok ==> forall op :: op in listed ==> exists out :: out in swept && (op == out || op in Under(t, out))
    ensures ok ==> forall x, op :: x in Frontier(chain, t) && Unrolling(t, wallet, x.input) && op in Under(t, x.input) ==>
                     op !in listed
    ensures ok && up ==> forall x :: x in Frontier(chain, t) && ExpiresAt(chain, u, x) <= now ==>
                           Settles(t, rows, wallet, swept, listed, x.input)
    ensures ok && up ==> SweepsExactly(chain, u, t, rows, wallet, now, swept, listed)
    ensures forall i :: 0 <= i < |scheduled| ==> Antichain(scheduled[i])
    ensures ok ==> forall x :: x in Frontier(chain, t) && ExpiresAt(chain, u, x) > now ==> Scheduled(scheduled, x)
  {
    hide Nodes, Frontier, Expiring, Under, FindInput, Distinct, Linked, Contributes, Scheduled, ExpiresAt, FiledExactly, SweepsExactly;
    listed, swept, scheduled := [], [], [];
    var outputs;
    ok, outputs := FindSweepableOutputs(chain, u, t, up);
    if !ok {
      return;
    }
    ghost var f := Frontier(chain, t);
    assert Separate(t, f, []) by {
      FrontierInputs(chain, t);
      FrontierAntichain(chain, t);
    }
    var due: seq<Outpoint> := [];
    var times := outputs.Keys;
    ghost var done: set<int> := {};
    while times != {}
      invariant times !! done
      invariant Separate(t, f, due)
      invariant forall time :: time in done ==> time <= now
      invariant forall op :: op in due ==> ExpiresIn(chain, u, f, op, done)
      invariant forall i :: 0 <= i < |scheduled| ==> Antichain(scheduled[i])
      invariant forall x :: x in f && ExpiresAt(chain, u, x) in outputs.Keys - times ==>
                  if ExpiresAt(chain, u, x) <= now then x.input in due else Scheduled(scheduled, x)
      decreases |times|
    {
      var time := AnyOf(times);
      times := times - {time};
      forall x | x in f && ExpiresAt(chain, u, x) == time ensures x.input in At(outputs, time) && x in Nodes(t) {
        ExpiringHas(chain, u, f, time, x);
      }
      if time > now {
        var subTrees := ComputeSubTrees(t, At(outputs, time));
        forall x | x in f && ExpiresAt(chain, u, x) == time ensures Scheduled(scheduled + [subTrees], x) {
          ScheduledLast(scheduled, subTrees, x);
        }
        forall x | Scheduled(scheduled, x) ensures Scheduled(scheduled + [subTrees], x) {
          ScheduledStays(scheduled, subTrees, x);
        }
        scheduled := scheduled + [subTrees];
      } else {
        DueMore(chain, u, t, due, done, time);
        due := due + At(outputs, time);
        done := done + {time};
      }
    }
    forall x | x in f ensures ExpiresAt(chain, u, x) in outputs.Keys {
      ExpiringHas(chain, u, f, ExpiresAt(chain, u, x), x);
    }
    ok, listed, swept := SweepDue(t, rows, wallet, due, f, up);
    if up {
      SweepMeans(chain, u, t, rows, wallet, now, swept, listed);
    }
  }

  // What a sweep comes to, said of the nodes and their leaves.

  /** Neither swept nor unrolled. */
  ghost predicate AliveRow(rows: Rows, op: Outpoint) {
    op in rows && rows[op] == Row(false, false)
  }

  /** Leaf k of a subtree is the first one that holds a vtxo, and that vtxo is alive. */
  ghost predicate FirstAlive(rows: Rows, leaves: seq<TxTree>, k: nat) {
    && k < |leaves| && leaves[k].vtxo.Some? && AliveRow(rows, Outpoint(leaves[k].txid, leaves[k].vtxo.value))
    && forall i :: 0 <= i < k ==> leaves[i].vtxo.None?
  }

  /**
   The output that funds x is swept: x itself is not known to spend it, and it is a vtxo that is alive, or no
   vtxo, and the first vtxo below it is alive.
   */
  ghost predicate Sweeps(rows: Rows, wallet: Wallet, x: TxTree) {
    && !(x.input in wallet.spent && x.txid in wallet.known)
    && (if x.input in rows then AliveRow(rows, x.input) else exists k :: FirstAlive(rows, Leaves(x), k))
  }

  /** Then it lists itself, or the vtxos of all leaves below it. */
  ghost predicate Lists(rows: Rows, x: TxTree, op: Outpoint) {
    if x.input in rows then op == x.input
    else exists leaf :: leaf in Leaves(x) && leaf.vtxo.Some? && op == Outpoint(leaf.txid, leaf.vtxo.value)
  }

  ghost predicate Expired(chain: Confirmed, u: Unit, x: TxTree, now: int) {
    exists time :: DueAt(chain, u, x, time) && time <= now
  }

  /** Exactly these expired outputs are swept, and exactly their vtxos are listed. */
  ghost predicate SweepsExactly(
    chain: Confirmed, u: Unit, t: TxTree, rows: Rows, wallet: Wallet, now: int, swept: seq<Outpoint>, listed: seq<Outpoint>)
  {
    && (forall x :: x in Frontier(chain, t) ==> (x.input in swept <==> Expired(chain, u, x, now) && Sweeps(rows, wallet, x)))
    && (forall op :: op in listed <==>
          exists x :: x in Frontier(chain, t) && Expired(chain, u, x, now) && Sweeps(rows, wallet, x) && Lists(rows, x, op))
  }

  lemma {:induction false} LeafVtxosMean(leaves: seq<TxTree>, op: Outpoint)
    ensures op in LeafVtxos(leaves) <==>
              exists leaf :: leaf in leaves && leaf.vtxo.Some? && op == Outpoint(leaf.txid, leaf.vtxo.value)
  {
    if leaves != [] {
      var n := |leaves| - 1;
      LeafVtxosMean(leaves[..n], op);
      assert leaves == leaves[..n] + [leaves[n]];
    }
  }

  /** The first vtxo of the leaves is that of the first leaf that holds one. */
  lemma {:induction false} FirstLeafVtxo(leaves: seq<TxTree>) returns (k: nat)
    ensures LeafVtxos(leaves) == [] ==> forall i :: 0 <= i < |leaves| ==> leaves[i].vtxo.None?
    ensures LeafVtxos(leaves) != [] ==>
              && k < |leaves| && leaves[k].vtxo.Some? && LeafVtxos(leaves)[0] == Outpoint(leaves[k].txid, leaves[k].vtxo.value)
              && forall i :: 0 <= i < k ==> leaves[i].vtxo.None?
  {
    k := 0;
    if leaves != [] {
      var n := |leaves| - 1;
      k := FirstLeafVtxo(leaves[..n]);
      if LeafVtxos(leaves[..n]) == [] {
        k := n;
        assert forall i :: 0 <= i < n ==> leaves[i] == leaves[..n][i];
      } else {
        assert forall i :: 0 <= i <= k ==> leaves[i] == leaves[..n][i];
      }
    }
  }

  lemma ContributesMeans(t: TxTree, rows: Rows, wallet: Wallet, x: TxTree)
    requires FindInput(t, x.input) == Some(x)
    ensures Sweeps(rows, wallet, x) <==> Contributes(t, rows, x.input) != [] && !Unrolling(t, wallet, x.input)
    ensures Sweeps(rows, wallet, x) ==> forall op :: op in Contributes(t, rows, x.input) <==> Lists(rows, x, op)
  {
    hide FindInput, Leaves, LeafVtxos;
    var leaves := Leaves(x);
    var k := FirstLeafVtxo(leaves);
    if x.input !in rows {
      if exists i :: FirstAlive(rows, leaves, i) {
        var i :| FirstAlive(rows, leaves, i);
        assert i == k;
      }
      assert LeafVtxos(leaves) != [] && Live(rows, LeafVtxos(leaves)[0]) ==> FirstAlive(rows, leaves, k);
      forall op ensures op in LeafVtxos(leaves) <==> Lists(rows, x, op) {
        LeafVtxosMean(leaves, op);
      }
    }
  }

  lemma FrontierFound(chain: Confirmed, t: TxTree, x: TxTree)
    requires Distinct(Nodes(t)) && x in Frontier(chain, t)
    ensures FindInput(t, x.input) == Some(x)
  {
    FrontierNodes(chain, t);
    FindInputSound(t, x.input);
    SameNode(Nodes(t), x, FindInput(t, x.input).value);
  }

  lemma ExpiredMeans(chain: Confirmed, u: Unit, x: TxTree, now: int)
    requires x.input.txid in chain
    ensures Expired(chain, u, x, now) <==> ExpiresAt(chain, u, x) <= now
  {
    ExpiresWhenDue(chain, u, x, ExpiresAt(chain, u, x));
  }

  lemma SweepMeans(
    chain: Confirmed, u: Unit, t: TxTree, rows: Rows, wallet: Wallet, now: int, swept: seq<Outpoint>, listed: seq<Outpoint>)
    requires WellFormed(t) && Funded(chain, Frontier(chain, t))
    requires forall x :: x in Frontier(chain, t) && ExpiresAt(chain, u, x) <= now ==>
               Settles(t, rows, wallet, swept, listed, x.input)
    requires forall out :: out in swept ==>
               exists x :: x in Frontier(chain, t) && x.input == out && ExpiresAt(chain, u, x) <= now
    requires forall op :: op in listed ==> exists out :: out in swept && op in Contributes(t, rows, out)
    ensures SweepsExactly(chain, u, t, rows, wallet, now, swept, listed)
  {
    hide Nodes, Frontier, FindInput, Distinct, Linked, Contributes, Unrolling, ExpiresAt, Expired, Sweeps, Lists;
    var f := Frontier(chain, t);
    forall x | x in f
      ensures FindInput(t, x.input) == Some(x) && (Expired(chain, u, x, now) <==> ExpiresAt(chain, u, x) <= now)
      ensures Sweeps(rows, wallet, x) <==> Contributes(t, rows, x.input) != [] && !Unrolling(t, wallet, x.input)
      ensures Sweeps(rows, wallet, x) ==> forall op :: op in Contributes(t, rows, x.input) <==> Lists(rows, x, op)
    {
      FrontierFound(chain, t, x);
      ExpiredMeans(chain, u, x, now);
      ContributesMeans(t, rows, wallet, x);
    }
    forall x | x in f ensures x.input in swept <==> Expired(chain, u, x, now) && Sweeps(rows, wallet, x) {
      if x.input in swept {
        var y :| y in f && y.input == x.input && ExpiresAt(chain, u, y) <= now;
        assert FindInput(t, y.input) == Some(y);
      }
    }
    forall op | op in listed
      ensures exists x :: x in f && Expired(chain, u, x, now) && Sweeps(rows, wallet, x) && Lists(rows, x, op)
    {
      var out :| out in swept && op in Contributes(t, rows, out);
      var x :| x in f && x.input == out && ExpiresAt(chain, u, x) <= now;
    }
  }

  /** The node lies in one of the subtrees whose sweep is put off. */
  ghost predicate Scheduled(scheduled: seq<seq<TxTree>>, x: TxTree) {
    exists i, k :: 0 <= i < |scheduled| && k in scheduled[i] && x in Nodes(k)
  }

  lemma ScheduledLast(scheduled: seq<seq<TxTree>>, more: seq<TxTree>, x: TxTree)
    requires exists k :: k in more && x in Nodes(k)
    ensures Scheduled(scheduled + [more], x)
  {
    var all := scheduled + [more];
    assert all[|scheduled|] == more;
  }

  lemma ScheduledStays(scheduled: seq<seq<TxTree>>, more: seq<TxTree>, x: TxTree)
    requires Scheduled(scheduled, x)
    ensures Scheduled(scheduled + [more], x)
  {
    var i, k :| 0 <= i < |scheduled| && k in scheduled[i] && x in Nodes(k);
    assert (scheduled + [more])[i] == scheduled[i];
  }

  /** The output is swept unless it contributes nothing or is being unrolled; then all it contributes is listed. */
  ghost predicate Settles(t: TxTree, rows: Rows, wallet: Wallet, swept: seq<Outpoint>, listed: seq<Outpoint>, out: Outpoint)
  {
    && (out in swept <==> Contributes(t, rows, out) != [] && !Unrolling(t, wallet, out))
    && (out in swept ==> forall op :: op in Contributes(t, rows, out) ==> op in listed)
  }

  /** Sweeps the outputs that are due. */
  method SweepDue(t: TxTree, rows: Rows, wallet: Wallet, due: seq<Outpoint>, ghost f: seq<TxTree>, up: bool)
    returns (ok: bool, listed: seq<Outpoint>, swept: seq<Outpoint>)
    requires WellFormed(t) && Separate(t, f, due)
    ensures up ==> ok
    ensures ok ==> NoRepeats(listed) && SubSeq(swept, due)
    ensures ok ==> forall op :: op in listed ==> exists out :: out in swept && (op == out || op in Under(t, out))
    ensures ok ==> forall x, op :: x in f && Unrolling(t, wallet, x.input) && op in Under(t, x.input) ==> op !in listed
    ensures up ==> forall out :: out in due ==> Settles(t, rows, wallet, swept, listed, out)
    ensures up ==> forall op :: op in listed ==> exists out :: out in swept && op in Contributes(t, rows, out)
  {
    hide Nodes, Distinct, Linked, Antichain, Contributes, Unrolling;
    listed, swept := [], [];
    var toSweep, filed := ClassifyOutputs(t, rows, due, up);
    var unspent, alreadySwept;
    ok, unspent, alreadySwept := SplitByStatus(t, wallet, toSweep, up);
    if !ok {
      return;
    }
    swept := unspent + alreadySwept;
    forall out | out in unspent ensures !Unrolling(t, wallet, out) {
      UnspentNotUnrolling(t, wallet, out);
    }
    NoRepeatsConcat(unspent, alreadySwept);
    listed := ListLeaves(filed, swept);
    ListedOnce(t, f, due, filed, swept);
    forall op | op in listed ensures exists out :: out in swept && (op == out || op in Under(t, out)) {
      ListedOrigin(filed, swept, op);
      var out :| out in swept && op in FiledUnder(filed, out);
      assert Adds(t, out, filed[out]);
    }
    forall x, op | x in f && Unrolling(t, wallet, x.input) && op in Under(t, x.input) ensures op !in listed {
      OthersNotListed(t, f, due, filed, swept, x.input, op);
    }
    if up {
      forall out | out in due ensures Settles(t, rows, wallet, swept, listed, out) {
        assert Classified(t, rows, toSweep, filed, out);
        if out in swept {
          ListedAll(filed, swept, out);
        }
      }
      forall op | op in listed ensures exists out :: out in swept && op in Contributes(t, rows, out) {
        ListedOrigin(filed, swept, op);
        var out :| out in swept && op in FiledUnder(filed, out);
        assert Classified(t, rows, toSweep, filed, out);
      }
    }
  }

  lemma UnspentNotUnrolling(t: TxTree, wallet: Wallet, out: Outpoint)
    requires out !in wallet.spent
    ensures !Unrolling(t, wallet, out)
  {
  }
}
