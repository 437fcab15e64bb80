/** The outputs of a partly unrolled batch tree that can be swept: those on the boundary of the chain. */
module SweepFrontier {
  import opened Outpoints
  import opened TxTrees

  datatype Unit = BlockHeight | UnixTime

  datatype BlockStamp = BlockStamp(height: int, time: int)

  /** The txs confirmed on the chain. */
  type Confirmed = map<Txid, BlockStamp>

  function Stamp(s: BlockStamp, u: Unit): int {
    if u.BlockHeight? then s.height else s.time
  }

  /** The topmost nodes that are not on the chain: the outputs that fund them are unspent by the tree. */
  function Frontier(chain: Confirmed, t: TxTree): seq<TxTree> {
    if t.txid in chain then ForestFrontier(chain, t.children) else [t]
  }

  function ForestFrontier(chain: Confirmed, ts: seq<TxTree>): seq<TxTree> {
    if ts == [] then [] else Frontier(chain, ts[0]) + ForestFrontier(chain, ts[1..])
  }

  // The frontier is an antichain that splits the leaves.

  /** Every tx between the root and the leaf is on the chain. */
  ghost predicate FullyOnchain(chain: Confirmed, nodes: seq<TxTree>, leaf: TxTree) {
    forall x :: x in nodes && leaf in Leaves(x) ==> x.txid in chain
  }

  /** Frontier nodes are nodes, and no frontier node lies below another one. */
  ghost predicate Antichain(frontier: seq<TxTree>) {
    forall i, j :: 0 <= i < |frontier| && 0 <= j < |frontier| && i != j ==> frontier[i] !in Nodes(frontier[j])
  }

  lemma {:induction false} FrontierNodes(chain: Confirmed, t: TxTree)
    ensures forall x :: x in Frontier(chain, t) ==> x in Nodes(t) && x.txid !in chain
  {
    ForestFrontierNodes(chain, t.children);
  }

  lemma {:induction false} ForestFrontierNodes(chain: Confirmed, ts: seq<TxTree>)
    ensures forall x :: x in ForestFrontier(chain, ts) ==> x in ForestNodes(ts) && x.txid !in chain
  {
    if ts != [] {
      FrontierNodes(chain, ts[0]);
      ForestFrontierNodes(chain, ts[1..]);
    }
  }

  /** Everything below nodes of one forest stays apart from everything below nodes of another. */
  lemma ApartBelow(a: seq<TxTree>, b: seq<TxTree>, x: TxTree, y: TxTree)
    requires Distinct(ForestNodes(a) + ForestNodes(b)) && x in ForestNodes(a) && y in ForestNodes(b)
    ensures forall z :: z in Nodes(x) ==> z !in Nodes(y)
    ensures forall z :: z in Leaves(x) ==> z !in Leaves(y)
  {
    DistinctSplit(ForestNodes(a), ForestNodes(b));
    ForestSubNodes(a, x);
    ForestSubNodes(b, y);
    LeavesAreNodes(x);
    LeavesAreNodes(y);
  }

  lemma Singleton(t: TxTree)
    ensures ForestNodes([t]) == Nodes(t) && ForestLeaves([t]) == Leaves(t)
  {
    assert [t][1..] == [];
  }

  lemma {:induction false} FrontierAntichain(chain: Confirmed, t: TxTree)
    requires Distinct(Nodes(t))
    ensures Antichain(Frontier(chain, t))
  {
    if t.txid in chain {
      DistinctSplit([t], ForestNodes(t.children));
      ForestFrontierAntichain(chain, t.children);
    }
  }

  lemma {:induction false} ForestFrontierAntichain(chain: Confirmed, ts: seq<TxTree>)
    requires Distinct(ForestNodes(ts))
    ensures Antichain(ForestFrontier(chain, ts))
  {
    if ts != [] {
      DistinctSplit(Nodes(ts[0]), ForestNodes(ts[1..]));
      FrontierAntichain(chain, ts[0]);
      ForestFrontierAntichain(chain, ts[1..]);
      FrontierNodes(chain, ts[0]);
      ForestFrontierNodes(chain, ts[1..]);
      Singleton(ts[0]);
      AntichainConcat(Frontier(chain, ts[0]), ForestFrontier(chain, ts[1..]), [ts[0]], ts[1..]);
    }
  }

  lemma AntichainConcat(f: seq<TxTree>, g: seq<TxTree>, a: seq<TxTree>, b: seq<TxTree>)
    requires Antichain(f) && Antichain(g) && Distinct(ForestNodes(a) + ForestNodes(b))
    requires (forall x :: x in f ==> x in ForestNodes(a)) && (forall y :: y in g ==> y in ForestNodes(b))
    ensures Antichain(f + g)
  {
    var all := f + g;
    forall i, j | 0 <= i < |all| && 0 <= j < |all| && i != j ensures all[i] !in Nodes(all[j]) {
      if i < |f| <= j {
        ApartBelow(a, b, all[i], all[j]);
        assert all[i] in Nodes(all[i]);
      } else if j < |f| <= i {
        ApartBelow(a, b, all[j], all[i]);
        assert all[i] in Nodes(all[i]);
      } else if i >= |f| {
        assert all[i] == g[i - |f|] && all[j] == g[j - |f|];
      }
    }
  }

  /** A leaf is below the frontier exactly if some tx above it, or itself, is not on the chain. */
  lemma {:induction false} FrontierSplitsLeaves(chain: Confirmed, t: TxTree, leaf: TxTree)
    requires Distinct(Nodes(t)) && leaf in Leaves(t)
    ensures leaf in ForestLeaves(Frontier(chain, t)) <==> !FullyOnchain(chain, Nodes(t), leaf)
  {
    Singleton(t);
    assert t in Nodes(t);
    if t.txid in chain {
      DistinctSplit([t], ForestNodes(t.children));
      if t.children != [] {
        ForestFrontierSplitsLeaves(chain, t.children, leaf);
        assert FullyOnchain(chain, Nodes(t), leaf) <==> FullyOnchain(chain, ForestNodes(t.children), leaf);
      }
    }
  }

  lemma {:induction false} ForestFrontierSplitsLeaves(chain: Confirmed, ts: seq<TxTree>, leaf: TxTree)
    requires Distinct(ForestNodes(ts)) && leaf in ForestLeaves(ts)
    ensures leaf in ForestLeaves(ForestFrontier(chain, ts)) <==> !FullyOnchain(chain, ForestNodes(ts), leaf)
  {
    var first, rest := Nodes(ts[0]), ForestNodes(ts[1..]);
    DistinctSplit(first, rest);
    Singleton(ts[0]);
    LeavesConcat(Frontier(chain, ts[0]), ForestFrontier(chain, ts[1..]));
    if leaf in Leaves(ts[0]) {
      FrontierSplitsLeaves(chain, ts[0], leaf);
      OnlyIn(chain, [ts[0]], ts[1..], leaf);
    } else {
      ForestFrontierSplitsLeaves(chain, ts[1..], leaf);
      OnlyInSecond(chain, [ts[0]], ts[1..], leaf);
    }
  }

  lemma {:induction false} LeavesConcat(a: seq<TxTree>, b: seq<TxTree>)
    ensures ForestLeaves(a + b) == ForestLeaves(a) + ForestLeaves(b)
    decreases |a|
  {
    if a == [] {
      assert a + b == b;
    } else {
      LeavesConcat(a[1..], b);
      assert (a + b)[1..] == a[1..] + b;
    }
  }

  /** A leaf of the first forest has nothing to do with the second one. */
  lemma OnlyIn(chain: Confirmed, a: seq<TxTree>, b: seq<TxTree>, leaf: TxTree)
    requires Distinct(ForestNodes(a) + ForestNodes(b)) && leaf in ForestLeaves(a)
    ensures leaf !in ForestLeaves(ForestFrontier(chain, b))
    ensures FullyOnchain(chain, ForestNodes(a) + ForestNodes(b), leaf) <==> FullyOnchain(chain, ForestNodes(a), leaf)
  {
    ForestLeavesAreNodes(a);
    assert Leaves(leaf) == [leaf];
    forall y | y in ForestNodes(b) ensures leaf !in Leaves(y) {
      ApartBelow(a, b, leaf, y);
    }
    ForestFrontierNodes(chain, b);
    NotBelow(ForestFrontier(chain, b), leaf);
  }

  lemma OnlyInSecond(chain: Confirmed, a: seq<TxTree>, b: seq<TxTree>, leaf: TxTree)
    requires Distinct(ForestNodes(a) + ForestNodes(b)) && leaf in ForestLeaves(b) && |a| == 1
    ensures leaf !in ForestLeaves(Frontier(chain, a[0]))
    ensures FullyOnchain(chain, ForestNodes(a) + ForestNodes(b), leaf) <==> FullyOnchain(chain, ForestNodes(b), leaf)
  {
    ForestLeavesAreNodes(b);
    assert Leaves(leaf) == [leaf];
    forall x | x in ForestNodes(a) ensures leaf !in Leaves(x) {
      ApartBelow(a, b, x, leaf);
    }
    assert a == [a[0]];
    Singleton(a[0]);
    FrontierNodes(chain, a[0]);
    NotBelow(Frontier(chain, a[0]), leaf);
  }

  lemma {:induction false} NotBelow(ts: seq<TxTree>, leaf: TxTree)
    requires forall x :: x in ts ==> leaf !in Leaves(x)
    ensures leaf !in ForestLeaves(ts)
  {
    if ts != [] {
      NotBelow(ts[1..], leaf);
    }
  }

  lemma DistinctConcat(a: seq<TxTree>, b: seq<TxTree>)
    requires Distinct(a) && Distinct(b)
    requires forall x, y :: x in a && y in b ==> x.txid != y.txid && x.input != y.input
    ensures Distinct(a + b)
  {
    var all := a + b;
    forall i, j | 0 <= i < j < |all| ensures all[i].txid != all[j].txid && all[i].input != all[j].input {
      if i < |a| <= j {
        assert all[i] in a && all[j] in b;
      } else if i >= |a| {
        assert all[i] == b[i - |a|] && all[j] == b[j - |a|];
      }
    }
  }

  lemma {:induction false} LeavesDistinct(t: TxTree)
    requires Distinct(Nodes(t))
    ensures Distinct(Leaves(t))
  {
    DistinctSplit([t], ForestNodes(t.children));
    ForestLeavesDistinct(t.children);
  }

  lemma {:induction false} ForestLeavesDistinct(ts: seq<TxTree>)
    requires Distinct(ForestNodes(ts))
    ensures Distinct(ForestLeaves(ts))
  {
    if ts != [] {
      DistinctSplit(Nodes(ts[0]), ForestNodes(ts[1..]));
      LeavesDistinct(ts[0]);
      ForestLeavesDistinct(ts[1..]);
      LeavesAreNodes(ts[0]);
      ForestLeavesAreNodes(ts[1..]);
      DistinctConcat(Leaves(ts[0]), ForestLeaves(ts[1..]));
    }
  }

  lemma {:induction false} FrontierLeavesDistinct(chain: Confirmed, t: TxTree)
    requires Distinct(Nodes(t))
    ensures Distinct(ForestLeaves(Frontier(chain, t)))
    ensures forall x :: x in ForestLeaves(Frontier(chain, t)) ==> x in Leaves(t)
  {
    if t.txid in chain {
      DistinctSplit([t], ForestNodes(t.children));
      ForestFrontierLeavesDistinct(chain, t.children);
    } else {
      Singleton(t);
      LeavesDistinct(t);
    }
  }

  lemma {:induction false} ForestFrontierLeavesDistinct(chain: Confirmed, ts: seq<TxTree>)
    requires Distinct(ForestNodes(ts))
    ensures Distinct(ForestLeaves(ForestFrontier(chain, ts)))
    ensures forall x :: x in ForestLeaves(ForestFrontier(chain, ts)) ==> x in ForestLeaves(ts)
  {
    if ts != [] {
      DistinctSplit(Nodes(ts[0]), ForestNodes(ts[1..]));
      FrontierLeavesDistinct(chain, ts[0]);
      ForestFrontierLeavesDistinct(chain, ts[1..]);
      LeavesConcat(Frontier(chain, ts[0]), ForestFrontier(chain, ts[1..]));
      LeavesAreNodes(ts[0]);
      ForestLeavesAreNodes(ts[1..]);
      DistinctConcat(ForestLeaves(Frontier(chain, ts[0])), ForestLeaves(ForestFrontier(chain, ts[1..])));
    }
  }

  /**
   The frontier is an antichain, and the leaves below it are, each one once, the leaves of the tree
   that are not fully onchain.
   */
  lemma FrontierPartition(chain: Confirmed, t: TxTree)
    requires Distinct(Nodes(t))
    ensures Antichain(Frontier(chain, t))
    ensures Distinct(ForestLeaves(Frontier(chain, t)))
    ensures forall leaf :: leaf in ForestLeaves(Frontier(chain, t)) <==>
              leaf in Leaves(t) && !FullyOnchain(chain, Nodes(t), leaf)
  {
    hide FullyOnchain, Frontier;
    FrontierAntichain(chain, t);
    FrontierLeavesDistinct(chain, t);
    forall leaf | leaf in Leaves(t)
      ensures leaf in ForestLeaves(Frontier(chain, t)) <==> !FullyOnchain(chain, Nodes(t), leaf)
    {
      FrontierSplitsLeaves(chain, t, leaf);
    }
  }

  // Finding the frontier by applying a callback to the tree.

  datatype Query<+T> = Answer(value: T) | NoAnswer

  /** IsTransactionConfirmed; the query may fail. */
  method IsConfirmed(chain: Confirmed, txid: Txid, up: bool) returns (r: Query<Option<BlockStamp>>)
    ensures up ==> r.Answer?
    ensures r.Answer? ==> r.value == if txid in chain then Some(chain[txid]) else None
  {
    var fails := Fails(up);
    if fails {
      return NoAnswer;
    }
    return Answer(if txid in chain then Some(chain[txid]) else None);
  }

  type Outputs = map<int, seq<Outpoint>>

  function At(outputs: Outputs, time: int): seq<Outpoint> {
    if time in outputs then outputs[time] else []
  }

  function ExpiresAt(chain: Confirmed, u: Unit, t: TxTree): int {
    (if t.input.txid in chain then Stamp(chain[t.input.txid], u) else 0) + t.expiry
  }

  /** The inputs of the nodes that expire at time, in their order. */
  function Expiring(chain: Confirmed, u: Unit, ts: seq<TxTree>, time: int): seq<Outpoint> {
    if ts == [] then []
    else (if ExpiresAt(chain, u, ts[0]) == time then [ts[0].input] else []) + Expiring(chain, u, ts[1..], time)
  }

  lemma {:induction false} ExpiringConcat(chain: Confirmed, u: Unit, a: seq<TxTree>, b: seq<TxTree>, time: int)
    ensures Expiring(chain, u, a + b, time) == Expiring(chain, u, a, time) + Expiring(chain, u, b, time)
    decreases |a|
  {
    hide ExpiresAt;
    if a == [] {
      assert a + b == b;
    } else {
      ExpiringConcat(chain, u, a[1..], b, time);
      assert (a + b)[1..] == a[1..] + b;
    }
  }

  lemma {:induction false} ExpiringOrigin(chain: Confirmed, u: Unit, ts: seq<TxTree>, time: int, op: Outpoint)
    requires op in Expiring(chain, u, ts, time)
    ensures exists x :: x in ts && x.input == op && ExpiresAt(chain, u, x) == time
  {
    if ExpiresAt(chain, u, ts[0]) != time || op != ts[0].input {
      ExpiringOrigin(chain, u, ts[1..], time, op);
    }
  }

  lemma {:induction false} ExpiringHas(chain: Confirmed, u: Unit, ts: seq<TxTree>, time: int, x: TxTree)
    requires x in ts && ExpiresAt(chain, u, x) == time
    ensures x.input in Expiring(chain, u, ts, time)
  {
    if x != ts[0] {
      ExpiringHas(chain, u, ts[1..], time, x);
    }
  }

  ghost predicate Stamped(chain: Confirmed, u: Unit, cache: map<Txid, int>) {
    forall txid :: txid in cache ==> txid in chain && cache[txid] == Stamp(chain[txid], u)
  }

  /** outputs' adds to outputs what the nodes fund, under the times at which they expire. */
  ghost predicate Adds(chain: Confirmed, u: Unit, outputs: Outputs, outputs': Outputs, ts: seq<TxTree>) {
    forall time :: At(outputs', time) == At(outputs, time) + Expiring(chain, u, ts, time)
  }

  ghost predicate Funded(chain: Confirmed, ts: seq<TxTree>) {
    forall x :: x in ts ==> x.input.txid in chain
  }

  method ApplySweepable(chain: Confirmed, u: Unit, t: TxTree, cache: map<Txid, int>, outputs: Outputs, up: bool)
    returns (ok: bool, cache': map<Txid, int>, outputs': Outputs)
    requires Stamped(chain, u, cache)
    ensures Stamped(chain, u, cache')
    ensures ok ==> Adds(chain, u, outputs, outputs', Frontier(chain, t)) && Funded(chain, Frontier(chain, t))
    ensures ok && outputs == map[] ==> FiledExactly(chain, u, Frontier(chain, t), outputs')
    ensures up && Funded(chain, Frontier(chain, t)) ==> ok
    decreases t
  {
    hide Adds, Expiring, At, FiledExactly;
    cache', outputs' := cache, outputs;
    var confirmed := IsConfirmed(chain, t.txid, up);
    if confirmed.NoAnswer? {
      return false, cache', outputs';
    }
    if confirmed.value.None? {
      var parent := t.input.txid;
      if parent !in cache' {
        var p := IsConfirmed(chain, parent, up);
        if p.NoAnswer? || p.value.None? {
          return false, cache', outputs';
        }
        cache' := cache'[parent := Stamp(p.value.value, u)];
      }
      var sweepable := GetSweepableBatchOutputs(t, up);
      if sweepable.NoAnswer? {
        return false, cache', outputs';
      }
      var time := cache'[parent] + sweepable.value.0;
      outputs' := outputs'[time := At(outputs', time) + [sweepable.value.1]];
      AddsOne(chain, u, outputs, t);
      AddsFiled(chain, u, outputs, outputs', Frontier(chain, t));
      return true, cache', outputs';
    }
    cache' := cache'[t.txid := Stamp(confirmed.value.value, u)];
    ok := true;
    AddsNothing(chain, u, outputs);
    assert t.children[..0] == [];
    for i := 0 to |t.children|
      invariant Stamped(chain, u, cache')
      invariant Adds(chain, u, outputs, outputs', ForestFrontier(chain, t.children[..i]))
      invariant Funded(chain, ForestFrontier(chain, t.children[..i]))
    {
      ghost var before := outputs';
      ok, cache', outputs' := ApplySweepable(chain, u, t.children[i], cache', outputs', up);
      if !ok {
        ChildFrontier(chain, t.children, i);
        return;
      }
      AddsMore(chain, u, outputs, before, outputs', t.children, i);
    }
    assert t.children[..|t.children|] == t.children;
    AddsFiled(chain, u, outputs, outputs', Frontier(chain, t));
  }

  lemma ChildFrontier(chain: Confirmed, ts: seq<TxTree>, i: nat)
    requires i < |ts|
    ensures forall x :: x in Frontier(chain, ts[i]) ==> x in ForestFrontier(chain, ts)
  {
    if i > 0 {
      ChildFrontier(chain, ts[1..], i - 1);
    }
  }

  lemma AddsOne(chain: Confirmed, u: Unit, outputs: Outputs, t: TxTree)
    ensures var time := ExpiresAt(chain, u, t);
            Adds(chain, u, outputs, outputs[time := At(outputs, time) + [t.input]], [t])
  {
    var at := ExpiresAt(chain, u, t);
    var outputs' := outputs[at := At(outputs, at) + [t.input]];
    assert [t][1..] == [];
    forall time ensures At(outputs', time) == At(outputs, time) + Expiring(chain, u, [t], time) {
      assert Expiring(chain, u, [t], time) == if time == at then [t.input] else [];
    }
  }

  lemma AddsNothing(chain: Confirmed, u: Unit, outputs: Outputs)
    ensures Adds(chain, u, outputs, outputs, [])
  {
  }

  /** The expiry of a batch output and the outpoint that funds the root of the subtree. */
  method GetSweepableBatchOutputs(t: TxTree, up: bool) returns (r: Query<(nat, Outpoint)>)
    ensures up ==> r.Answer?
    ensures r.Answer? ==> r.value == (t.expiry, t.input)
  {
    var fails := Fails(up);
    if fails {
      return NoAnswer;
    }
    return Answer((t.expiry, t.input));
  }

  lemma {:induction false} ForestFrontierSnoc(chain: Confirmed, ts: seq<TxTree>, t: TxTree)
    ensures ForestFrontier(chain, ts + [t]) == ForestFrontier(chain, ts) + Frontier(chain, t)
    decreases |ts|
  {
    if ts == [] {
      assert ts + [t] == [t] && [t][1..] == [];
    } else {
      ForestFrontierSnoc(chain, ts[1..], t);
      assert (ts + [t])[1..] == ts[1..] + [t];
    }
  }

  lemma AddsMore(chain: Confirmed, u: Unit, o: Outputs, o1: Outputs, o2: Outputs, ts: seq<TxTree>, i: nat)
    requires i < |ts| && Adds(chain, u, o, o1, ForestFrontier(chain, ts[..i])) && Adds(chain, u, o1, o2, Frontier(chain, ts[i]))
    ensures Adds(chain, u, o, o2, ForestFrontier(chain, ts[..i + 1]))
    ensures ForestFrontier(chain, ts[..i + 1]) == ForestFrontier(chain, ts[..i]) + Frontier(chain, ts[i])
  {
    hide Expiring, ForestFrontier, Frontier, At;
    assert ts[..i + 1] == ts[..i] + [ts[i]];
    ForestFrontierSnoc(chain, ts[..i], ts[i]);
    forall time
      ensures At(o2, time) == At(o, time) + Expiring(chain, u, ForestFrontier(chain, ts[..i + 1]), time)
    {
      ExpiringConcat(chain, u, ForestFrontier(chain, ts[..i]), Frontier(chain, ts[i]), time);
    }
  }

  /** The output that funds x is at the height, or the time, of its tx plus its expiry. */
  ghost predicate DueAt(chain: Confirmed, u: Unit, x: TxTree, time: int) {
    && x.input.txid in chain
    && (u.BlockHeight? ==> time == chain[x.input.txid].height + x.expiry)
    && (u.UnixTime? ==> time == chain[x.input.txid].time + x.expiry)
  }

  /** Every output that funds one of the nodes is filed when it is due, and nothing else is filed. */
  ghost predicate FiledExactly(chain: Confirmed, u: Unit, ts: seq<TxTree>, outputs: Outputs) {
    && (forall x, time :: x in ts && DueAt(chain, u, x, time) ==> time in outputs && x.input in outputs[time])
    && (forall time, op :: time in outputs && op in outputs[time] ==>
          exists x :: x in ts && x.input == op && DueAt(chain, u, x, time))
  }

  lemma ExpiresWhenDue(chain: Confirmed, u: Unit, x: TxTree, time: int)
    requires x.input.txid in chain
    ensures DueAt(chain, u, x, time) <==> ExpiresAt(chain, u, x) == time
  {
  }

  lemma AddsFiled(chain: Confirmed, u: Unit, before: Outputs, outputs: Outputs, ts: seq<TxTree>)
    requires Adds(chain, u, before, outputs, ts) && Funded(chain, ts)
    ensures before == map[] ==> FiledExactly(chain, u, ts, outputs)
  {
    hide Expiring, ExpiresAt, DueAt;
    if before != map[] {
      return;
    }
    forall x, time | x in ts && DueAt(chain, u, x, time) ensures time in outputs && x.input in outputs[time] {
      ExpiresWhenDue(chain, u, x, time);
      ExpiringHas(chain, u, ts, time, x);
      assert x.input in At(outputs, time);
    }
    forall time, op | time in outputs && op in outputs[time]
      ensures exists x :: x in ts && x.input == op && DueAt(chain, u, x, time)
    {
      assert op in At(outputs, time);
      ExpiringOrigin(chain, u, ts, time, op);
      var x :| x in ts && x.input == op && ExpiresAt(chain, u, x) == time;
      ExpiresWhenDue(chain, u, x, time);
    }
  }

  /**
   A node is on the frontier exactly if it is not on the chain and every node above it is. For
   a tree whose nodes are told apart.
   */
  lemma {:induction false} FrontierMeans(chain: Confirmed, t: TxTree, x: TxTree)
    requires Distinct(Nodes(t)) && x in Nodes(t)
    ensures x in Frontier(chain, t) <==>
              x.txid !in chain && forall y :: y in Nodes(t) && x in Nodes(y) && y != x ==> y.txid in chain
  {
    DistinctSplit([t], ForestNodes(t.children));
    if x != t {
      ForestFrontierMeans(chain, t.children, x);
      assert t in Nodes(t) && x in Nodes(t);
      assert forall y :: y in Nodes(t) <==> y == t || y in ForestNodes(t.children);
    } else {
      forall y | y in Nodes(t) && t in Nodes(y) ensures y == t {
        SubSize(t, y);
        SubSize(y, t);
      }
      ForestFrontierNodes(chain, t.children);
    }
  }

  lemma {:induction false} ForestFrontierMeans(chain: Confirmed, ts: seq<TxTree>, x: TxTree)
    requires Distinct(ForestNodes(ts)) && x in ForestNodes(ts)
    ensures x in ForestFrontier(chain, ts) <==>
              x.txid !in chain && forall y :: y in ForestNodes(ts) && x in Nodes(y) && y != x ==> y.txid in chain
  {
    var first, rest := Nodes(ts[0]), ForestNodes(ts[1..]);
    DistinctSplit(first, rest);
    FrontierNodes(chain, ts[0]);
    ForestFrontierNodes(chain, ts[1..]);
    if x in first {
      FrontierMeans(chain, ts[0], x);
      forall y | y in rest ensures x !in Nodes(y) {
        ForestSubNodes(ts[1..], y);
      }
    } else {
      ForestFrontierMeans(chain, ts[1..], x);
      forall y | y in first ensures x !in Nodes(y) {
        SubNodes(ts[0], y);
      }
    }
  }

  /**
   On success the outputs are those that fund the frontier, filed under the height, or the time, of their tx
   plus their expiry, and nothing else. While the wallet is up it succeeds exactly if all txs that fund the
   frontier are confirmed.
   */
  method FindSweepableOutputs(chain: Confirmed, u: Unit, t: TxTree, up: bool) returns (ok: bool, outputs: Outputs)
    ensures up ==> (ok <==> Funded(chain, Frontier(chain, t)))
    ensures ok ==> FiledExactly(chain, u, Frontier(chain, t), outputs)
    ensures ok ==> forall time :: At(outputs, time) == Expiring(chain, u, Frontier(chain, t), time)
    ensures ok ==> forall x :: x in Frontier(chain, t) ==> x.input.txid in chain
  {
    hide FiledExactly, Expiring;
    var cache;
    ok, cache, outputs := ApplySweepable(chain, u, t, map[], map[], up);
  }
}
