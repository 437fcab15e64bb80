/** Accepting an offchain transaction: which inputs it may have, and the rebuilt transactions it is compared with. */
module OffchainSubmit {
  import opened Outpoints
  import opened OffchainValue

  /** An ark tx input: the checkpoint it spends and the value its witness utxo claims. */
  datatype ArkInput = ArkInput(checkpoint: Txid, claimed: int)

  /** A submitted checkpoint and the vtxo it spends. */
  datatype Checkpoint = Checkpoint(txid: Txid, vtxo: Outpoint)

  datatype Submission = Submission(txid: Txid, inputs: seq<ArkInput>, outs: seq<TxOut>, checkpoints: seq<Checkpoint>)

  /** A txid commits to the inputs of the tx. */
  ghost predicate Committed(checkpoints: seq<Checkpoint>) {
    forall i, j :: 0 <= i < |checkpoints| && 0 <= j < |checkpoints| && checkpoints[i].txid == checkpoints[j].txid ==>
      checkpoints[i] == checkpoints[j]
  }

  function SpentBy(checkpoints: seq<Checkpoint>): seq<Outpoint> {
    seq(|checkpoints|, i requires 0 <= i < |checkpoints| => checkpoints[i].vtxo)
  }

  /** index maps the txids of the checkpoints to the vtxos they spend. */
  ghost predicate Indexes(checkpoints: seq<Checkpoint>, index: map<Txid, Outpoint>) {
    && |index| == |checkpoints|
    && (forall txid :: txid in index ==> Checkpoint(txid, index[txid]) in checkpoints)
    && (forall c :: c in checkpoints ==> c.txid in index && index[c.txid] == c.vtxo)
  }

  lemma IndexMore(checkpoints: seq<Checkpoint>, index: map<Txid, Outpoint>, i: nat)
    requires i < |checkpoints| && Committed(checkpoints) && Indexes(checkpoints[..i], index)
    requires checkpoints[i].vtxo !in SpentBy(checkpoints[..i])
    ensures Indexes(checkpoints[..i + 1], index[checkpoints[i].txid := checkpoints[i].vtxo])
  {
    NotIndexed(checkpoints, index, i);
    hide Committed, SpentBy;
    assert checkpoints[..i + 1] == checkpoints[..i] + [checkpoints[i]];
  }

  /** The txid of a checkpoint that spends another vtxo is not in the index yet. */
  lemma NotIndexed(checkpoints: seq<Checkpoint>, index: map<Txid, Outpoint>, i: nat)
    requires i < |checkpoints| && Committed(checkpoints) && Indexes(checkpoints[..i], index)
    requires checkpoints[i].vtxo !in SpentBy(checkpoints[..i])
    ensures checkpoints[i].txid !in index
  {
    forall j | 0 <= j < i ensures checkpoints[j].txid != checkpoints[i].txid {
      assert SpentBy(checkpoints[..i])[j] == checkpoints[j].vtxo;
    }
  }

  /** Indexes the checkpoints by txid and refuses two that spend the same vtxo. */
  method IndexCheckpoints(checkpoints: seq<Checkpoint>) returns (index: map<Txid, Outpoint>, keys: Option<seq<Outpoint>>)
    requires Committed(checkpoints)
    ensures keys.Some? <==> Distinct(SpentBy(checkpoints))
    ensures keys.Some? ==> keys.value == SpentBy(checkpoints) && Indexes(checkpoints, index)
  {
    hide Indexes, Committed;
    var spent: seq<Outpoint> := [];
    index := map[];
    assert Indexes([], map[]) by { NoIndex(); }
    assert checkpoints[..0] == [];
    for i := 0 to |checkpoints|
      invariant spent == SpentBy(checkpoints[..i]) && Distinct(spent) && Indexes(checkpoints[..i], index)
    {
      var c := checkpoints[i];
      var all := SpentBy(checkpoints);
      assert forall j :: 0 <= j < i ==> all[j] == spent[j];
      if c.vtxo in spent {
        assert all[i] == c.vtxo;
        return index, None;
      }
      IndexMore(checkpoints, index, i);
      index := index[c.txid := c.vtxo];
      spent := spent + [c.vtxo];
    }
    assert checkpoints[..|checkpoints|] == checkpoints;
    return index, Some(spent);
  }

  lemma NoIndex()
    ensures Indexes([], map[])
  {
  }

  /**
   Goes over the inputs of the ark tx; each one takes a vtxo that no input before it has taken. Returns
   the vtxos in the order of the inputs.
   */
  method TakeVtxos(inputs: seq<ArkInput>, checkpoints: map<Txid, Outpoint>, rows: Coins)
    returns (r: Option<seq<Outpoint>>)
    ensures r.Some? ==> |r.value| == |inputs| && Distinct(r.value)
    ensures r.Some? ==> forall i :: 0 <= i < |r.value| ==>
              && inputs[i].checkpoint in checkpoints && r.value[i] == checkpoints[inputs[i].checkpoint]
              && r.value[i] in rows
    ensures r.Some? <==>
              && (forall i :: 0 <= i < |inputs| ==>
                    inputs[i].checkpoint in checkpoints && checkpoints[inputs[i].checkpoint] in rows)
              && (forall i, j :: 0 <= i < j < |inputs| ==>
                    checkpoints[inputs[i].checkpoint] != checkpoints[inputs[j].checkpoint])
  {
    var taken: seq<Outpoint> := [];
    var index := rows;
    for i := 0 to |inputs|
      invariant |taken| == i
      invariant forall j :: 0 <= j < i ==>
                  && inputs[j].checkpoint in checkpoints && taken[j] == checkpoints[inputs[j].checkpoint]
                  && taken[j] in rows && taken[j] !in index
      invariant forall op :: op in rows <==> op in index || op in taken
      invariant forall j, k :: 0 <= j < k < i ==> taken[j] != taken[k]
    {
      if inputs[i].checkpoint !in checkpoints {
        return None;
      }
      var op := checkpoints[inputs[i].checkpoint];
      if op !in index {
        if op in rows {
          var j :| 0 <= j < i && taken[j] == op;
        }
        return None;
      }
      index := index - {op};
      taken := taken + [op];
    }
    return Some(taken);
  }

  function Claimed(inputs: seq<ArkInput>): seq<int> {
    seq(|inputs|, i requires 0 <= i < |inputs| => inputs[i].claimed)
  }

  // Rebuilding the transactions.

  /** The rebuilt ark tx: the values its inputs spend, one checkpoint output each, and its outputs. */
  datatype Rebuilt = Rebuilt(prevouts: seq<int>, outs: seq<TxOut>)

  /** What the anchor of a rebuilt tx holds: the inputs less the other outputs. */
  function Rest(amounts: seq<int>, outs: seq<TxOut>): int {
    Wrap(Wrap(Sum(amounts)) - Wrap(Sum(Values(outs))))
  }

  /** A checkpoint output carries the amount of its vtxo; the ark tx spends the checkpoint outputs. */
  method BuildTxs(amounts: seq<int>, outputs: seq<TxOut>) returns (r: Option<Rebuilt>)
    ensures r.Some? <==> amounts != [] && Wrap(Sum(Values(outputs))) <= Wrap(Sum(amounts))
    ensures r.Some? ==> r.value == Rebuilt(amounts, outputs + [TxOut(Rest(amounts, outputs), Anchor)])
  {
    hide Sum, Wrap;
    var prevouts: seq<int> := [];
    var inputAmount := 0;
    assert Wrap(Sum([])) == 0 by { WrapZero(); }
    for i := 0 to |amounts|
      invariant prevouts == amounts[..i] && inputAmount == Wrap(Sum(amounts[..i]))
    {
      assert amounts[..i + 1] == amounts[..i] + [amounts[i]];
      SumSnoc(amounts[..i], amounts[i]);
      WrapMore(Sum(amounts[..i]), amounts[i]);
      prevouts := prevouts + [amounts[i]];
      inputAmount := Wrap(inputAmount + amounts[i]);
    }
    assert amounts[..|amounts|] == amounts;
    var outputAmount := Sum64(Values(outputs));
    if outputAmount > inputAmount {
      return None;
    }
    if |prevouts| == 0 {
      return None;
    }
    return Some(Rebuilt(prevouts, outputs + [TxOut(Wrap(inputAmount - outputAmount), Anchor)]));
  }

  lemma WrapZero()
    ensures Wrap(Sum([])) == 0
  {
  }

  lemma WrapMore(a: int, b: int)
    ensures Wrap(Wrap(a) + b) == Wrap(a + b)
  {
  }

  /** Amounts as 64-bit integers. */
  function Amounts64(rows: Coins, ops: seq<Outpoint>): seq<int>
    requires forall i :: 0 <= i < |ops| ==> ops[i] in rows
  {
    seq(|ops|, i requires 0 <= i < |ops| => Wrap(rows[ops[i]]))
  }

  // What is accepted.

  /** The input spends the checkpoint of a known vtxo and claims its full amount. */
  ghost predicate Funds(input: ArkInput, c: Checkpoint, rows: Coins) {
    c.txid == input.checkpoint && c.vtxo in rows && input.claimed == Wrap(rows[c.vtxo])
  }

  ghost predicate Funded(input: ArkInput, checkpoints: seq<Checkpoint>, rows: Coins) {
    exists k :: 0 <= k < |checkpoints| && Funds(input, checkpoints[k], rows)
  }

  /** The outputs are what rebuilding the tx from its inputs and its other outputs gives. */
  ghost predicate Rebuilds(amounts: seq<int>, outs: seq<TxOut>) {
    var kept := WithoutAnchor(outs);
    && amounts != [] && Wrap(Sum(Values(kept))) <= Wrap(Sum(amounts))
    && outs == kept + [TxOut(Rest(amounts, kept), Anchor)]
  }

  /** Every input spends a checkpoint of its own, of a vtxo of its own, and none is left over. */
  ghost predicate InputsFunded(s: Submission, rows: Coins) {
    && Distinct(SpentBy(s.checkpoints)) && |s.inputs| == |s.checkpoints|
    && (forall i :: 0 <= i < |s.inputs| ==> Funded(s.inputs[i], s.checkpoints, rows))
    && (forall i, j :: 0 <= i < j < |s.inputs| ==> s.inputs[i].checkpoint != s.inputs[j].checkpoint)
  }

  /** What a tx has to satisfy: every input spends a checkpoint of its own, none is left over, and the sums agree. */
  ghost predicate Acceptable(s: Submission, rows: Coins, l: Limits) {
    && Sane(s.outs) && Allowed(s.outs, l) && InputsFunded(s, rows)
    && Wrap(Sum(Claimed(s.inputs))) == Wrap(Sum(Values(s.outs)))
    && Rebuilds(Claimed(s.inputs), s.outs)
  }

  /** The vtxo that a checkpoint spends. */
  function VtxoOf(checkpoints: seq<Checkpoint>, txid: Txid): Option<Outpoint> {
    if checkpoints == [] then None
    else
      var last := checkpoints[|checkpoints| - 1];
      if last.txid == txid then Some(last.vtxo) else VtxoOf(checkpoints[..|checkpoints| - 1], txid)
  }

  lemma {:induction false} VtxoOfFinds(checkpoints: seq<Checkpoint>, c: Checkpoint)
    requires Committed(checkpoints) && c in checkpoints
    ensures VtxoOf(checkpoints, c.txid) == Some(c.vtxo)
  {
    var n := |checkpoints| - 1;
    if checkpoints[n].txid != c.txid {
      VtxoOfFinds(checkpoints[..n], c);
    }
  }

  /** The vtxos that the inputs of a tx spend, in their order. */
  function Taken(s: Submission): seq<Outpoint> {
    seq(|s.inputs|, i requires 0 <= i < |s.inputs| =>
      var vtxo := VtxoOf(s.checkpoints, s.inputs[i].checkpoint);
      if vtxo.Some? then vtxo.value else Outpoint("", 0))
  }

  /** What the tx moves. */
  function TransferOf(s: Submission): Transfer {
    Transfer(s.txid, Taken(s), Vtxos(s.txid, s.outs), AnchorValue(s.outs))
  }

  lemma {:induction false} ElementCount(ops: seq<Outpoint>)
    requires Distinct(ops)
    ensures |set op | op in ops| == |ops|
    decreases |ops|
  {
    if ops == [] {
      assert (set op | op in ops) == {};
    } else {
      var n := |ops| - 1;
      ElementCount(ops[..n]);
      assert (set op | op in ops) == (set op | op in ops[..n]) + {ops[n]};
    }
  }

  /** As many different outpoints, all of them listed: exactly the listed ones. */
  lemma AllTaken(taken: seq<Outpoint>, keys: seq<Outpoint>)
    requires Distinct(taken) && Distinct(keys) && |taken| == |keys| && forall op :: op in taken ==> op in keys
    ensures forall op :: op in taken <==> op in keys
  {
    ElementCount(taken);
    ElementCount(keys);
    var a, b := set op | op in taken, set op | op in keys;
    assert b == a + (b - a);
    forall op | op in keys ensures op in taken {
      assert op in b;
    }
  }

  lemma TakenAt(s: Submission, rows: Coins, i: nat) returns (c: Checkpoint)
    requires Committed(s.checkpoints) && InputsFunded(s, rows) && i < |s.inputs|
    ensures c in s.checkpoints && Funds(s.inputs[i], c, rows) && Taken(s)[i] == c.vtxo
  {
    hide Wrap;
    var k :| 0 <= k < |s.checkpoints| && Funds(s.inputs[i], s.checkpoints[k], rows);
    c := s.checkpoints[k];
    VtxoOfFinds(s.checkpoints, c);
  }

  /** Every input has a vtxo of its own, so every checkpoint's vtxo is used once. */
  lemma TakesAll(s: Submission, rows: Coins)
    requires Committed(s.checkpoints) && InputsFunded(s, rows)
    ensures Distinct(Taken(s)) && forall op :: op in Taken(s) <==> op in SpentBy(s.checkpoints)
    ensures forall i :: 0 <= i < |Taken(s)| ==> Taken(s)[i] in rows && s.inputs[i].claimed == Wrap(rows[Taken(s)[i]])
  {
    hide Wrap, Committed;
    var taken, keys := Taken(s), SpentBy(s.checkpoints);
    forall i, j | 0 <= i < j < |taken| ensures taken[i] != taken[j] {
      var a := TakenAt(s, rows, i);
      var b := TakenAt(s, rows, j);
      var k :| 0 <= k < |s.checkpoints| && s.checkpoints[k] == a;
      var m :| 0 <= m < |s.checkpoints| && s.checkpoints[m] == b;
      assert keys[k] == a.vtxo && keys[m] == b.vtxo && k != m;
    }
    forall i | 0 <= i < |taken|
      ensures taken[i] in keys && taken[i] in rows && s.inputs[i].claimed == Wrap(rows[taken[i]])
    {
      var c := TakenAt(s, rows, i);
      var k :| 0 <= k < |s.checkpoints| && s.checkpoints[k] == c;
      assert keys[k] == c.vtxo;
    }
    AllTaken(taken, keys);
  }

  /** While the rows are within the money supply, 64-bit amounts are the amounts. */
  lemma SuppliedAmounts(rows: Coins, op: Outpoint)
    requires op in rows && Value(rows) <= MaxSatoshi
    ensures Wrap(rows[op]) == rows[op]
  {
    ValueWithout(rows, op);
  }

  /** An acceptable tx conserves value, as long as the rows are within the money supply. */
  lemma AcceptableConserves(s: Submission, rows: Coins, l: Limits)
    requires Committed(s.checkpoints) && Acceptable(s, rows, l) && Value(rows) <= MaxSatoshi
    ensures Conserves(rows, l, TransferOf(s))
  {
    hide Sum, Wrap, Value, Allowed, OutputAllowed, Distinct, Committed, Taken, Rebuilds, SpentBy, Funds;
    var taken := Taken(s);
    TakesAll(s, rows);
    TakenSize(s);
    forall i | 0 <= i < |taken| ensures s.inputs[i].claimed == rows[taken[i]] {
      SuppliedAmounts(rows, taken[i]);
    }
    assert Claimed(s.inputs) == RowAmounts(rows, taken);
    Balances(s.txid, s.outs, rows, l, taken);
    VtxosDistinct(s.txid, s.outs);
    VtxosValued(s.txid, s.outs);
  }

  lemma TakenSize(s: Submission)
    ensures |Taken(s)| == |s.inputs|
  {
  }

  // Accepting.

  method SameValues(inputs: seq<ArkInput>, prevouts: seq<int>) returns (ok: bool)
    requires |prevouts| == |inputs|
    ensures ok <==> Claimed(inputs) == prevouts
  {
    for i := 0 to |inputs|
      invariant forall j :: 0 <= j < i ==> inputs[j].claimed == prevouts[j]
    {
      if inputs[i].claimed != prevouts[i] {
        assert Claimed(inputs)[i] != prevouts[i];
        return false;
      }
    }
    return true;
  }

  /** The index finds the checkpoint that an input funds, and tells different checkpoints apart by their vtxos. */
  lemma AcceptableTakes(s: Submission, rows: Coins, l: Limits, index: map<Txid, Outpoint>)
    requires Acceptable(s, rows, l) && Indexes(s.checkpoints, index)
    ensures forall i :: 0 <= i < |s.inputs| ==>
              && s.inputs[i].checkpoint in index && index[s.inputs[i].checkpoint] in rows
              && s.inputs[i].claimed == Wrap(rows[index[s.inputs[i].checkpoint]])
    ensures forall i, j :: 0 <= i < j < |s.inputs| ==> index[s.inputs[i].checkpoint] != index[s.inputs[j].checkpoint]
  {
    hide Allowed, Sum, Wrap, Rebuilds, Sane;
    forall i, j | 0 <= i < j < |s.inputs| ensures index[s.inputs[i].checkpoint] != index[s.inputs[j].checkpoint] {
      var a, b := s.inputs[i].checkpoint, s.inputs[j].checkpoint;
      var k :| 0 <= k < |s.checkpoints| && s.checkpoints[k] == Checkpoint(a, index[a]);
      var m :| 0 <= m < |s.checkpoints| && s.checkpoints[m] == Checkpoint(b, index[b]);
      assert SpentBy(s.checkpoints)[k] == index[a] && SpentBy(s.checkpoints)[m] == index[b];
    }
  }

  /** What the loops have established. */
  ghost predicate TakenFrom(s: Submission, index: map<Txid, Outpoint>, rows: Coins, taken: seq<Outpoint>) {
    && |taken| == |s.inputs| && Distinct(taken)
    && (forall i :: 0 <= i < |taken| ==>
          s.inputs[i].checkpoint in index && taken[i] == index[s.inputs[i].checkpoint] && taken[i] in rows)
  }

  lemma TakenFunds(s: Submission, rows: Coins, index: map<Txid, Outpoint>, taken: seq<Outpoint>)
    requires Committed(s.checkpoints) && Indexes(s.checkpoints, index) && TakenFrom(s, index, rows, taken)
    requires Claimed(s.inputs) == Amounts64(rows, taken)
    ensures taken == Taken(s)
    ensures forall i :: 0 <= i < |s.inputs| ==> Funded(s.inputs[i], s.checkpoints, rows)
    ensures forall i, j :: 0 <= i < j < |s.inputs| ==> s.inputs[i].checkpoint != s.inputs[j].checkpoint
  {
    hide Committed, Wrap;
    forall i | 0 <= i < |s.inputs|
      ensures taken[i] == Taken(s)[i] && Funded(s.inputs[i], s.checkpoints, rows)
    {
      var c := Checkpoint(s.inputs[i].checkpoint, taken[i]);
      assert c in s.checkpoints && Claimed(s.inputs)[i] == Amounts64(rows, taken)[i];
      VtxoOfFinds(s.checkpoints, c);
      var k :| 0 <= k < |s.checkpoints| && s.checkpoints[k] == c;
      assert Funds(s.inputs[i], s.checkpoints[k], rows);
    }
  }

  /** Everything the service compares before it accepts a tx; it accepts exactly what is acceptable. */
  method Submit(s: Submission, rows: Coins, l: Limits) returns (r: Option<Transfer>)
    requires Committed(s.checkpoints)
    ensures r.Some? <==> Acceptable(s, rows, l)
    ensures r.Some? ==> r.value == TransferOf(s)
    ensures r.Some? ==> Distinct(r.value.spent) && forall op :: op in r.value.spent <==> op in SpentBy(s.checkpoints)
    ensures r.Some? && Value(rows) <= MaxSatoshi ==> Conserves(rows, l, r.value)
  {
    hide Sum, Wrap, Value, Allowed, Indexes, Committed, Funds, Conserves, Distinct, Taken;
    if !Sane(s.outs) {
      return None;
    }
    var sumIn := Sum64(Claimed(s.inputs));
    var sumOut := Sum64(Values(s.outs));
    if sumIn != sumOut {
      return None;
    }
    var index, keys := IndexCheckpoints(s.checkpoints);
    if keys.None? {
      return None;
    }
    assert |index| == |s.checkpoints| by { IndexSize(s.checkpoints, index); }
    if Acceptable(s, rows, l) {
      AcceptableTakes(s, rows, l, index);
    }
    var taken := TakeVtxos(s.inputs, index, rows);
    if taken.None? {
      return None;
    }
    var kept := ValidateOutputs(s.outs, l);
    if kept.None? {
      return None;
    }
    var amounts := Amounts64(rows, taken.value);
    if Acceptable(s, rows, l) {
      assert Claimed(s.inputs) == amounts;
    }
    var rebuilt := BuildTxs(amounts, kept.value);
    if rebuilt.None? {
      return None;
    }
    // One rebuilt checkpoint for each input, and the same ark tx.
    if |amounts| != |index| {
      return None;
    }
    if rebuilt.value.outs != s.outs {
      return None;
    }
    var same := SameValues(s.inputs, rebuilt.value.prevouts);
    if !same {
      return None;
    }
    TakenFunds(s, rows, index, taken.value);
    TakesAll(s, rows);
    if Value(rows) <= MaxSatoshi {
      AcceptableConserves(s, rows, l);
    }
    return Some(Transfer(s.txid, taken.value, Vtxos(s.txid, s.outs), AnchorValue(s.outs)));
  }

  lemma IndexSize(checkpoints: seq<Checkpoint>, index: map<Txid, Outpoint>)
    requires Indexes(checkpoints, index)
    ensures |index| == |checkpoints|
  {
  }
}
