/** The rules for offchain transactions, output by output, and what they come to over whole runs. */
module OffchainRules {
  import opened Outpoints
  import opened OffchainValue
  import opened OffchainSubmit
  import opened OffchainLedger

  // Which outputs are accepted.

  /** How many outputs satisfy p. */
  ghost function Where(outs: seq<TxOut>, p: Script -> bool): set<nat> {
    set i: nat | i < |outs| && p(outs[i].script)
  }

  lemma {:induction false} CountMeans(outs: seq<TxOut>, p: Script -> bool)
    ensures Count(outs, p) == |Where(outs, p)|
  {
    if outs == [] {
      assert Where(outs, p) == {};
    } else {
      var n := |outs| - 1;
      CountMeans(outs[..n], p);
      assert Where(outs, p) == Where(outs[..n], p) + if p(outs[n].script) then {n} else {};
    }
  }

  /** The rule for one output. */
  ghost predicate Rule(out: TxOut, l: Limits) {
    && (out.script.Anchor? ==> out.value < l.dust || out.value < l.minAmount)
    && (out.script.Extension? ==> out.script.decodes && out.value == 0)
    && (out.script.SubDust? ==> l.minAmount <= out.value < l.dust)
    && (out.script.OpReturn? ==> out.value <= 0)
    && (out.script.Taproot? ==>
          l.dust <= out.value && l.minAmount <= out.value && (l.maxAmount < 0 || out.value <= l.maxAmount))
    && !out.script.OtherScript?
  }

  /**
   The outputs that pass: every one follows its rule, exactly one is an anchor, at most one an extension, and
   extensions, sub-dust scripts and other OP_RETURNs together are few enough.
   */
  lemma AllowedExactly(outs: seq<TxOut>, l: Limits)
    ensures Allowed(outs, l) <==>
              && (forall i :: 0 <= i < |outs| ==> Rule(outs[i], l))
              && |set i: nat | i < |outs| && outs[i].script.Anchor?| == 1
              && |set i: nat | i < |outs| && outs[i].script.Extension?| <= 1
              && |set i: nat | i < |outs| && (outs[i].script.Extension? || outs[i].script.SubDust? || outs[i].script.OpReturn?)|
                 <= l.maxOpReturns
  {
    assert forall i :: 0 <= i < |outs| ==> (OutputAllowed(outs[i], l) <==> Rule(outs[i], l));
    hide OutputAllowed, Rule;
    CountMeans(outs, IsAnchor);
    CountMeans(outs, IsExtension);
    CountMeans(outs, s => IsOpReturn(s));
    assert Where(outs, IsAnchor) == set i: nat | i < |outs| && outs[i].script.Anchor?;
    assert Where(outs, IsExtension) == set i: nat | i < |outs| && outs[i].script.Extension?;
    assert Where(outs, s => IsOpReturn(s))
        == set i: nat | i < |outs| && (outs[i].script.Extension? || outs[i].script.SubDust? || outs[i].script.OpReturn?);
  }

  /** The vtxos of a tx are its outputs that are neither anchor nor extension, with their amounts. */
  lemma {:induction false} VtxosExactly(txid: Txid, outs: seq<TxOut>, v: Created)
    ensures v in Vtxos(txid, outs) <==>
              exists i: nat :: i < |outs| && v == Created(Outpoint(txid, i), outs[i].value)
                && !outs[i].script.Anchor? && !outs[i].script.Extension?
  {
    if outs != [] {
      var n := |outs| - 1;
      VtxosExactly(txid, outs[..n], v);
      if i: nat :| i < |outs| && v == Created(Outpoint(txid, i), outs[i].value) && MakesVtxo(outs[i].script) {
        assert i < n ==> outs[..n][i] == outs[i];
      }
    }
  }

  // Which transactions are accepted.

  lemma {:induction false} KeptHasNoAnchor(outs: seq<TxOut>)
    ensures forall i :: 0 <= i < |WithoutAnchor(outs)| ==> !WithoutAnchor(outs)[i].script.Anchor?
  {
    if outs != [] {
      KeptHasNoAnchor(outs[..|outs| - 1]);
    }
  }

  lemma {:induction false} NothingDropped(outs: seq<TxOut>)
    requires forall i :: 0 <= i < |outs| ==> !outs[i].script.Anchor?
    ensures WithoutAnchor(outs) == outs
  {
    if outs != [] {
      NothingDropped(outs[..|outs| - 1]);
      assert outs == outs[..|outs| - 1] + [outs[|outs| - 1]];
    }
  }

  /** The one anchor comes last. */
  ghost predicate AnchorLast(outs: seq<TxOut>) {
    outs != [] && forall i :: 0 <= i < |outs| ==> (outs[i].script.Anchor? <==> i == |outs| - 1)
  }

  lemma AnchorLastMeans(outs: seq<TxOut>)
    ensures AnchorLast(outs) <==> outs != [] && outs[|outs| - 1].script.Anchor? && WithoutAnchor(outs) == outs[..|outs| - 1]
  {
    if outs != [] && outs[|outs| - 1].script.Anchor? {
      var n := |outs| - 1;
      var kept := outs[..n];
      assert WithoutAnchor(outs) == WithoutAnchor(kept);
      hide WithoutAnchor;
      if AnchorLast(outs) {
        NothingDropped(kept);
      }
      KeptHasNoAnchor(outs);
      if WithoutAnchor(outs) == kept {
        forall i | 0 <= i < n ensures !outs[i].script.Anchor? {
          assert outs[i] == WithoutAnchor(outs)[i];
        }
      }
    }
  }

  lemma WrapExact(x: int)
    requires 0 <= x <= MaxSatoshi
    ensures Wrap(x) == x
  {
  }

  /** A tx is what rebuilding it gives exactly if it has inputs, its one anchor comes last, and the sums are equal. */
  lemma RebuildsExactly(amounts: seq<int>, outs: seq<TxOut>)
    requires Sane(outs) && 0 <= Sum(amounts) <= MaxSatoshi
    ensures Wrap(Sum(amounts)) == Wrap(Sum(Values(outs))) && Rebuilds(amounts, outs) <==>
              amounts != [] && AnchorLast(outs) && Sum(amounts) == Sum(Values(outs))
  {
    hide Sum, Wrap, WithoutAnchor, AnchorLast;
    var total := Sum(Values(outs));
    SumNonNegative(Values(outs));
    WrapExact(Sum(amounts));
    WrapExact(total);
    AnchorLastMeans(outs);
    if outs != [] {
      var n := |outs| - 1;
      var kept := outs[..n];
      assert Values(outs) == Values(kept) + [outs[n].value];
      SumSnoc(Values(kept), outs[n].value);
      SumNonNegative(Values(kept));
      WrapExact(Sum(Values(kept)));
      WrapExact(outs[n].value);
      assert outs == kept + [outs[n]];
      if Rebuilds(amounts, outs) {
        assert |WithoutAnchor(outs)| == n;
        assert WithoutAnchor(outs) == kept && outs[n].script == Anchor;
      }
    }
  }

  /** The input spends a submitted checkpoint of a known vtxo and claims its amount. */
  ghost predicate Backed(input: ArkInput, checkpoints: seq<Checkpoint>, rows: Coins) {
    exists k :: 0 <= k < |checkpoints| && checkpoints[k].txid == input.checkpoint && checkpoints[k].vtxo in rows
      && input.claimed == rows[checkpoints[k].vtxo]
  }

  lemma BackedMeans(input: ArkInput, checkpoints: seq<Checkpoint>, rows: Coins)
    requires Value(rows) <= MaxSatoshi
    ensures Funded(input, checkpoints, rows) <==> Backed(input, checkpoints, rows)
  {
    hide Wrap, Value;
    forall k | 0 <= k < |checkpoints| && checkpoints[k].vtxo in rows
      ensures Wrap(rows[checkpoints[k].vtxo]) == rows[checkpoints[k].vtxo]
    {
      SuppliedAmounts(rows, checkpoints[k].vtxo);
    }
    if Backed(input, checkpoints, rows) {
      var k :| 0 <= k < |checkpoints| && checkpoints[k].txid == input.checkpoint && checkpoints[k].vtxo in rows
            && input.claimed == rows[checkpoints[k].vtxo];
      assert Funds(input, checkpoints[k], rows);
    }
  }

  lemma DistinctMeans(checkpoints: seq<Checkpoint>)
    ensures Distinct(SpentBy(checkpoints)) <==>
              forall i, j :: 0 <= i < j < |checkpoints| ==> checkpoints[i].vtxo != checkpoints[j].vtxo
  {
    var spent := SpentBy(checkpoints);
    assert forall i :: 0 <= i < |checkpoints| ==> spent[i] == checkpoints[i].vtxo;
  }

  lemma OneAnchor(outs: seq<TxOut>)
    requires AnchorLast(outs)
    ensures |set i: nat | i < |outs| && outs[i].script.Anchor?| == 1
  {
    assert (set i: nat | i < |outs| && outs[i].script.Anchor?) == {|outs| - 1};
  }

  /** What the inputs claim is the amounts of different rows, so it is within the money supply. */
  lemma ClaimedWithinSupply(s: Submission, rows: Coins)
    requires Committed(s.checkpoints) && InputsFunded(s, rows) && Value(rows) <= MaxSatoshi
    ensures 0 <= Sum(Claimed(s.inputs)) <= MaxSatoshi
  {
    hide Sum, Wrap, Value, Committed, InputsFunded, Taken;
    var taken := Taken(s);
    TakesAll(s, rows);
    TakenSize(s);
    forall i | 0 <= i < |taken| ensures s.inputs[i].claimed == rows[taken[i]] {
      SuppliedAmounts(rows, taken[i]);
    }
    assert Claimed(s.inputs) == RowAmounts(rows, taken);
    ValueTaken(rows, taken);
    SumNonNegative(RowAmounts(rows, taken));
  }

  /**
   Within the money supply a tx is accepted exactly if its outputs follow the rules with the one anchor last, it
   has an input for each checkpoint, each spending a checkpoint and a vtxo of its own and claiming its amount,
   and it is worth what it spends.
   */
  lemma AcceptsExactly(s: Submission, rows: Coins, l: Limits)
    requires Committed(s.checkpoints) && Value(rows) <= MaxSatoshi
    ensures Acceptable(s, rows, l) <==>
              && (forall i :: 0 <= i < |s.outs| ==> s.outs[i].value >= 0 && Rule(s.outs[i], l))
              && AnchorLast(s.outs)
              && |set i: nat | i < |s.outs| && s.outs[i].script.Extension?| <= 1
              && |set i: nat | i < |s.outs| && (s.outs[i].script.Extension? || s.outs[i].script.SubDust? || s.outs[i].script.OpReturn?)|
                 <= l.maxOpReturns
              && 0 < |s.inputs| == |s.checkpoints|
              && (forall i, j :: 0 <= i < j < |s.checkpoints| ==> s.checkpoints[i].vtxo != s.checkpoints[j].vtxo)
              && (forall i :: 0 <= i < |s.inputs| ==> Backed(s.inputs[i], s.checkpoints, rows))
              && (forall i, j :: 0 <= i < j < |s.inputs| ==> s.inputs[i].checkpoint != s.inputs[j].checkpoint)
              && Sum(Claimed(s.inputs)) == Sum(Values(s.outs))
  {
    hide Sum, Wrap, Value, Allowed, Rule, Rebuilds, AnchorLast, Funded, Backed, Committed, Distinct, SpentBy;
    AllowedExactly(s.outs, l);
    DistinctMeans(s.checkpoints);
    forall i | 0 <= i < |s.inputs| ensures Funded(s.inputs[i], s.checkpoints, rows) <==> Backed(s.inputs[i], s.checkpoints, rows) {
      BackedMeans(s.inputs[i], s.checkpoints, rows);
    }
    if AnchorLast(s.outs) {
      OneAnchor(s.outs);
    }
    if InputsFunded(s, rows) {
      ClaimedWithinSupply(s, rows);
      if Sane(s.outs) {
        RebuildsExactly(Claimed(s.inputs), s.outs);
      }
    }
  }

  // Over whole runs.

  /** op is an output of the tx that becomes a vtxo. */
  ghost predicate NewVtxo(tx: Submission, op: Outpoint) {
    && op.txid == tx.txid && op.vout < |tx.outs|
    && !tx.outs[op.vout].script.Anchor? && !tx.outs[op.vout].script.Extension?
  }

  /**
   A tx that is accepted and then finalized replaces the vtxos of its checkpoints by its own outputs, with their
   amounts, and changes no other vtxo.
   */
  lemma TransferMoves(s: Ledger, l: Limits, tx: Submission)
    requires Enabled(s, l, Accept(tx))
    ensures Enabled(Do(s, l, Accept(tx)), l, Finalize(tx.txid))
    ensures var s' := Do(Do(s, l, Accept(tx)), l, Finalize(tx.txid));
            && s'.pending == s.pending
            && (forall op :: op in s'.live <==>
                  NewVtxo(tx, op) || (op in s.live && forall c :: c in tx.checkpoints ==> c.vtxo != op))
            && (forall op :: op in s'.live ==> s'.live[op] == if NewVtxo(tx, op) then tx.outs[op.vout].value else s.live[op])
  {
    var vtxos, taken := Vtxos(tx.txid, tx.outs), Taken(tx);
    CreatedWell(tx, s.live, l);
    TakesAll(tx, s.live);
    hide Acceptable, Committed, Taken, Vtxos, NewVtxo, AsCoins;
    forall op ensures op in taken <==> exists c :: c in tx.checkpoints && c.vtxo == op {
      SpentByMeans(tx.checkpoints, op);
    }
    forall op
      ensures op in AsCoins(vtxos) <==> NewVtxo(tx, op)
      ensures NewVtxo(tx, op) ==> AsCoins(vtxos)[op] == tx.outs[op.vout].value
    {
      CoinsMean(tx, op);
    }
    AcceptedThenFinal(s, l, tx);
  }

  lemma AcceptedThenFinal(s: Ledger, l: Limits, tx: Submission)
    requires Enabled(s, l, Accept(tx))
    ensures Enabled(Do(s, l, Accept(tx)), l, Finalize(tx.txid))
    ensures OutputsOf(tx.txid, |tx.outs|, Vtxos(tx.txid, tx.outs))
    ensures forall i :: 0 <= i < |Vtxos(tx.txid, tx.outs)| ==> Vtxos(tx.txid, tx.outs)[i].amount >= 0
    ensures var s' := Do(Do(s, l, Accept(tx)), l, Finalize(tx.txid));
            && s'.pending == s.pending
            && s'.live == (s.live - set op | op in Taken(tx)) + AsCoins(Vtxos(tx.txid, tx.outs))
  {
    CreatedWell(tx, s.live, l);
    hide Acceptable, Committed, Taken, Vtxos, AsCoins, AnchorValue, OutputsOf;
    var coins := AsCoins(Vtxos(tx.txid, tx.outs));
    var s1 := Do(s, l, Accept(tx));
    assert s1.live == s.live - (set op | op in Taken(tx)) && s1.pending == s.pending[tx.txid := coins];
    assert s.pending[tx.txid := coins] - {tx.txid} == s.pending;
  }

  lemma SpentByMeans(checkpoints: seq<Checkpoint>, op: Outpoint)
    ensures op in SpentBy(checkpoints) <==> exists c :: c in checkpoints && c.vtxo == op
  {
    var spent := SpentBy(checkpoints);
    if c :| c in checkpoints && c.vtxo == op {
      var i :| 0 <= i < |checkpoints| && checkpoints[i] == c;
      assert spent[i] == op;
    }
    if op in spent {
      var i :| 0 <= i < |spent| && spent[i] == op;
      assert checkpoints[i] in checkpoints;
    }
  }

  lemma CoinsMean(tx: Submission, op: Outpoint)
    requires OutputsOf(tx.txid, |tx.outs|, Vtxos(tx.txid, tx.outs))
    requires forall i :: 0 <= i < |Vtxos(tx.txid, tx.outs)| ==> Vtxos(tx.txid, tx.outs)[i].amount >= 0
    ensures op in AsCoins(Vtxos(tx.txid, tx.outs)) <==> NewVtxo(tx, op)
    ensures NewVtxo(tx, op) ==> AsCoins(Vtxos(tx.txid, tx.outs))[op] == tx.outs[op.vout].value
  {
    hide Vtxos;
    var vtxos := Vtxos(tx.txid, tx.outs);
    if NewVtxo(tx, op) {
      var v := Created(op, tx.outs[op.vout].value);
      VtxosExactly(tx.txid, tx.outs, v);
      var i :| 0 <= i < |vtxos| && vtxos[i] == v;
      assert AsCoins(vtxos)[vtxos[i].outpoint] == vtxos[i].amount;
    }
    if op in AsCoins(vtxos) {
      var i :| 0 <= i < |vtxos| && vtxos[i].outpoint == op;
      VtxosExactly(tx.txid, tx.outs, vtxos[i]);
    }
  }

  /** The vtxo is an output of a tx that was accepted, and follows its rule. */
  ghost predicate MadeBy(tx: Submission, l: Limits, op: Outpoint, amount: nat) {
    && op.txid == tx.txid && op.vout < |tx.outs| && tx.outs[op.vout].value == amount
    && (match tx.outs[op.vout].script
        case Taproot => l.dust <= amount && l.minAmount <= amount && (l.maxAmount < 0 || amount <= l.maxAmount)
        case SubDust => l.minAmount <= amount < l.dust
        case OpReturn(_) => amount == 0
        case _ => false)
  }

  ghost predicate Made(live: Coins, l: Limits, run: seq<Action>, op: Outpoint, amount: nat) {
    || (op in live && live[op] == amount)
    || exists k :: 0 <= k < |run| && run[k].Accept? && MadeBy(run[k].tx, l, op, amount)
  }

  ghost predicate AllMade(live: Coins, l: Limits, run: seq<Action>, coins: Coins) {
    forall op :: op in coins ==> Made(live, l, run, op, coins[op])
  }

  /** Every vtxo of the ledger was there at first or was made by an accepted tx. */
  ghost predicate Traced(live: Coins, l: Limits, run: seq<Action>, s: Ledger) {
    AllMade(live, l, run, s.live) && forall txid :: txid in s.pending ==> AllMade(live, l, run, s.pending[txid])
  }

  lemma MadeLater(live: Coins, l: Limits, run: seq<Action>, a: Action, op: Outpoint, amount: nat)
    requires Made(live, l, run, op, amount)
    ensures Made(live, l, run + [a], op, amount)
  {
    if !(op in live && live[op] == amount) {
      var k :| 0 <= k < |run| && run[k].Accept? && MadeBy(run[k].tx, l, op, amount);
      assert (run + [a])[k] == run[k];
    }
  }

  lemma AcceptMakes(tx: Submission, rows: Coins, l: Limits, v: Created)
    requires Acceptable(tx, rows, l) && v in Vtxos(tx.txid, tx.outs)
    ensures v.amount >= 0 && MadeBy(tx, l, v.outpoint, v.amount)
  {
    hide Sum, Wrap, Rebuilds, InputsFunded, Rule, Allowed;
    VtxosExactly(tx.txid, tx.outs, v);
    var i: nat :| i < |tx.outs| && v == Created(Outpoint(tx.txid, i), tx.outs[i].value)
               && !tx.outs[i].script.Anchor? && !tx.outs[i].script.Extension?;
    AllowedExactly(tx.outs, l);
    RuleMakes(tx.outs[i], l);
  }

  lemma RuleMakes(out: TxOut, l: Limits)
    requires Rule(out, l) && out.value >= 0 && !out.script.Anchor? && !out.script.Extension?
    ensures match out.script
            case Taproot => l.dust <= out.value && l.minAmount <= out.value && (l.maxAmount < 0 || out.value <= l.maxAmount)
            case SubDust => l.minAmount <= out.value < l.dust
            case OpReturn(_) => out.value == 0
            case _ => false
  {
  }

  lemma AllMadeLater(live: Coins, l: Limits, run: seq<Action>, a: Action, coins: Coins)
    requires AllMade(live, l, run, coins)
    ensures AllMade(live, l, run + [a], coins)
  {
    hide Made;
    forall op | op in coins ensures Made(live, l, run + [a], op, coins[op]) {
      MadeLater(live, l, run, a, op, coins[op]);
    }
  }

  lemma AcceptAllMade(live: Coins, l: Limits, run: seq<Action>, tx: Submission, rows: Coins)
    requires Acceptable(tx, rows, l)
    ensures OutputsOf(tx.txid, |tx.outs|, Vtxos(tx.txid, tx.outs))
    ensures forall i :: 0 <= i < |Vtxos(tx.txid, tx.outs)| ==> Vtxos(tx.txid, tx.outs)[i].amount >= 0
    ensures AllMade(live, l, run + [Accept(tx)], AsCoins(Vtxos(tx.txid, tx.outs)))
  {
    hide Acceptable, Made, Vtxos;
    CreatedWell(tx, rows, l);
    var vtxos := Vtxos(tx.txid, tx.outs);
    forall op | op in AsCoins(vtxos) ensures Made(live, l, run + [Accept(tx)], op, AsCoins(vtxos)[op]) {
      var i :| 0 <= i < |vtxos| && vtxos[i].outpoint == op;
      AcceptMakes(tx, rows, l, vtxos[i]);
      MadeHere(live, l, run, tx, op, vtxos[i].amount);
    }
  }

  lemma StepTraced(live: Coins, l: Limits, run: seq<Action>, s: Ledger, a: Action)
    requires Traced(live, l, run, s) && Enabled(s, l, a)
    ensures Traced(live, l, run + [a], Do(s, l, a))
  {
    hide Acceptable, Committed, Taken, AllMade, Vtxos, AsCoins;
    AllMadeLater(live, l, run, a, s.live);
    forall txid | txid in s.pending ensures AllMade(live, l, run + [a], s.pending[txid]) {
      AllMadeLater(live, l, run, a, s.pending[txid]);
    }
    match a {
      case Accept(tx) =>
        AcceptAllMade(live, l, run, tx, s.live);
        AllMadePart(live, l, run + [a], s.live, set op | op in TransferOf(tx).spent);
      case Finalize(txid) =>
        AllMadeUnion(live, l, run + [a], s.live, s.pending[txid]);
    }
  }

  lemma AllMadeUnion(live: Coins, l: Limits, run: seq<Action>, a: Coins, b: Coins)
    requires AllMade(live, l, run, a) && AllMade(live, l, run, b)
    ensures AllMade(live, l, run, a + b)
  {
    hide Made;
  }

  lemma AllMadePart(live: Coins, l: Limits, run: seq<Action>, coins: Coins, ops: set<Outpoint>)
    requires AllMade(live, l, run, coins)
    ensures AllMade(live, l, run, coins - ops)
  {
    hide Made;
  }

  lemma MadeHere(live: Coins, l: Limits, run: seq<Action>, tx: Submission, op: Outpoint, amount: nat)
    requires MadeBy(tx, l, op, amount)
    ensures Made(live, l, run + [Accept(tx)], op, amount)
  {
    assert (run + [Accept(tx)])[|run|].tx == tx;
  }

  lemma {:induction false} RunTraced(live: Coins, l: Limits, past: seq<Action>, s: Ledger, run: seq<Action>)
    requires Traced(live, l, past, s) && ValidRun(s, l, run)
    ensures Traced(live, l, past + run, Run(s, l, run))
    decreases |run|
  {
    hide Traced, Enabled, Do;
    if run == [] {
      assert past + run == past;
    } else {
      StepTraced(live, l, past, s, run[0]);
      RunTraced(live, l, past + [run[0]], Do(s, l, run[0]), run[1..]);
      assert past + [run[0]] + run[1..] == past + run;
    }
  }

  lemma {:induction false} RunRules(s: Ledger, l: Limits, run: seq<Action>, k: nat, i: nat)
    requires ValidRun(s, l, run) && k < |run| && run[k].Accept? && i < |run[k].tx.outs|
    ensures Rule(run[k].tx.outs[i], l)
    decreases |run|
  {
    hide Rule, Do;
    if k == 0 {
      AllowedExactly(run[0].tx.outs, l);
    } else {
      RunRules(Do(s, l, run[0]), l, run[1..], k - 1, i);
    }
  }

  /**
   Over every run, every vtxo that was not there at first is an output of an accepted tx: a taproot output of
   at least dust and the smallest amount, and at most the largest, a sub-dust output below dust, or an OP_RETURN
   worth nothing. No output with another script is ever accepted.
   */
  lemma VtxosFollowRules(live: Coins, l: Limits, run: seq<Action>)
    requires ValidRun(Ledger(live, map[], []), l, run)
    ensures var s := Run(Ledger(live, map[], []), l, run);
            && (forall op :: op in s.live ==> Made(live, l, run, op, s.live[op]))
            && (forall txid, op :: txid in s.pending && op in s.pending[txid] ==> Made(live, l, run, op, s.pending[txid][op]))
    ensures forall k, i: nat :: 0 <= k < |run| && run[k].Accept? && i < |run[k].tx.outs| ==> Rule(run[k].tx.outs[i], l)
  {
    hide ValidRun, Run, Made, Rule;
    assert Traced(live, l, [], Ledger(live, map[], [])) by { AtFirst(live, l); }
    RunTraced(live, l, [], Ledger(live, map[], []), run);
    assert [] + run == run;
    forall k, i: nat | 0 <= k < |run| && run[k].Accept? && i < |run[k].tx.outs| ensures Rule(run[k].tx.outs[i], l) {
      RunRules(Ledger(live, map[], []), l, run, k, i);
    }
  }

  lemma AtFirst(live: Coins, l: Limits)
    ensures Traced(live, l, [], Ledger(live, map[], []))
  {
  }
}
