/** Value over whole runs of offchain transactions: nothing but anchors leaves the system. */
module OffchainLedger {
  import opened Outpoints
  import opened OffchainValue
  import opened OffchainSubmit

  /**
   live are the vtxos that can be spent, pending the vtxos that accepted txs will make, anchors what
   the anchors of accepted txs hold.
   */
  datatype Ledger = Ledger(live: Coins, pending: map<Txid, Coins>, anchors: seq<int>)

  datatype Action = Accept(tx: Submission) | Finalize(txid: Txid)

  function AsCoins(vtxos: seq<Created>): Coins
    requires forall i, j :: 0 <= i < j < |vtxos| ==> vtxos[i].outpoint != vtxos[j].outpoint
    requires forall i :: 0 <= i < |vtxos| ==> vtxos[i].amount >= 0
  {
    map i | 0 <= i < |vtxos| :: vtxos[i].outpoint := vtxos[i].amount
  }

  /**
   A submission that the service accepts against the live vtxos, for a tx that was not seen before; or an
   accepted tx that is finalized.
   */
  ghost predicate Enabled(s: Ledger, l: Limits, a: Action) {
    match a
    case Accept(tx) =>
      && Committed(tx.checkpoints) && Acceptable(tx, s.live, l)
      && tx.txid !in s.pending && (forall op :: op in s.live ==> op.txid != tx.txid)
    case Finalize(txid) => txid in s.pending
  }

  ghost function Do(s: Ledger, l: Limits, a: Action): Ledger
    requires Enabled(s, l, a)
  {
    match a
    case Accept(tx) =>
      var t := TransferOf(tx);
      CreatedWell(tx, s.live, l);
      Ledger(s.live - (set op | op in t.spent), s.pending[t.txid := AsCoins(t.created)], s.anchors + [t.anchor])
    case Finalize(txid) => Ledger(s.live + s.pending[txid], s.pending - {txid}, s.anchors)
  }

  lemma CreatedWell(tx: Submission, rows: Coins, l: Limits)
    requires Acceptable(tx, rows, l)
    ensures var vtxos := Vtxos(tx.txid, tx.outs);
            && OutputsOf(tx.txid, |tx.outs|, vtxos) && forall i :: 0 <= i < |vtxos| ==> vtxos[i].amount >= 0
  {
    hide Allowed, Sum, Wrap, Rebuilds;
    VtxosDistinct(tx.txid, tx.outs);
    VtxosValued(tx.txid, tx.outs);
  }

  ghost predicate ValidRun(s: Ledger, l: Limits, run: seq<Action>)
    decreases |run|
  {
    run == [] || (Enabled(s, l, run[0]) && ValidRun(Do(s, l, run[0]), l, run[1..]))
  }

  ghost function Run(s: Ledger, l: Limits, run: seq<Action>): Ledger
    requires ValidRun(s, l, run)
    decreases |run|
  {
    if run == [] then s else Run(Do(s, l, run[0]), l, run[1..])
  }

  // Sums.

  lemma {:induction false} ValueUnion(a: Coins, b: Coins)
    requires forall op :: op in b ==> op !in a
    ensures Value(a + b) == Value(a) + Value(b)
    decreases |b|
  {
    hide Value;
    if b == map[] {
      assert a + b == a;
      NoValue();
    } else {
      var op :| op in b;
      ValueWithout(b, op);
      ValueUnion(a, b - {op});
      ValueWithout(a + b, op);
      UnionWithout(a, b, op);
    }
  }

  lemma UnionWithout(a: Coins, b: Coins, op: Outpoint)
    requires op !in a
    ensures (a + b) - {op} == a + (b - {op})
  {
    var l, r := (a + b) - {op}, a + (b - {op});
    assert forall x :: x in l <==> x in r;
    assert forall x :: x in l ==> l[x] == r[x];
  }

  lemma {:induction false} CreatedValue(vtxos: seq<Created>)
    requires forall i, j :: 0 <= i < j < |vtxos| ==> vtxos[i].outpoint != vtxos[j].outpoint
    requires forall i :: 0 <= i < |vtxos| ==> vtxos[i].amount >= 0
    ensures Value(AsCoins(vtxos)) == Sum(Amounts(vtxos))
  {
    hide Value, Sum;
    if vtxos == [] {
      assert AsCoins(vtxos) == map[] && Amounts(vtxos) == [];
      NoValue();
    } else {
      var n := |vtxos| - 1;
      var last := vtxos[n];
      CreatedValue(vtxos[..n]);
      ValueWithout(AsCoins(vtxos), last.outpoint);
      assert AsCoins(vtxos)[last.outpoint] == last.amount;
      assert AsCoins(vtxos) - {last.outpoint} == AsCoins(vtxos[..n]);
      assert Amounts(vtxos) == Amounts(vtxos[..n]) + [last.amount];
      SumSnoc(Amounts(vtxos[..n]), last.amount);
    }
  }

  lemma NoValue()
    ensures Value(map[]) == 0 && Sum([]) == 0 && PendingValue(map[]) == 0
  {
  }

  ghost function PendingValue(pending: map<Txid, Coins>): nat {
    if pending == map[] then 0
    else
      var txid :| txid in pending;
      Value(pending[txid]) + PendingValue(pending - {txid})
  }

  lemma {:induction false} PendingWithout(pending: map<Txid, Coins>, txid: Txid)
    requires txid in pending
    ensures PendingValue(pending) == Value(pending[txid]) + PendingValue(pending - {txid})
    decreases |pending|
  {
    hide Value;
    var first :| first in pending && PendingValue(pending) == Value(pending[first]) + PendingValue(pending - {first});
    if first != txid {
      PendingWithout(pending - {first}, txid);
      PendingWithout(pending - {txid}, first);
      assert pending - {first} - {txid} == pending - {txid} - {first};
    }
  }

  ghost function Total(s: Ledger): int {
    Value(s.live) + PendingValue(s.pending) + Sum(s.anchors)
  }

  // The invariant.

  ghost predicate AnchorsBounded(anchors: seq<int>, l: Limits) {
    forall i :: 0 <= i < |anchors| ==> 0 <= anchors[i] < Max(l.dust, l.minAmount)
  }

  /** Pending vtxos are outputs of their own tx, and none of them is live yet. */
  ghost predicate PendingApart(s: Ledger) {
    && (forall txid, op :: txid in s.pending && op in s.pending[txid] ==> op.txid == txid)
    && (forall op :: op in s.live ==> op.txid !in s.pending)
  }

  /** total is what the system held at first. */
  ghost predicate LedgerInv(s: Ledger, l: Limits, total: int) {
    Total(s) == total && total <= MaxSatoshi && AnchorsBounded(s.anchors, l) && PendingApart(s)
  }

  /** Live and pending value never exceeds the money supply, since anchors are never negative. */
  lemma WithinSupply(s: Ledger, l: Limits, total: int)
    requires LedgerInv(s, l, total)
    ensures Value(s.live) + PendingValue(s.pending) <= MaxSatoshi
  {
    hide Value, Sum, PendingValue;
    SumNonNegative(s.anchors);
  }

  lemma AcceptConserves(s: Ledger, l: Limits, tx: Submission)
    requires Enabled(s, l, Accept(tx)) && Value(s.live) <= MaxSatoshi
    ensures Total(Do(s, l, Accept(tx))) == Total(s)
    ensures AnchorsBounded(s.anchors, l) ==> AnchorsBounded(Do(s, l, Accept(tx)).anchors, l)
  {
    hide Value, Sum, PendingValue, Acceptable, Committed, Taken;
    AcceptableConserves(tx, s.live, l);
    var t := TransferOf(tx);
    ValueTaken(s.live, t.spent);
    CreatedValue(t.created);
    SumSnoc(s.anchors, t.anchor);
    var pending := s.pending[t.txid := AsCoins(t.created)];
    PendingWithout(pending, t.txid);
    assert pending - {t.txid} == s.pending;
  }

  lemma AcceptApart(s: Ledger, l: Limits, tx: Submission)
    requires Enabled(s, l, Accept(tx)) && PendingApart(s)
    ensures PendingApart(Do(s, l, Accept(tx)))
  {
    hide Acceptable, Committed, Taken;
    CreatedWell(tx, s.live, l);
  }

  lemma FinalizeConserves(s: Ledger, l: Limits, txid: Txid)
    requires Enabled(s, l, Finalize(txid)) && PendingApart(s)
    ensures Total(Do(s, l, Finalize(txid))) == Total(s) && PendingApart(Do(s, l, Finalize(txid)))
  {
    hide Value, Sum, PendingValue;
    ValueUnion(s.live, s.pending[txid]);
    PendingWithout(s.pending, txid);
  }

  lemma StepInv(s: Ledger, l: Limits, a: Action, total: int)
    requires LedgerInv(s, l, total) && Enabled(s, l, a)
    ensures LedgerInv(Do(s, l, a), l, total)
  {
    WithinSupply(s, l, total);
    match a {
      case Accept(tx) =>
        AcceptConserves(s, l, tx);
        AcceptApart(s, l, tx);
      case Finalize(txid) => FinalizeConserves(s, l, txid);
    }
    hide Total, PendingApart, Acceptable, AnchorsBounded;
  }

  lemma {:induction false} RunInv(s: Ledger, l: Limits, run: seq<Action>, total: int)
    requires ValidRun(s, l, run) && LedgerInv(s, l, total)
    ensures LedgerInv(Run(s, l, run), l, total)
    decreases |run|
  {
    hide LedgerInv, Enabled, Do;
    if run != [] {
      StepInv(s, l, run[0], total);
      RunInv(Do(s, l, run[0]), l, run[1..], total);
    }
  }

  /**
   Over every run of accepted and finalized txs that starts within the money supply, live and pending
   value is the initial value less the anchors, each of which is below the larger of dust and the
   smallest vtxo; and what is accepted next conserves value again.
   */
  lemma ValueConserved(live: Coins, l: Limits, run: seq<Action>)
    requires Value(live) <= MaxSatoshi && ValidRun(Ledger(live, map[], []), l, run)
    ensures var s := Run(Ledger(live, map[], []), l, run);
            && Value(s.live) + PendingValue(s.pending) == Value(live) - Sum(s.anchors)
            && Value(s.live) + PendingValue(s.pending) <= MaxSatoshi
            && (forall i :: 0 <= i < |s.anchors| ==> 0 <= s.anchors[i] < Max(l.dust, l.minAmount))
            && (forall tx :: Enabled(s, l, Accept(tx)) ==> Conserves(s.live, l, TransferOf(tx)))
  {
    hide Value, Sum, PendingValue, ValidRun, Run, Acceptable, Committed, Conserves;
    NoValue();
    RunInv(Ledger(live, map[], []), l, run, Value(live));
    var s := Run(Ledger(live, map[], []), l, run);
    WithinSupply(s, l, Value(live));
    forall tx | Enabled(s, l, Accept(tx)) ensures Conserves(s.live, l, TransferOf(tx)) {
      AcceptableConserves(tx, s.live, l);
    }
  }
}
