/** The value an offchain transaction moves: what its outputs and its anchor may hold, and what they come to. */
module OffchainValue {
  import opened Outpoints

  /** Output scripts as the checks tell them apart; an extension may fail to decode. */
  datatype Script =
    | Anchor
    | Extension(decodes: bool)
    | SubDust
      // Any other OP_RETURN script; short is one of less than two bytes.
    | OpReturn(short: bool)
    | Taproot
    | OtherScript(short: bool)

  datatype TxOut = TxOut(value: int, script: Script)

  datatype Limits = Limits(dust: nat, maxAmount: int, minAmount: int, maxOpReturns: int)

  predicate IsOpReturn(s: Script) {
    s.Extension? || s.SubDust? || s.OpReturn?
  }

  function Max(a: int, b: int): int {
    if a >= b then a else b
  }

  // What a valid list of outputs is.

  predicate OutputAllowed(out: TxOut, l: Limits) {
    match out.script
    case Anchor => out.value < Max(l.dust, l.minAmount)
    case Extension(decodes) => out.value == 0 && decodes
    case SubDust => l.minAmount <= out.value < l.dust
    case OpReturn(_) => out.value <= 0
    case Taproot => (l.maxAmount >= 0 ==> out.value <= l.maxAmount) && out.value >= Max(l.dust, l.minAmount)
    case OtherScript(_) => false
  }

  function Count(outs: seq<TxOut>, p: Script -> bool): nat {
    if outs == [] then 0 else Count(outs[..|outs| - 1], p) + if p(outs[|outs| - 1].script) then 1 else 0
  }

  function IsAnchor(s: Script): bool {
    s.Anchor?
  }

  function IsExtension(s: Script): bool {
    s.Extension?
  }

  predicate Allowed(outs: seq<TxOut>, l: Limits) {
    && (forall i :: 0 <= i < |outs| ==> OutputAllowed(outs[i], l))
    && Count(outs, IsAnchor) == 1 && Count(outs, IsExtension) <= 1 && Count(outs, s => IsOpReturn(s)) <= l.maxOpReturns
  }

  function WithoutAnchor(outs: seq<TxOut>): seq<TxOut> {
    if outs == [] then []
    else
      var last := outs[|outs| - 1];
      WithoutAnchor(outs[..|outs| - 1]) + if last.script.Anchor? then [] else [last]
  }

  lemma {:induction false} CountMonotone(outs: seq<TxOut>, p: Script -> bool, k: nat)
    requires k <= |outs|
    ensures Count(outs[..k], p) <= Count(outs, p)
  {
    if k < |outs| {
      CountMonotone(outs[..|outs| - 1], p, k);
      assert outs[..|outs| - 1][..k] == outs[..k];
    } else {
      assert outs[..k] == outs;
    }
  }

  /** A prefix that holds too many outputs of a kind spoils the whole list. */
  lemma TooMany(outs: seq<TxOut>, i: nat, p: Script -> bool, n: nat)
    requires i < |outs| && Count(outs[..i], p) == n && p(outs[i].script)
    ensures Count(outs, p) > n
  {
    assert outs[..i + 1][..i] == outs[..i];
    CountMonotone(outs, p, i + 1);
  }

  /** Accepts exactly the allowed lists, and drops the anchor. */
  method ValidateOutputs(outs: seq<TxOut>, l: Limits) returns (r: Option<seq<TxOut>>)
    ensures r.Some? <==> Allowed(outs, l)
    ensures r.Some? ==> r.value == WithoutAnchor(outs)
  {
    hide OutputAllowed;
    var kept: seq<TxOut> := [];
    var foundAnchor, foundExtension, opReturns := false, false, 0;
    for i := 0 to |outs|
      invariant forall j :: 0 <= j < i ==> OutputAllowed(outs[j], l)
      invariant Count(outs[..i], IsAnchor) == if foundAnchor then 1 else 0
      invariant Count(outs[..i], IsExtension) == if foundExtension then 1 else 0
      invariant Count(outs[..i], s => IsOpReturn(s)) == opReturns
      invariant kept == WithoutAnchor(outs[..i])
    {
      var out := outs[i];
      assert outs[..i + 1][..i] == outs[..i];
      if out.script.Anchor? {
        if foundAnchor {
          TooMany(outs, i, IsAnchor, 1);
          return None;
        }
        foundAnchor := true;
      } else {
        if IsOpReturn(out.script) {
          opReturns := opReturns + 1;
        }
        if out.script.Extension? {
          if foundExtension {
            TooMany(outs, i, IsExtension, 1);
            return None;
          }
          foundExtension := true;
        }
        kept := kept + [out];
      }
      var ok := CheckOutput(out, l);
      if !ok {
        return None;
      }
    }
    assert outs[..|outs|] == outs;
    if !foundAnchor || opReturns > l.maxOpReturns {
      return None;
    }
    return Some(kept);
  }

  /** The checks on one output, in their order. */
  method CheckOutput(out: TxOut, l: Limits) returns (ok: bool)
    ensures ok <==> OutputAllowed(out, l)
  {
    if out.script.Anchor? {
      var maxAmount := Max(l.dust, l.minAmount);
      return !(out.value >= maxAmount);
    }
    if out.script.Extension? {
      if out.value != 0 {
        return false;
      }
      return out.script.decodes;
    }
    if IsOpReturn(out.script) {
      if out.script.SubDust? {
        if out.value >= l.dust {
          return false;
        }
        return !(out.value < l.minAmount);
      }
      return !(out.value > 0);
    }
    if l.maxAmount >= 0 {
      if out.value > l.maxAmount {
        return false;
      }
    }
    if out.value < l.minAmount {
      return false;
    }
    if out.value < l.dust {
      return false;
    }
    return out.script.Taproot?;
  }

  // What the outputs are worth.

  function Sum(values: seq<int>): int {
    if values == [] then 0 else Sum(values[..|values| - 1]) + values[|values| - 1]
  }

  function Values(outs: seq<TxOut>): seq<int> {
    seq(|outs|, i requires 0 <= i < |outs| => outs[i].value)
  }

  function AnchorValue(outs: seq<TxOut>): int {
    if outs == [] then 0
    else AnchorValue(outs[..|outs| - 1]) + if outs[|outs| - 1].script.Anchor? then outs[|outs| - 1].value else 0
  }

  datatype Created = Created(outpoint: Outpoint, amount: int)

  function Amounts(vtxos: seq<Created>): seq<int> {
    seq(|vtxos|, i requires 0 <= i < |vtxos| => vtxos[i].amount)
  }

  predicate MakesVtxo(s: Script) {
    !s.Anchor? && !s.Extension?
  }

  predicate TooShort(s: Script) {
    (s.OpReturn? || s.OtherScript?) && s.short
  }

  /** The vtxos a tx makes: one for each output that is neither anchor nor extension. */
  function Vtxos(txid: Txid, outs: seq<TxOut>): seq<Created> {
    if outs == [] then []
    else
      var n := |outs| - 1;
      Vtxos(txid, outs[..n]) + if MakesVtxo(outs[n].script) then [Created(Outpoint(txid, n), outs[n].value)] else []
  }

  method DecodeOutputs(txid: Txid, outs: seq<TxOut>) returns (r: Option<seq<Created>>)
    ensures r.Some? <==>
              forall i :: 0 <= i < |outs| ==> !((outs[i].script.OpReturn? || outs[i].script.OtherScript?) && outs[i].script.short)
    ensures r.Some? ==> r.value == Vtxos(txid, outs)
  {
    var vtxos: seq<Created> := [];
    for i := 0 to |outs|
      invariant vtxos == Vtxos(txid, outs[..i])
      invariant forall j :: 0 <= j < i ==> !TooShort(outs[j].script)
    {
      assert outs[..i + 1][..i] == outs[..i];
      if MakesVtxo(outs[i].script) {
        if TooShort(outs[i].script) {
          return None;
        }
        vtxos := vtxos + [Created(Outpoint(txid, i), outs[i].value)];
      }
    }
    assert outs[..|outs|] == outs;
    return Some(vtxos);
  }

  lemma SumSnoc(values: seq<int>, v: int)
    ensures Sum(values + [v]) == Sum(values) + v
  {
    assert (values + [v])[..|values|] == values;
  }

  /** The vtxos and the anchor are worth what the outputs are worth. */
  lemma {:induction false} OutputsSplit(txid: Txid, outs: seq<TxOut>)
    requires forall i :: 0 <= i < |outs| ==> outs[i].script.Extension? ==> outs[i].value == 0
    ensures Sum(Amounts(Vtxos(txid, outs))) + AnchorValue(outs) == Sum(Values(outs))
  {
    hide Sum;
    if outs == [] {
      assert Amounts([]) == [] && Values([]) == [];
    } else {
      var n := |outs| - 1;
      OutputsSplit(txid, outs[..n]);
      var before := Vtxos(txid, outs[..n]);
      assert Values(outs) == Values(outs[..n]) + [outs[n].value];
      SumSnoc(Values(outs[..n]), outs[n].value);
      if MakesVtxo(outs[n].script) {
        var v := Created(Outpoint(txid, n), outs[n].value);
        assert Amounts(before + [v]) == Amounts(before) + [v.amount];
        SumSnoc(Amounts(before), v.amount);
      } else {
        assert Vtxos(txid, outs) == before;
      }
    }
  }

  /** The vtxos are outputs of the tx, each one once. */
  ghost predicate OutputsOf(txid: Txid, n: nat, vs: seq<Created>) {
    && (forall i :: 0 <= i < |vs| ==> vs[i].outpoint.txid == txid && vs[i].outpoint.vout < n)
    && (forall i, j :: 0 <= i < j < |vs| ==> vs[i].outpoint != vs[j].outpoint)
  }

  lemma {:induction false} VtxosDistinct(txid: Txid, outs: seq<TxOut>)
    ensures OutputsOf(txid, |outs|, Vtxos(txid, outs))
  {
    if outs != [] {
      var n := |outs| - 1;
      VtxosDistinct(txid, outs[..n]);
      var before := Vtxos(txid, outs[..n]);
      assert OutputsOf(txid, n, before);
      assert Vtxos(txid, outs) == before || Vtxos(txid, outs) == before + [Created(Outpoint(txid, n), outs[n].value)];
    }
  }

  /** With one anchor, the anchor's share is the value of that output, below the limit. */
  lemma {:induction false} AnchorBounded(outs: seq<TxOut>, l: Limits)
    requires forall i :: 0 <= i < |outs| ==> OutputAllowed(outs[i], l)
    ensures Count(outs, IsAnchor) == 0 ==> AnchorValue(outs) == 0
    ensures Count(outs, IsAnchor) == 1 ==> AnchorValue(outs) < Max(l.dust, l.minAmount)
  {
    if outs != [] {
      AnchorBounded(outs[..|outs| - 1], l);
    }
  }

  // 64-bit sums, and the value of rows.

  const MaxSatoshi: int := 21_000_000 * 100_000_000

  /** 64-bit two's complement. */
  function Wrap(x: int): int {
    (x + 0x8000_0000_0000_0000) % 0x1_0000_0000_0000_0000 - 0x8000_0000_0000_0000
  }

  method Sum64(values: seq<int>) returns (sum: int)
    ensures sum == Wrap(Sum(values))
  {
    sum := 0;
    for i := 0 to |values|
      invariant sum == Wrap(Sum(values[..i]))
    {
      assert values[..i + 1] == values[..i] + [values[i]];
      SumSnoc(values[..i], values[i]);
      sum := Wrap(sum + values[i]);
    }
    assert values[..|values|] == values;
  }

  /** The library's sanity check on a tx: amounts are not negative and within the money supply. */
  predicate Sane(outs: seq<TxOut>) {
    (forall i :: 0 <= i < |outs| ==> outs[i].value >= 0) && Sum(Values(outs)) <= MaxSatoshi
  }

  ghost predicate Distinct(ops: seq<Outpoint>) {
    forall i, j :: 0 <= i < j < |ops| ==> ops[i] != ops[j]
  }

  type Coins = map<Outpoint, nat>

  function RowAmounts(rows: Coins, ops: seq<Outpoint>): seq<int>
    requires forall i :: 0 <= i < |ops| ==> ops[i] in rows
  {
    seq(|ops|, i requires 0 <= i < |ops| => rows[ops[i]])
  }

  /** What an accepted tx spends, makes and leaves to its anchor. */
  datatype Transfer = Transfer(txid: Txid, spent: seq<Outpoint>, created: seq<Created>, anchor: int)

  /** The value of the vtxos spent is the value of the vtxos made and of the anchor. */
  ghost predicate Conserves(rows: Coins, l: Limits, t: Transfer) {
    && (forall i :: 0 <= i < |t.spent| ==> t.spent[i] in rows)
    && Distinct(t.spent)
    && (forall i, j :: 0 <= i < j < |t.created| ==> t.created[i].outpoint != t.created[j].outpoint)
    && (forall i :: 0 <= i < |t.created| ==> t.created[i].outpoint.txid == t.txid && t.created[i].amount >= 0)
    && Sum(Amounts(t.created)) + t.anchor == Sum(RowAmounts(rows, t.spent))
    && 0 <= t.anchor < Max(l.dust, l.minAmount)
  }

  lemma SumsAgree(a: int, b: int)
    requires Wrap(a) == Wrap(b) && 0 <= a <= MaxSatoshi && 0 <= b <= MaxSatoshi
    ensures a == b
  {
  }

  lemma {:induction false} SumNonNegative(values: seq<int>)
    requires forall i :: 0 <= i < |values| ==> values[i] >= 0
    ensures Sum(values) >= 0
  {
    if values != [] {
      SumNonNegative(values[..|values| - 1]);
    }
  }

  // The value of a set of rows.

  ghost function Value(coins: Coins): nat {
    if coins == map[] then 0
    else
      var op :| op in coins;
      coins[op] + Value(coins - {op})
  }

  lemma {:induction false} ValueWithout(coins: Coins, op: Outpoint)
    requires op in coins
    ensures Value(coins) == coins[op] + Value(coins - {op})
    decreases |coins|
  {
    var first :| first in coins && Value(coins) == coins[first] + Value(coins - {first});
    if first != op {
      ValueWithout(coins - {first}, op);
      ValueWithout(coins - {op}, first);
      assert coins - {first} - {op} == coins - {op} - {first};
    }
  }

  /** Taking out different rows takes out their amounts. */
  lemma {:induction false} ValueTaken(coins: Coins, ops: seq<Outpoint>)
    requires Distinct(ops) && forall i :: 0 <= i < |ops| ==> ops[i] in coins
    ensures Value(coins) == Sum(RowAmounts(coins, ops)) + Value(coins - set op | op in ops)
    decreases |ops|
  {
    hide Value, Sum;
    if ops == [] {
      assert RowAmounts(coins, ops) == [] && coins - {} == coins;
      assert (set op | op in ops) == {};
      SumEmpty();
    } else {
      var n := |ops| - 1;
      ValueTaken(coins, ops[..n]);
      var rest := coins - set op | op in ops[..n];
      assert ops[n] in rest;
      ValueWithout(rest, ops[n]);
      assert rest - {ops[n]} == coins - set op | op in ops;
      assert RowAmounts(coins, ops) == RowAmounts(coins, ops[..n]) + [coins[ops[n]]];
      SumSnoc(RowAmounts(coins, ops[..n]), coins[ops[n]]);
    }
  }

  lemma SumEmpty()
    ensures Sum([]) == 0
  {
  }

  /** The two sums are compared modulo 2^64; within the money supply that is enough. */
  lemma Balances(txid: Txid, outs: seq<TxOut>, rows: Coins, l: Limits, taken: seq<Outpoint>)
    requires Sane(outs) && Allowed(outs, l) && Value(rows) <= MaxSatoshi && Distinct(taken)
    requires forall i :: 0 <= i < |taken| ==> taken[i] in rows
    requires Wrap(Sum(RowAmounts(rows, taken))) == Wrap(Sum(Values(outs)))
    ensures Sum(Amounts(Vtxos(txid, outs))) + AnchorValue(outs) == Sum(RowAmounts(rows, taken))
    ensures AnchorValue(outs) < Max(l.dust, l.minAmount)
  {
    hide Sum, Wrap, Value, Distinct;
    ValueTaken(rows, taken);
    SumNonNegative(RowAmounts(rows, taken));
    SumNonNegative(Values(outs));
    SumsAgree(Sum(RowAmounts(rows, taken)), Sum(Values(outs)));
    OutputsSplit(txid, outs);
    AnchorBounded(outs, l);
  }

  lemma {:induction false} VtxosValued(txid: Txid, outs: seq<TxOut>)
    requires forall i :: 0 <= i < |outs| ==> outs[i].value >= 0
    ensures AnchorValue(outs) >= 0
    ensures forall i :: 0 <= i < |Vtxos(txid, outs)| ==> Vtxos(txid, outs)[i].amount >= 0
  {
    if outs != [] {
      VtxosValued(txid, outs[..|outs| - 1]);
    }
  }
}
