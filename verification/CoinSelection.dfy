/** The client's coin selection: which boarding utxos and vtxos pay for outputs and fees, and what is left. */
module CoinSelection {
  import opened Outpoints

  const Uint64: nat := 0x1_0000_0000_0000_0000

  type Amount = x: nat | x < 0x1_0000_0000_0000_0000

  /** Addition as the source does it, without a check. */
  function Plus(a: Amount, b: Amount): Amount {
    (a + b) % Uint64
  }

  datatype Receiver = Receiver(amount: Amount, onchain: bool)

  /** time is when a boarding utxo becomes redeemable, or when a vtxo expires. */
  datatype Coin = Coin(outpoint: Outpoint, amount: Amount, time: int)

  /** An evaluated fee in sats, which may come out negative, or a failed evaluation. */
  datatype Eval = Fee(sats: Sats) | EvalError

  type Sats = x: int | -0x8000_0000_0000_0000 <= x < 0x8000_0000_0000_0000

  datatype Estimator = Estimator(
    onchainOutput: Receiver -> Eval, offchainOutput: Receiver -> Eval, onchainInput: Coin -> Eval,
    offchainInput: Coin -> Eval)

  datatype Error = FeeFailed | NegativeFee | FeeOverflow | NotEnoughFunds

  datatype Result<+T> = Ok(value: T) | Err(error: Error)

  // Checked fee arithmetic.

  function FeeToSats(fee: Eval): Result<Amount> {
    match fee
    case EvalError => Err(FeeFailed)
    case Fee(sats) => if sats < 0 then Err(NegativeFee) else Ok(sats)
  }

  /** The sum is exact, or an error: a sum that wraps is always smaller than its first term. */
  function AddFee(amount: Amount, fee: Eval): (r: Result<Amount>)
    ensures r.Ok? ==> FeeToSats(fee).Ok? && r.value == amount + FeeToSats(fee).value
    ensures r.Err? <==> FeeToSats(fee).Err? || amount + FeeToSats(fee).value >= Uint64
  {
    match FeeToSats(fee)
    case Err(e) => Err(e)
    case Ok(sats) => if Plus(amount, sats) < amount then Err(FeeOverflow) else Ok(Plus(amount, sats))
  }

  /** Takes fee and deficit out of change; what change cannot cover is the new deficit. */
  function SubFee(change: Amount, deficit: Amount, fee: Eval): (r: Result<(Amount, Amount)>)
    ensures r.Ok? ==> FeeToSats(fee).Ok? && change + r.value.1 == r.value.0 + deficit + FeeToSats(fee).value
    ensures r.Ok? ==> r.value.0 == 0 || r.value.1 == 0
    ensures r.Err? <==> FeeToSats(fee).Err? || FeeToSats(fee).value + deficit >= Uint64
  {
    match FeeToSats(fee)
    case Err(e) => Err(e)
    case Ok(sats) =>
      var owed := Plus(sats, deficit);
      if owed < sats then Err(FeeOverflow)
      else if owed >= change then Ok((0, owed - change))
      else Ok((change - owed, 0))
  }

  // Sums.

  function Paid(fee: Eval): nat {
    if FeeToSats(fee).Ok? then FeeToSats(fee).value else 0
  }

  /** A fee that evaluated and is not negative. */
  predicate Payable(fee: Eval) {
    fee.Fee? && fee.sats >= 0
  }

  function OutputEval(est: Estimator, out: Receiver): Eval {
    if out.onchain then est.onchainOutput(out) else est.offchainOutput(out)
  }

  function Total(coins: seq<Coin>): nat {
    if coins == [] then 0 else Total(coins[..|coins| - 1]) + coins[|coins| - 1].amount
  }

  function InputFees(eval: Option<Coin -> Eval>, coins: seq<Coin>): nat {
    if coins == [] || eval.None? then 0
    else InputFees(eval, coins[..|coins| - 1]) + Paid(eval.value(coins[|coins| - 1]))
  }

  function OutputFee(est: Option<Estimator>, out: Receiver): nat {
    if est.None? then 0 else Paid(if out.onchain then est.value.onchainOutput(out) else est.value.offchainOutput(out))
  }

  /** What the outputs cost, fees included. */
  function Cost(est: Option<Estimator>, outputs: seq<Receiver>): nat {
    if outputs == [] then 0
    else
      var last := outputs[|outputs| - 1];
      Cost(est, outputs[..|outputs| - 1]) + last.amount + OutputFee(est, last)
  }

  function Onchain(est: Option<Estimator>): Option<Coin -> Eval> {
    if est.Some? then Some(est.value.onchainInput) else None
  }

  function Offchain(est: Option<Estimator>): Option<Coin -> Eval> {
    if est.Some? then Some(est.value.offchainInput) else None
  }

  lemma {:induction false} TotalPrefix(coins: seq<Coin>, k: nat)
    requires k <= |coins|
    ensures Total(coins[..k]) <= Total(coins)
  {
    if k < |coins| {
      TotalPrefix(coins[..|coins| - 1], k);
      assert coins[..|coins| - 1][..k] == coins[..k];
    } else {
      assert coins[..k] == coins;
    }
  }

  lemma WrapTwice(before: nat, amount: nat, fee: nat)
    ensures (before % Uint64 + amount) % Uint64 + fee < Uint64 ==>
              (before % Uint64 + amount) % Uint64 + fee == (before + amount + fee) % Uint64
  {
    assert (before % Uint64 + amount) % Uint64 == (before + amount) % Uint64;
  }

  /** Adds up the outputs and their fees; only the fees are added with a check. */
  method Target(est: Option<Estimator>, outputs: seq<Receiver>) returns (r: Result<Amount>)
    ensures r.Ok? ==> r.value % Uint64 == Cost(est, outputs) % Uint64
    ensures r.Ok? ==> (r.value == Cost(est, outputs) <==> Cost(est, outputs) < Uint64)
    ensures r.Err? ==> r.error != NotEnoughFunds
    ensures r.Ok? && est.Some? ==> forall i :: 0 <= i < |outputs| ==> Payable(OutputEval(est.value, outputs[i]))
    ensures r.Err? ==> est.Some? && ((exists i :: 0 <= i < |outputs| && !Payable(OutputEval(est.value, outputs[i])))
                                     || Cost(est, outputs) >= Uint64)
  {
    hide Cost, Plus;
    var amount: Amount := 0;
    NoCost(est);
    assert outputs[..0] == [];
    for i := 0 to |outputs|
      invariant amount == Cost(est, outputs[..i]) % Uint64
      invariant est.Some? ==> forall j :: 0 <= j < i ==> Payable(OutputEval(est.value, outputs[j]))
    {
      ghost var before, fee := Cost(est, outputs[..i]), OutputFee(est, outputs[i]);
      CostMore(est, outputs, i);
      CostPrefix(est, outputs, i + 1);
      AddsUp(before, outputs[i].amount, fee);
      amount := Plus(amount, outputs[i].amount);
      if est.Some? {
        var fee := if outputs[i].onchain then est.value.onchainOutput(outputs[i]) else est.value.offchainOutput(outputs[i]);
        var sum := AddFee(amount, fee);
        if sum.Err? {
          return Err(sum.error);
        }
        amount := sum.value;
      }
    }
    assert outputs[..|outputs|] == outputs;
    return Ok(amount);
  }

  lemma NoCost(est: Option<Estimator>)
    ensures Cost(est, []) == 0
  {
  }

  lemma CostMore(est: Option<Estimator>, outputs: seq<Receiver>, i: nat)
    requires i < |outputs|
    ensures Cost(est, outputs[..i + 1]) == Cost(est, outputs[..i]) + outputs[i].amount + OutputFee(est, outputs[i])
  {
    assert outputs[..i + 1][..i] == outputs[..i];
  }

  /** The running sum is the true one modulo 2^64 as long as adding the fee does not overflow. */
  lemma AddsUp(before: nat, amount: Amount, fee: nat)
    ensures var sum := Plus(before % Uint64, amount);
            && sum <= before + amount && sum == (before + amount) % Uint64
            && (sum + fee < Uint64 ==> sum + fee == (before + amount + fee) % Uint64)
  {
    WrapTwice(before, amount, fee);
  }

  lemma {:induction false} CostPrefix(est: Option<Estimator>, outputs: seq<Receiver>, k: nat)
    requires k <= |outputs|
    ensures Cost(est, outputs[..k]) <= Cost(est, outputs)
  {
    if k < |outputs| {
      CostPrefix(est, outputs[..|outputs| - 1], k);
      assert outputs[..|outputs| - 1][..k] == outputs[..k];
    } else {
      assert outputs[..k] == outputs;
    }
  }

  // Sorting.

  predicate Sorted(coins: seq<Coin>, key: Coin -> int) {
    forall i, j :: 0 <= i < j < |coins| ==> key(coins[i]) <= key(coins[j])
  }

  function WithKey(coins: seq<Coin>, key: Coin -> int, k: int): seq<Coin> {
    if coins == [] then []
    else WithKey(coins[..|coins| - 1], key, k) + if key(coins[|coins| - 1]) == k then [coins[|coins| - 1]] else []
  }

  /** Sorted, the same coins, and coins of one key in their old order. */
  ghost predicate StablySorted(coins: seq<Coin>, sorted: seq<Coin>, key: Coin -> int) {
    Sorted(sorted, key) && multiset(sorted) == multiset(coins) && forall k :: WithKey(sorted, key, k) == WithKey(coins, key, k)
  }

  lemma {:induction false} WithKeyConcat(a: seq<Coin>, b: seq<Coin>, key: Coin -> int, k: int)
    ensures WithKey(a + b, key, k) == WithKey(a, key, k) + WithKey(b, key, k)
    decreases |b|
  {
    if b == [] {
      assert a + b == a;
    } else {
      WithKeyConcat(a, b[..|b| - 1], key, k);
      assert (a + b)[..|a + b| - 1] == a + b[..|b| - 1];
    }
  }

  lemma {:induction false} NoneWithKey(coins: seq<Coin>, key: Coin -> int, k: int)
    requires forall i :: 0 <= i < |coins| ==> key(coins[i]) != k
    ensures WithKey(coins, key, k) == []
  {
    if coins != [] {
      NoneWithKey(coins[..|coins| - 1], key, k);
    }
  }

  /** Puts c behind all coins whose key is not larger. */
  method Insert(sorted: seq<Coin>, c: Coin, key: Coin -> int) returns (r: seq<Coin>)
    requires Sorted(sorted, key)
    ensures StablySorted(sorted + [c], r, key)
  {
    hide WithKey, Sorted;
    var i := |sorted|;
    while i > 0 && key(sorted[i - 1]) > key(c)
      invariant 0 <= i <= |sorted|
      invariant forall j :: i <= j < |sorted| ==> key(sorted[j]) > key(c)
    {
      i := i - 1;
    }
    assert sorted == sorted[..i] + sorted[i..];
    InsertSorted(sorted[..i], c, sorted[i..], key);
    InsertKeeps(sorted[..i], c, sorted[i..], key);
    r := sorted[..i] + [c] + sorted[i..];
  }

  lemma InsertKeeps(a: seq<Coin>, c: Coin, b: seq<Coin>, key: Coin -> int)
    requires forall j :: 0 <= j < |b| ==> key(b[j]) > key(c)
    ensures multiset(a + [c] + b) == multiset(a + b + [c])
    ensures forall k :: WithKey(a + [c] + b, key, k) == WithKey(a + b + [c], key, k)
  {
    hide WithKey;
    forall k ensures WithKey(a + [c] + b, key, k) == WithKey(a + b + [c], key, k) {
      WithKeyConcat(a + [c], b, key, k);
      WithKeyConcat(a, [c], key, k);
      WithKeyConcat(a, b, key, k);
      WithKeyConcat(a + b, [c], key, k);
      if k == key(c) {
        NoneWithKey(b, key, k);
      } else {
        NoneWithKey([c], key, k);
      }
    }
  }

  lemma InsertSorted(a: seq<Coin>, c: Coin, b: seq<Coin>, key: Coin -> int)
    requires Sorted(a + b, key) && (a != [] ==> key(a[|a| - 1]) <= key(c)) && forall j :: 0 <= j < |b| ==> key(b[j]) > key(c)
    ensures Sorted(a + [c] + b, key)
  {
    var all, r := a + b, a + [c] + b;
    assert forall i :: 0 <= i < |a| ==> r[i] == all[i] && key(all[i]) <= key(c) by {
      if a != [] {
        assert all[|a| - 1] == a[|a| - 1];
      }
    }
    assert forall i :: |a| < i < |r| ==> r[i] == all[i - 1] && all[i - 1] == b[i - 1 - |a|];
  }

  /** sort.SliceStable. */
  method SortStable(coins: seq<Coin>, key: Coin -> int) returns (r: seq<Coin>)
    ensures StablySorted(coins, r, key)
  {
    hide WithKey;
    r := [];
    for i := 0 to |coins|
      invariant StablySorted(coins[..i], r, key)
    {
      assert coins[..i + 1] == coins[..i] + [coins[i]];
      var next := Insert(r, coins[i], key);
      forall k ensures WithKey(next, key, k) == WithKey(coins[..i + 1], key, k) {
        WithKeyConcat(r, [coins[i]], key, k);
        WithKeyConcat(coins[..i], [coins[i]], key, k);
      }
      r := next;
    }
    assert coins[..|coins|] == coins;
  }

  // Selecting.

  lemma NoCoins(eval: Option<Coin -> Eval>)
    ensures Total([]) == 0 && InputFees(eval, []) == 0
  {
  }

  lemma PlusExact(a: Amount, b: Amount)
    ensures a + b < Uint64 ==> Plus(a, b) == a + b
  {
  }

  /**
   Takes coins in their order until they cover the amount, which grows with the fee of each. The
   prefix taken is the shortest that covers it, or everything.
   */
  method Pick(coins: seq<Coin>, eval: Option<Coin -> Eval>, amount0: Amount, selected0: Amount)
    returns (r: Result<(Amount, Amount)>, n: nat)
    ensures n <= |coins|
    ensures r.Ok? ==> r.value.0 == amount0 + InputFees(eval, coins[..n])
    ensures r.Ok? && n < |coins| ==> r.value.1 >= r.value.0
    ensures r.Ok? && selected0 + Total(coins) < Uint64 ==>
              && r.value.1 == selected0 + Total(coins[..n])
              && forall k :: 0 <= k < n ==> selected0 + Total(coins[..k]) < amount0 + InputFees(eval, coins[..k])
    ensures r.Err? ==> r.error != NotEnoughFunds
    ensures r.Ok? && eval.Some? ==> forall i :: 0 <= i < n ==> Payable(eval.value(coins[i]))
    ensures r.Err? ==> eval.Some? && ((exists i :: 0 <= i < |coins| && !Payable(eval.value(coins[i])))
                                      || amount0 + InputFees(eval, coins) >= Uint64)
  {
    hide Total, InputFees, Plus;
    ghost var fits := selected0 + Total(coins) < Uint64;
    NoCoins(eval);
    assert coins[..0] == [];
    var amount, selected := amount0, selected0;
    n := 0;
    while n < |coins|
      invariant n <= |coins|
      invariant amount == amount0 + InputFees(eval, coins[..n])
      invariant eval.Some? ==> forall i :: 0 <= i < n ==> Payable(eval.value(coins[i]))
      invariant fits ==> selected == selected0 + Total(coins[..n])
      invariant fits ==> forall k :: 0 <= k < n ==> selected0 + Total(coins[..k]) < amount0 + InputFees(eval, coins[..k])
    {
      if selected >= amount {
        break;
      }
      OneMore(coins, eval, n);
      PlusExact(selected, coins[n].amount);
      selected := Plus(selected, coins[n].amount);
      if eval.Some? {
        var sum := AddFee(amount, eval.value(coins[n]));
        if sum.Err? {
          InputFeesPrefix(eval, coins, n + 1);
          return Err(sum.error), n;
        }
        amount := sum.value;
      }
      n := n + 1;
    }
    return Ok((amount, selected)), n;
  }

  lemma {:induction false} InputFeesPrefix(eval: Option<Coin -> Eval>, coins: seq<Coin>, k: nat)
    requires k <= |coins|
    ensures InputFees(eval, coins[..k]) <= InputFees(eval, coins)
  {
    if k < |coins| {
      InputFeesPrefix(eval, coins[..|coins| - 1], k);
      assert coins[..|coins| - 1][..k] == coins[..k];
    } else {
      assert coins[..k] == coins;
    }
  }

  function RedeemableFirst(c: Coin): int {
    c.time
  }

  function ExpiringLast(c: Coin): int {
    -c.time
  }

  datatype Selection = Selection(boarding: seq<Coin>, vtxos: seq<Coin>, change: Amount)

  /**
   How a selection came about: the coins picked before one more is folded in, what they left, the fee
   of the change output, the fees that nothing covers, and change given up because it is dust.
   */
  datatype Receipt = Receipt(
    boarding: nat, vtxos: nat, residual: Amount, changeFee: nat, deficit: Amount, dropped: Amount)

  /** The amounts of the outputs with their fees, and those of all coins, fit 64 bits. */
  ghost predicate Fits(boarding: seq<Coin>, vtxos: seq<Coin>, outputs: seq<Receiver>, est: Option<Estimator>) {
    Cost(est, outputs) < Uint64 && Total(boarding) + Total(vtxos) < Uint64
  }

  /** What outputs and the fees of the inputs come to. */
  function Due(est: Option<Estimator>, outputs: seq<Receiver>, boarding: seq<Coin>, vtxos: seq<Coin>): nat {
    Cost(est, outputs) + InputFees(Onchain(est), boarding) + InputFees(Offchain(est), vtxos)
  }

  function ChangeFee(est: Option<Estimator>, residual: Amount): nat {
    if est.None? then 0 else Paid(est.value.offchainOutput(Receiver(residual, false)))
  }

  /** Nothing is lost: what is selected pays for everything, and what is over is change or dust. */
  ghost predicate Balanced(est: Option<Estimator>, outputs: seq<Receiver>, s: Selection, c: Receipt) {
    && Total(s.boarding) + Total(s.vtxos) + c.deficit
       == Due(est, outputs, s.boarding, s.vtxos) + c.changeFee + s.change + c.dropped
    && c.changeFee == ChangeFee(est, c.residual)
  }

  /** The coins picked first are the fewest that cover what is due. */
  ghost predicate Shortest(
    est: Option<Estimator>, outputs: seq<Receiver>, boarding: seq<Coin>, vtxos: seq<Coin>, nb: nat, nv: nat)
    requires nb <= |boarding| && nv <= |vtxos|
  {
    && (forall k :: 0 <= k < nb ==> Total(boarding[..k]) < Due(est, outputs, boarding[..k], []))
    && (forall k :: 0 <= k < nv ==>
          Total(boarding[..nb]) + Total(vtxos[..k]) < Due(est, outputs, boarding[..nb], vtxos[..k]))
  }

  /** All fees of these outputs and inputs can be paid. */
  ghost predicate Priced(est: Option<Estimator>, outputs: seq<Receiver>, boarding: seq<Coin>, vtxos: seq<Coin>) {
    est.Some? ==>
      && (forall i :: 0 <= i < |outputs| ==>
            Payable(if outputs[i].onchain then est.value.onchainOutput(outputs[i]) else est.value.offchainOutput(outputs[i])))
      && (forall i :: 0 <= i < |boarding| ==> Payable(est.value.onchainInput(boarding[i])))
      && (forall i :: 0 <= i < |vtxos| ==> Payable(est.value.offchainInput(vtxos[i])))
  }

  /** The first selection: boarding utxos, then vtxos, until what is due is covered. */
  method PickBoth(boarding: seq<Coin>, vtxos: seq<Coin>, outputs: seq<Receiver>, est: Option<Estimator>)
    returns (r: Result<Amount>, nb: nat, nv: nat)
    ensures nb <= |boarding| && nv <= |vtxos|
    ensures r.Ok? && Fits(boarding, vtxos, outputs, est) ==>
              && Total(boarding[..nb]) + Total(vtxos[..nv]) == Due(est, outputs, boarding[..nb], vtxos[..nv]) + r.value
              && Shortest(est, outputs, boarding, vtxos, nb, nv)
    ensures r.Err? && r.error.NotEnoughFunds? && Fits(boarding, vtxos, outputs, est) ==>
              && Total(boarding) + Total(vtxos) < Due(est, outputs, boarding, vtxos)
              && Shortest(est, outputs, boarding, vtxos, |boarding|, |vtxos|)
    ensures r.Ok? && Fits(boarding, vtxos, outputs, est) ==> nv == 0 || nb == |boarding|
    ensures r.Ok? ==> Priced(est, outputs, boarding[..nb], vtxos[..nv])
    ensures r.Err? && !r.error.NotEnoughFunds? ==>
              !Priced(est, outputs, boarding, vtxos) || Due(est, outputs, boarding, vtxos) >= Uint64
  {
    hide Cost, Total, InputFees;
    NoCoins(Offchain(est));
    nb, nv := 0, 0;
    var target := Target(est, outputs);
    if target.Err? {
      return Err(target.error), 0, 0;
    }
    var first;
    first, nb := Pick(boarding, Onchain(est), target.value, 0);
    if first.Err? {
      return Err(first.error), nb, 0;
    }
    TotalPrefix(boarding, nb);
    InputFeesPrefix(Onchain(est), boarding, nb);
    assert vtxos[..0] == [];
    var second;
    second, nv := Pick(vtxos, Offchain(est), first.value.0, first.value.1);
    if second.Err? {
      return Err(second.error), nb, nv;
    }
    var (amount, selected) := second.value;
    if selected < amount {
      assert nv == |vtxos| && vtxos[..nv] == vtxos && vtxos[..0] == [];
      assert Fits(boarding, vtxos, outputs, est) ==> nb == |boarding|;
      assert boarding[..|boarding|] == boarding;
      return Err(NotEnoughFunds), nb, nv;
    }
    return Ok(selected - amount), nb, nv;
  }

  /** Adds one coin to the change and takes its fee, and the deficit so far, out of it. */
  method FoldIn(c: Coin, eval: Option<Coin -> Eval>, change0: Amount, deficit0: Amount)
    returns (r: Result<(Amount, Amount)>)
    requires deficit0 == 0 || change0 == 0
    requires eval.None? ==> deficit0 == 0
    requires deficit0 < 0x8000_0000_0000_0000
    ensures r.Ok? <==> eval.Some? ==> Payable(eval.value(c))
    ensures r.Ok? && change0 + c.amount < Uint64 ==>
              change0 + c.amount + r.value.1 == r.value.0 + deficit0 + if eval.Some? then Paid(eval.value(c)) else 0
    ensures r.Ok? ==> r.value.0 == 0 || r.value.1 == 0
    ensures r.Err? ==> r.error != NotEnoughFunds
  {
    var change := Plus(change0, c.amount);
    if eval.None? {
      return Ok((change, 0));
    }
    return SubFee(change, deficit0, eval.value(c));
  }

  /** Takes the fee of the change output out of what is left. */
  method PayChange(est: Option<Estimator>, residual: Amount) returns (r: Result<(Amount, Amount)>, fee: nat)
    ensures r.Ok? <==> est.Some? ==> Payable(est.value.offchainOutput(Receiver(residual, false)))
    ensures r.Ok? ==> fee == ChangeFee(est, residual) && residual + r.value.1 == r.value.0 + fee
    ensures r.Ok? ==> (r.value.0 == 0 || r.value.1 == 0) && r.value.1 < 0x8000_0000_0000_0000
    ensures r.Ok? && est.None? ==> r.value == (residual, 0)
    ensures r.Err? ==> r.error != NotEnoughFunds
  {
    if est.None? {
      return Ok((residual, 0)), 0;
    }
    var eval := est.value.offchainOutput(Receiver(residual, false));
    r := SubFee(residual, 0, eval);
    fee := Paid(eval);
  }

  ghost predicate Folds(sorted: seq<Coin>, picked: nat, selected: seq<Coin>) {
    selected <= sorted && picked <= |selected| <= picked + 1
  }

  lemma FitsTotal(boarding: seq<Coin>, vtxos: seq<Coin>, outputs: seq<Receiver>, est: Option<Estimator>)
    ensures Fits(boarding, vtxos, outputs, est) ==> Total(boarding) + Total(vtxos) < Uint64
  {
  }

  lemma PricedMore(est: Option<Estimator>, outputs: seq<Receiver>, boarding: seq<Coin>, vtxos: seq<Coin>, nb: nat, nv: nat)
    requires nb <= |boarding| && nv <= |vtxos| && Priced(est, outputs, boarding[..nb], vtxos[..nv])
    ensures nb < |boarding| && (est.Some? ==> Payable(est.value.onchainInput(boarding[nb]))) ==>
              Priced(est, outputs, boarding[..nb + 1], vtxos[..nv])
    ensures nv < |vtxos| && (est.Some? ==> Payable(est.value.offchainInput(vtxos[nv]))) ==>
              Priced(est, outputs, boarding[..nb], vtxos[..nv + 1])
    ensures nb < |boarding| && est.Some? && Priced(est, outputs, boarding, vtxos) ==> Payable(est.value.onchainInput(boarding[nb]))
    ensures nv < |vtxos| && est.Some? && Priced(est, outputs, boarding, vtxos) ==> Payable(est.value.offchainInput(vtxos[nv]))
  {
    hide Payable;
  }

  lemma OneMore(coins: seq<Coin>, eval: Option<Coin -> Eval>, n: nat)
    requires n < |coins|
    ensures Total(coins[..n + 1]) == Total(coins[..n]) + coins[n].amount
    ensures InputFees(eval, coins[..n + 1]) == InputFees(eval, coins[..n]) + if eval.Some? then Paid(eval.value(coins[n])) else 0
    ensures Total(coins[..n + 1]) <= Total(coins)
  {
    assert coins[..n + 1][..n] == coins[..n];
    TotalPrefix(coins, n + 1);
  }

  /**
   Selects from sorted coins. On success the books balance, change and deficit are never both positive,
   and a coin beyond the shortest cover is folded in exactly if the change is dust and there is one.
   */
  method SelectSorted(boarding: seq<Coin>, vtxos: seq<Coin>, outputs: seq<Receiver>, dust: Amount, est: Option<Estimator>)
    returns (r: Result<Selection>, c: Receipt)
    ensures r.Ok? ==> Folds(boarding, c.boarding, r.value.boarding) && Folds(vtxos, c.vtxos, r.value.vtxos)
    ensures r.Ok? ==> r.value.change == 0 || c.deficit == 0
    ensures r.Ok? ==> c.dropped < dust || c.dropped == 0
    ensures r.Ok? && Fits(boarding, vtxos, outputs, est) ==> Balanced(est, outputs, r.value, c)
    ensures r.Ok? && Fits(boarding, vtxos, outputs, est) ==>
              && Total(boarding[..c.boarding]) + Total(vtxos[..c.vtxos])
                 == Due(est, outputs, boarding[..c.boarding], vtxos[..c.vtxos]) + c.residual
              && Shortest(est, outputs, boarding, vtxos, c.boarding, c.vtxos)
    ensures r.Ok? ==>
              var dusty := dust > 0 && c.residual < c.changeFee + dust;
              && (|r.value.vtxos| == c.vtxos + 1 <==> dusty && c.vtxos < |vtxos|)
              && (|r.value.boarding| == c.boarding + 1 <==> dusty && c.vtxos == |vtxos| && c.boarding < |boarding|)
    ensures r.Err? && r.error.NotEnoughFunds? && Fits(boarding, vtxos, outputs, est) ==>
              && Total(boarding) + Total(vtxos) < Due(est, outputs, boarding, vtxos)
              && Shortest(est, outputs, boarding, vtxos, |boarding|, |vtxos|)
    ensures r.Ok? && Fits(boarding, vtxos, outputs, est) ==> c.vtxos == 0 || c.boarding == |boarding|
    ensures r.Ok? ==> Priced(est, outputs, r.value.boarding, r.value.vtxos)
    ensures r.Ok? && est.Some? ==> Payable(est.value.offchainOutput(Receiver(c.residual, false)))
    ensures r.Err? && !r.error.NotEnoughFunds? ==>
              || !Priced(est, outputs, boarding, vtxos) || Due(est, outputs, boarding, vtxos) >= Uint64
              || (est.Some? && exists a: Amount :: !Payable(est.value.offchainOutput(Receiver(a, false))))
  {
    hide Cost, Shortest, Total, InputFees, Priced, Fits;
    c := Receipt(0, 0, 0, 0, 0, 0);
    var residual, nb, nv := PickBoth(boarding, vtxos, outputs, est);
    if residual.Err? {
      return Err(residual.error), c;
    }
    var rest, changeFee := PayChange(est, residual.value);
    if rest.Err? {
      return Err(rest.error), c;
    }
    var change, deficit := rest.value.0, rest.value.1;
    c := Receipt(nb, nv, residual.value, changeFee, deficit, 0);
    assert Fits(boarding, vtxos, outputs, est) ==> Total(boarding) + Total(vtxos) < Uint64 by { FitsTotal(boarding, vtxos, outputs, est); }
    TotalPrefix(boarding, nb);
    TotalPrefix(vtxos, nv);
    if change >= dust {
      r := Ok(Selection(boarding[..nb], vtxos[..nv], change));
    } else if nv < |vtxos| {
      OneMore(vtxos, Offchain(est), nv);
      PricedMore(est, outputs, boarding, vtxos, nb, nv);
      var folded := FoldIn(vtxos[nv], Offchain(est), change, deficit);
      if folded.Err? {
        return Err(folded.error), c;
      }
      c := c.(deficit := folded.value.1);
      r := Ok(Selection(boarding[..nb], vtxos[..nv + 1], folded.value.0));
    } else if nb < |boarding| {
      OneMore(boarding, Onchain(est), nb);
      PricedMore(est, outputs, boarding, vtxos, nb, nv);
      var folded := FoldIn(boarding[nb], Onchain(est), change, deficit);
      if folded.Err? {
        return Err(folded.error), c;
      }
      c := c.(deficit := folded.value.1);
      r := Ok(Selection(boarding[..nb + 1], vtxos[..nv], folded.value.0));
    } else {
      c := c.(dropped := change);
      r := Ok(Selection(boarding[..nb], vtxos[..nv], 0));
    }
  }

  lemma {:induction false} TotalConcat(a: seq<Coin>, b: seq<Coin>)
    ensures Total(a + b) == Total(a) + Total(b)
    decreases |b|
  {
    if b == [] {
      assert a + b == a;
    } else {
      TotalConcat(a, b[..|b| - 1]);
      assert (a + b)[..|a + b| - 1] == a + b[..|b| - 1];
    }
  }

  lemma TotalWithout(coins: seq<Coin>, i: nat)
    requires i < |coins|
    ensures Total(coins) == Total(coins[..i] + coins[i + 1..]) + coins[i].amount
    ensures multiset(coins) == multiset(coins[..i] + coins[i + 1..]) + multiset{coins[i]}
  {
    hide Total;
    var a, c, b := coins[..i], coins[i], coins[i + 1..];
    assert coins == a + ([c] + b);
    TotalConcat(a, [c] + b);
    TotalConcat([c], b);
    TotalConcat(a, b);
    OneCoin(c);
  }

  /** Sorting does not change what coins are worth. */
  lemma {:induction false} SameTotal(a: seq<Coin>, b: seq<Coin>)
    requires multiset(a) == multiset(b)
    ensures Total(a) == Total(b)
    decreases |a|
  {
    hide Total;
    if a == [] {
      assert |multiset(b)| == |b|;
    } else {
      assert a[0] in multiset(a) && a[0] in b;
      var i :| 0 <= i < |b| && b[i] == a[0];
      TotalWithout(a, 0);
      TotalWithout(b, i);
      var rest, rest' := a[..0] + a[1..], b[..i] + b[i + 1..];
      assert multiset(rest) == multiset(a) - multiset{a[0]} && multiset(rest') == multiset(b) - multiset{a[0]};
      SameTotal(rest, rest');
    }
  }

  lemma OneCoin(c: Coin)
    ensures Total([c]) == c.amount
  {
    assert [c][..0] == [];
  }

  // What a selection comes to, in amounts and in fees as they were evaluated.

  ghost function Sum(values: seq<int>): int {
    if values == [] then 0 else Sum(values[..|values| - 1]) + values[|values| - 1]
  }

  function SatsOf(fee: Eval): int {
    if fee.Fee? then fee.sats else 0
  }

  ghost function Amounts(coins: seq<Coin>): seq<int> {
    seq(|coins|, i requires 0 <= i < |coins| => coins[i].amount)
  }

  ghost function Fees(fee: Coin -> Eval, coins: seq<Coin>): seq<int> {
    seq(|coins|, i requires 0 <= i < |coins| => SatsOf(fee(coins[i])))
  }

  /** Each output with its own fee. */
  ghost function WithFees(est: Option<Estimator>, outputs: seq<Receiver>): seq<int> {
    seq(|outputs|, i requires 0 <= i < |outputs| =>
      outputs[i].amount
      + if est.None? then 0
        else if outputs[i].onchain then SatsOf(est.value.onchainOutput(outputs[i]))
        else SatsOf(est.value.offchainOutput(outputs[i])))
  }

  ghost function Spending(est: Option<Estimator>, outputs: seq<Receiver>): int {
    Sum(WithFees(est, outputs))
  }

  /** The fees of the inputs: boarding utxos pay as onchain inputs, vtxos as offchain inputs. */
  ghost function Charged(est: Option<Estimator>, boarding: seq<Coin>, vtxos: seq<Coin>): int {
    if est.None? then 0 else Sum(Fees(est.value.onchainInput, boarding)) + Sum(Fees(est.value.offchainInput, vtxos))
  }

  /** The coins are worth at least the outputs and all fees but that of the change. */
  ghost predicate Covers(est: Option<Estimator>, outputs: seq<Receiver>, boarding: seq<Coin>, vtxos: seq<Coin>) {
    Sum(Amounts(boarding)) + Sum(Amounts(vtxos)) >= Spending(est, outputs) + Charged(est, boarding, vtxos)
  }

  /** Some first boarding utxos cover what is due, or all of them with some first vtxos do. */
  ghost predicate Coverable(est: Option<Estimator>, outputs: seq<Receiver>, boarding: seq<Coin>, vtxos: seq<Coin>) {
    || (exists k :: 0 <= k <= |boarding| && Covers(est, outputs, boarding[..k], []))
    || (exists k :: 0 <= k <= |vtxos| && Covers(est, outputs, boarding, vtxos[..k]))
  }

  lemma SumSnoc(values: seq<int>, v: int)
    ensures Sum(values + [v]) == Sum(values) + v
  {
    assert (values + [v])[..|values|] == values;
  }

  lemma {:induction false} TotalMeans(coins: seq<Coin>)
    ensures Total(coins) == Sum(Amounts(coins))
  {
    hide Sum;
    if coins == [] {
      assert Amounts(coins) == [];
      SumNothing();
    } else {
      var n := |coins| - 1;
      TotalMeans(coins[..n]);
      assert Amounts(coins) == Amounts(coins[..n]) + [coins[n].amount];
      SumSnoc(Amounts(coins[..n]), coins[n].amount);
    }
  }

  lemma SumNothing()
    ensures Sum([]) == 0
  {
  }

  lemma {:induction false} FeesMean(fee: Coin -> Eval, coins: seq<Coin>)
    requires forall i :: 0 <= i < |coins| ==> Payable(fee(coins[i]))
    ensures InputFees(Some(fee), coins) == Sum(Fees(fee, coins))
  {
    hide Sum;
    if coins == [] {
      assert Fees(fee, coins) == [];
      SumNothing();
    } else {
      var n := |coins| - 1;
      FeesMean(fee, coins[..n]);
      assert Fees(fee, coins) == Fees(fee, coins[..n]) + [SatsOf(fee(coins[n]))];
      SumSnoc(Fees(fee, coins[..n]), SatsOf(fee(coins[n])));
    }
  }

  lemma {:induction false} CostMeans(est: Option<Estimator>, outputs: seq<Receiver>)
    requires Priced(est, outputs, [], [])
    ensures Cost(est, outputs) == Spending(est, outputs)
  {
    hide Sum;
    if outputs == [] {
      assert WithFees(est, outputs) == [];
      SumNothing();
    } else {
      var n := |outputs| - 1;
      CostMeans(est, outputs[..n]);
      var last := outputs[n].amount + OutputFee(est, outputs[n]);
      assert WithFees(est, outputs) == WithFees(est, outputs[..n]) + [last];
      SumSnoc(WithFees(est, outputs[..n]), last);
    }
  }

  lemma DueMeans(est: Option<Estimator>, outputs: seq<Receiver>, boarding: seq<Coin>, vtxos: seq<Coin>)
    requires Priced(est, outputs, boarding, vtxos)
    ensures Due(est, outputs, boarding, vtxos) == Spending(est, outputs) + Charged(est, boarding, vtxos)
    ensures Covers(est, outputs, boarding, vtxos) <==> Total(boarding) + Total(vtxos) >= Due(est, outputs, boarding, vtxos)
  {
    hide Cost, Spending, Sum, Fees, Amounts;
    CostMeans(est, outputs);
    TotalMeans(boarding);
    TotalMeans(vtxos);
    if est.Some? {
      FeesMean(est.value.onchainInput, boarding);
      FeesMean(est.value.offchainInput, vtxos);
    } else {
      NoFees(boarding);
      NoFees(vtxos);
    }
  }

  lemma NoFees(coins: seq<Coin>)
    ensures InputFees(None, coins) == 0
  {
  }

  lemma PricedPart(est: Option<Estimator>, outputs: seq<Receiver>, boarding: seq<Coin>, vtxos: seq<Coin>, nb: nat, nv: nat)
    requires Priced(est, outputs, boarding, vtxos) && nb <= |boarding| && nv <= |vtxos|
    ensures Priced(est, outputs, boarding[..nb], vtxos[..nv])
  {
  }

  /** The coins picked first are the fewest: no shorter first part of them covers what is due. */
  lemma ShortestMeans(
    est: Option<Estimator>, outputs: seq<Receiver>, boarding: seq<Coin>, vtxos: seq<Coin>, nb: nat, nv: nat)
    requires nb <= |boarding| && nv <= |vtxos| && Priced(est, outputs, boarding[..nb], vtxos[..nv])
    requires Shortest(est, outputs, boarding, vtxos, nb, nv)
    ensures forall k :: 0 <= k < nb ==> !Covers(est, outputs, boarding[..k], [])
    ensures forall k :: 0 <= k < nv ==> !Covers(est, outputs, boarding[..nb], vtxos[..k])
  {
    hide Covers, Priced, Due;
    var b, v := boarding[..nb], vtxos[..nv];
    assert v[..0] == [] && b[..nb] == b;
    forall k | 0 <= k < nb ensures !Covers(est, outputs, boarding[..k], []) {
      PricedPart(est, outputs, b, v, k, 0);
      assert b[..k] == boarding[..k];
      DueMeans(est, outputs, boarding[..k], []);
      TotalMeans([]);
      SumNothing();
      assert Amounts([]) == [];
    }
    forall k | 0 <= k < nv ensures !Covers(est, outputs, b, vtxos[..k]) {
      PricedPart(est, outputs, b, v, nb, k);
      assert v[..k] == vtxos[..k];
      DueMeans(est, outputs, b, vtxos[..k]);
    }
  }

  /** The sums of outputs with their fees, and of all coins, fit 64 bits. */
  ghost predicate SumsFit(est: Option<Estimator>, outputs: seq<Receiver>, boarding: seq<Coin>, vtxos: seq<Coin>) {
    Spending(est, outputs) < Uint64 && Sum(Amounts(boarding)) + Sum(Amounts(vtxos)) < Uint64
  }

  lemma FitsMeans(est: Option<Estimator>, outputs: seq<Receiver>, boarding: seq<Coin>, vtxos: seq<Coin>)
    requires Priced(est, outputs, [], [])
    ensures SumsFit(est, outputs, boarding, vtxos) <==> Fits(boarding, vtxos, outputs, est)
  {
    hide Cost, Spending, Total, Sum;
    CostMeans(est, outputs);
    TotalMeans(boarding);
    TotalMeans(vtxos);
  }

  /**
   The books of a selection, in amounts and fees. The first nb boarding utxos and nv vtxos cover what is due
   and leave the residual, no fewer of them do, and in the end what is selected and what is still owed pays for
   the outputs, the inputs and the change, with the change and dropped dust left.
   */
  ghost predicate Books(
    est: Option<Estimator>, outputs: seq<Receiver>, boarding: seq<Coin>, vtxos: seq<Coin>, s: Selection, c: Receipt)
  {
    && c.boarding <= |boarding| && c.vtxos <= |vtxos|
    && var b, v := boarding[..c.boarding], vtxos[..c.vtxos];
    && Sum(Amounts(b)) + Sum(Amounts(v)) == Spending(est, outputs) + Charged(est, b, v) + c.residual
    && (forall k :: 0 <= k < c.boarding ==> !Covers(est, outputs, boarding[..k], []))
    && (forall k :: 0 <= k < c.vtxos ==> !Covers(est, outputs, b, vtxos[..k]))
    && c.changeFee == (if est.None? then 0 else SatsOf(est.value.offchainOutput(Receiver(c.residual, false))))
    && Sum(Amounts(s.boarding)) + Sum(Amounts(s.vtxos)) + c.deficit
       == Spending(est, outputs) + Charged(est, s.boarding, s.vtxos) + c.changeFee + s.change + c.dropped
  }

  lemma BooksKept(
    est: Option<Estimator>, outputs: seq<Receiver>, boarding: seq<Coin>, vtxos: seq<Coin>, s: Selection, c: Receipt)
    requires c.boarding <= |boarding| && c.vtxos <= |vtxos| && Balanced(est, outputs, s, c)
    requires Folds(boarding, c.boarding, s.boarding) && Folds(vtxos, c.vtxos, s.vtxos)
    requires Priced(est, outputs, s.boarding, s.vtxos)
    requires est.Some? ==> Payable(est.value.offchainOutput(Receiver(c.residual, false)))
    requires Total(boarding[..c.boarding]) + Total(vtxos[..c.vtxos])
             == Due(est, outputs, boarding[..c.boarding], vtxos[..c.vtxos]) + c.residual
    requires Shortest(est, outputs, boarding, vtxos, c.boarding, c.vtxos)
    ensures Books(est, outputs, boarding, vtxos, s, c)
  {
    hide Covers, Priced, Due, Shortest, Spending, Charged, Sum, Total, Amounts;
    var b, v := boarding[..c.boarding], vtxos[..c.vtxos];
    assert s.boarding[..c.boarding] == b && s.vtxos[..c.vtxos] == v;
    PricedPart(est, outputs, s.boarding, s.vtxos, c.boarding, c.vtxos);
    DueMeans(est, outputs, b, v);
    DueMeans(est, outputs, s.boarding, s.vtxos);
    TotalMeans(b);
    TotalMeans(v);
    TotalMeans(s.boarding);
    TotalMeans(s.vtxos);
    ShortestMeans(est, outputs, boarding, vtxos, c.boarding, c.vtxos);
  }

  /** If there are not enough funds, no first part of the coins covers what is due. */
  lemma NotCoverable(est: Option<Estimator>, outputs: seq<Receiver>, boarding: seq<Coin>, vtxos: seq<Coin>)
    requires Priced(est, outputs, boarding, vtxos) && Shortest(est, outputs, boarding, vtxos, |boarding|, |vtxos|)
    requires Total(boarding) + Total(vtxos) < Due(est, outputs, boarding, vtxos)
    ensures !Coverable(est, outputs, boarding, vtxos)
  {
    hide Covers, Priced, Due, Shortest, Total;
    assert boarding[..|boarding|] == boarding && vtxos[..|vtxos|] == vtxos && vtxos[..0] == [];
    DueMeans(est, outputs, boarding, vtxos);
    ShortestMeans(est, outputs, boarding, vtxos, |boarding|, |vtxos|);
  }

  /** All fees evaluate and none is negative, and no sum leaves 64 bits. */
  ghost predicate Computable(est: Option<Estimator>, outputs: seq<Receiver>, boarding: seq<Coin>, vtxos: seq<Coin>) {
    && Priced(est, outputs, boarding, vtxos) && SumsFit(est, outputs, boarding, vtxos)
    && (est.Some? ==> forall a: Amount :: Payable(est.value.offchainOutput(Receiver(a, false))))
    && Spending(est, outputs) + Charged(est, boarding, vtxos) < Uint64
  }

  /**
   Selects boarding utxos that are redeemable first and spares the vtxos that expire first. If every fee
   evaluates and no sum leaves 64 bits it succeeds exactly if the coins, taken in their order, cover what is due.
   */
  method CoinSelect(boardingUtxos: seq<Coin>, vtxos: seq<Coin>, outputs: seq<Receiver>, dust: Amount, est: Option<Estimator>)
    returns (r: Result<Selection>, c: Receipt, sortedBoarding: seq<Coin>, sortedVtxos: seq<Coin>)
    ensures StablySorted(boardingUtxos, sortedBoarding, RedeemableFirst)
    ensures StablySorted(vtxos, sortedVtxos, ExpiringLast)
    ensures forall i, j :: 0 <= i < j < |sortedBoarding| ==> sortedBoarding[i].time <= sortedBoarding[j].time
    ensures forall i, j :: 0 <= i < j < |sortedVtxos| ==> sortedVtxos[i].time >= sortedVtxos[j].time
    ensures r.Ok? ==> r.value.boarding <= sortedBoarding && r.value.vtxos <= sortedVtxos
    ensures r.Ok? ==> r.value.change == 0 || c.deficit == 0
    ensures r.Ok? ==> Priced(est, outputs, r.value.boarding, r.value.vtxos)
    ensures r.Ok? && SumsFit(est, outputs, boardingUtxos, vtxos) ==>
              Books(est, outputs, sortedBoarding, sortedVtxos, r.value, c)
    ensures r.Ok? ==>
              var dusty := dust > 0 && c.residual < c.changeFee + dust;
              && |r.value.vtxos| == c.vtxos + (if dusty && c.vtxos < |sortedVtxos| then 1 else 0)
              && |r.value.boarding|
                 == c.boarding + (if dusty && c.vtxos == |sortedVtxos| && c.boarding < |sortedBoarding| then 1 else 0)
    ensures r.Ok? ==> c.dropped < dust || c.dropped == 0
    ensures Computable(est, outputs, sortedBoarding, sortedVtxos) ==>
              && (r.Ok? <==> Coverable(est, outputs, sortedBoarding, sortedVtxos))
              && (r.Err? ==> r.error == NotEnoughFunds)
  {
    sortedVtxos := SortStable(vtxos, ExpiringLast);
    sortedBoarding := SortStable(boardingUtxos, RedeemableFirst);
    hide Cost, Shortest, Total, InputFees, WithKey, Sorted, Balanced, Due, Priced, Books, SumsFit, Covers, Fits;
    TimesSorted(sortedBoarding, sortedVtxos);
    r, c := SelectSorted(sortedBoarding, sortedVtxos, outputs, dust, est);
    SameTotal(vtxos, sortedVtxos);
    SameTotal(boardingUtxos, sortedBoarding);
    if r.Ok? {
      OutputsPriced(est, outputs, r.value.boarding, r.value.vtxos);
      FitsMeans(est, outputs, boardingUtxos, vtxos);
      FitsSorted(est, outputs, boardingUtxos, vtxos, sortedBoarding, sortedVtxos);
      if Fits(sortedBoarding, sortedVtxos, outputs, est) {
        BooksKept(est, outputs, sortedBoarding, sortedVtxos, r.value, c);
      }
    }
    if Computable(est, outputs, sortedBoarding, sortedVtxos) {
      OutputsPriced(est, outputs, sortedBoarding, sortedVtxos);
      FitsMeans(est, outputs, sortedBoarding, sortedVtxos);
      DueMeans(est, outputs, sortedBoarding, sortedVtxos);
      if r.Ok? {
        BooksCover(est, outputs, sortedBoarding, sortedVtxos, r.value, c);
      } else {
        NotCoverable(est, outputs, sortedBoarding, sortedVtxos);
      }
    }
  }

  lemma OutputsPriced(est: Option<Estimator>, outputs: seq<Receiver>, boarding: seq<Coin>, vtxos: seq<Coin>)
    requires Priced(est, outputs, boarding, vtxos)
    ensures Priced(est, outputs, [], [])
  {
  }

  lemma FitsSorted(
    est: Option<Estimator>, outputs: seq<Receiver>, boarding: seq<Coin>, vtxos: seq<Coin>, boarding': seq<Coin>, vtxos': seq<Coin>)
    requires Total(boarding) == Total(boarding') && Total(vtxos) == Total(vtxos')
    ensures Fits(boarding, vtxos, outputs, est) <==> Fits(boarding', vtxos', outputs, est)
  {
  }

  lemma BooksCover(
    est: Option<Estimator>, outputs: seq<Receiver>, boarding: seq<Coin>, vtxos: seq<Coin>, s: Selection, c: Receipt)
    requires Books(est, outputs, boarding, vtxos, s, c) && (c.vtxos == 0 || c.boarding == |boarding|)
    ensures Coverable(est, outputs, boarding, vtxos)
  {
    hide Spending, Charged, Sum, Amounts;
    assert Covers(est, outputs, boarding[..c.boarding], vtxos[..c.vtxos]);
    assert c.vtxos == 0 ==> vtxos[..0] == [];
    assert c.boarding == |boarding| ==> boarding[..c.boarding] == boarding;
  }

  lemma TimesSorted(boarding: seq<Coin>, vtxos: seq<Coin>)
    requires Sorted(boarding, RedeemableFirst) && Sorted(vtxos, ExpiringLast)
    ensures forall i, j :: 0 <= i < j < |boarding| ==> boarding[i].time <= boarding[j].time
    ensures forall i, j :: 0 <= i < j < |vtxos| ==> vtxos[i].time >= vtxos[j].time
  {
    forall i, j | 0 <= i < j < |boarding| ensures boarding[i].time <= boarding[j].time {
      assert RedeemableFirst(boarding[i]) <= RedeemableFirst(boarding[j]);
    }
    forall i, j | 0 <= i < j < |vtxos| ensures vtxos[i].time >= vtxos[j].time {
      assert ExpiringLast(vtxos[i]) <= ExpiringLast(vtxos[j]);
    }
  }
}
