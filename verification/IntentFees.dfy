/** The fees of an intent: what a registration demands and what the estimate announced. */
module IntentFees {
  import opened Outpoints

  type Script = string

  datatype TxOut = TxOut(value: int, script: Script)

  /** An input of the intent proof with the witness utxo the client claims for it. */
  datatype Input = Input(outpoint: Outpoint, claimed: TxOut)

  datatype Row = Row(outpoint: Outpoint, amount: nat, spent: bool, unrolled: bool)

  type Rows = map<Outpoint, Row>

  /** An output of the proof; an extension has no receiver, may fail to decode, and else holds some packet. */
  datatype Output = Output(out: TxOut, extension: bool, decodes: bool)

  /** The four lists fees are computed from, each in the order of the proof. */
  datatype FeeLists = FeeLists(
    onchainInputs: seq<TxOut>, offchainInputs: seq<Row>, onchainOutputs: seq<TxOut>, offchainOutputs: seq<TxOut>)

  const MaxSatoshi: int := 21_000_000 * 100_000_000

  // What the lists should be.

  /** An input counts as onchain if no vtxo row is found for it or its vtxo is unrolled. */
  predicate CountsOnchain(rows: Rows, input: Input) {
    input.outpoint !in rows || rows[input.outpoint].unrolled
  }

  function OnchainValue(rows: Rows, input: Input): TxOut {
    if input.outpoint in rows then TxOut(rows[input.outpoint].amount, input.claimed.script) else input.claimed
  }

  function OnchainInputs(rows: Rows, inputs: seq<Input>): seq<TxOut> {
    if inputs == [] then []
    else
      var last := inputs[|inputs| - 1];
      OnchainInputs(rows, inputs[..|inputs| - 1]) + if CountsOnchain(rows, last) then [OnchainValue(rows, last)] else []
  }

  function OffchainInputs(rows: Rows, inputs: seq<Input>): seq<Row> {
    if inputs == [] then []
    else
      var last := inputs[|inputs| - 1];
      OffchainInputs(rows, inputs[..|inputs| - 1]) + if CountsOnchain(rows, last) then [] else [rows[last.outpoint]]
  }

  /** The outputs that are no extension, on one side. */
  function Outputs(outs: seq<Output>, onchain: set<nat>, side: bool): seq<TxOut> {
    if outs == [] then []
    else
      var n := |outs| - 1;
      Outputs(outs[..n], onchain, side) + if !outs[n].extension && (n in onchain) == side then [outs[n].out] else []
  }

  function Lists(rows: Rows, inputs: seq<Input>, outs: seq<Output>, onchain: set<nat>): FeeLists {
    FeeLists(OnchainInputs(rows, inputs), OffchainInputs(rows, inputs), Outputs(outs, onchain, true),
             Outputs(outs, onchain, false))
  }

  // The lists, index by index.

  ghost predicate Increasing(at: seq<nat>) {
    forall i, j :: 0 <= i < j < |at| ==> at[i] < at[j]
  }

  lemma IncreasingSnoc(at: seq<nat>, n: nat)
    requires Increasing(at) && forall i :: i in at ==> i < n
    ensures Increasing(at + [n])
  {
    assert forall i :: 0 <= i < |at| ==> at[i] in at;
  }

  /** The onchain inputs are those without a row, as claimed, and those of unrolled vtxos, with the amounts of their rows. */
  lemma {:induction false} OnchainInputsAt(rows: Rows, inputs: seq<Input>) returns (at: seq<nat>)
    ensures Increasing(at)
    ensures forall i: nat :: i in at <==> i < |inputs| && (inputs[i].outpoint in rows ==> rows[inputs[i].outpoint].unrolled)
    ensures |OnchainInputs(rows, inputs)| == |at|
    ensures forall k :: 0 <= k < |at| ==>
              && at[k] < |inputs|
              && var input := inputs[at[k]];
              && OnchainInputs(rows, inputs)[k].script == input.claimed.script
              && OnchainInputs(rows, inputs)[k].value
                 == if input.outpoint in rows then rows[input.outpoint].amount else input.claimed.value
  {
    at := [];
    if inputs != [] {
      var n := |inputs| - 1;
      at := OnchainInputsAt(rows, inputs[..n]);
      assert forall k :: 0 <= k < |at| ==> inputs[..n][at[k]] == inputs[at[k]];
      assert forall i :: 0 <= i < n ==> inputs[..n][i] == inputs[i];
      IncreasingSnoc(at, n);
      hide Increasing;
      if CountsOnchain(rows, inputs[n]) {
        at := at + [n];
      }
    }
  }

  /** The offchain inputs are the rows of the other vtxos. */
  lemma {:induction false} OffchainInputsAt(rows: Rows, inputs: seq<Input>) returns (at: seq<nat>)
    ensures Increasing(at)
    ensures forall i: nat :: i in at <==> i < |inputs| && inputs[i].outpoint in rows && !rows[inputs[i].outpoint].unrolled
    ensures |OffchainInputs(rows, inputs)| == |at|
    ensures forall k :: 0 <= k < |at| ==>
              at[k] < |inputs| && inputs[at[k]].outpoint in rows && OffchainInputs(rows, inputs)[k] == rows[inputs[at[k]].outpoint]
  {
    at := [];
    if inputs != [] {
      var n := |inputs| - 1;
      at := OffchainInputsAt(rows, inputs[..n]);
      assert forall k :: 0 <= k < |at| ==> at[k] in at && inputs[..n][at[k]] == inputs[at[k]];
      if !CountsOnchain(rows, inputs[n]) {
        IncreasingSnoc(at, n);
        at := at + [n];
      }
    }
  }

  lemma {:induction false} OutputsAt(outs: seq<Output>, onchain: set<nat>, side: bool) returns (at: seq<nat>)
    ensures Increasing(at)
    ensures forall i: nat :: i in at <==> i < |outs| && !outs[i].extension && (side <==> i in onchain)
    ensures |Outputs(outs, onchain, side)| == |at|
    ensures forall k :: 0 <= k < |at| ==> at[k] < |outs| && Outputs(outs, onchain, side)[k] == outs[at[k]].out
  {
    at := [];
    if outs != [] {
      var n := |outs| - 1;
      at := OutputsAt(outs[..n], onchain, side);
      assert forall k :: 0 <= k < |at| ==> at[k] in at && outs[..n][at[k]] == outs[at[k]];
      if !outs[n].extension && (n in onchain) == side {
        IncreasingSnoc(at, n);
        at := at + [n];
      }
    }
  }

  /**
   The four lists by index, each in the order of the proof: inputs that count as onchain and as offchain, and
   the outputs that are no extension by whether their index is declared onchain.
   */
  lemma ListsByIndex(rows: Rows, inputs: seq<Input>, outs: seq<Output>, onchain: set<nat>)
    returns (inOn: seq<nat>, inOff: seq<nat>, outOn: seq<nat>, outOff: seq<nat>)
    ensures Increasing(inOn) && Increasing(inOff) && Increasing(outOn) && Increasing(outOff)
    ensures forall i: nat :: i in inOn <==> i < |inputs| && (inputs[i].outpoint in rows ==> rows[inputs[i].outpoint].unrolled)
    ensures forall i: nat :: i in inOff <==> i < |inputs| && inputs[i].outpoint in rows && !rows[inputs[i].outpoint].unrolled
    ensures forall i: nat :: i in outOn <==> i < |outs| && !outs[i].extension && i in onchain
    ensures forall i: nat :: i in outOff <==> i < |outs| && !outs[i].extension && i !in onchain
    ensures var l := Lists(rows, inputs, outs, onchain);
            && |l.onchainInputs| == |inOn| && |l.offchainInputs| == |inOff|
            && |l.onchainOutputs| == |outOn| && |l.offchainOutputs| == |outOff|
            && (forall k :: 0 <= k < |inOn| ==>
                  && inOn[k] < |inputs|
                  && var input := inputs[inOn[k]];
                  && l.onchainInputs[k].script == input.claimed.script
                  && l.onchainInputs[k].value
                     == if input.outpoint in rows then rows[input.outpoint].amount else input.claimed.value)
            && (forall k :: 0 <= k < |inOff| ==>
                  && inOff[k] < |inputs| && inputs[inOff[k]].outpoint in rows
                  && l.offchainInputs[k] == rows[inputs[inOff[k]].outpoint])
            && (forall k :: 0 <= k < |outOn| ==> outOn[k] < |outs| && l.onchainOutputs[k] == outs[outOn[k]].out)
            && (forall k :: 0 <= k < |outOff| ==> outOff[k] < |outs| && l.offchainOutputs[k] == outs[outOff[k]].out)
  {
    hide OnchainInputs, OffchainInputs, Outputs;
    inOn := OnchainInputsAt(rows, inputs);
    inOff := OffchainInputsAt(rows, inputs);
    outOn := OutputsAt(outs, onchain, true);
    outOff := OutputsAt(outs, onchain, false);
  }

  // The estimate.

  /** Reads the rows one by one; an outpoint in unread is one whose read failed, and counts as no vtxo. */
  method EstimateLists(rows: Rows, unread: set<Outpoint>, inputs: seq<Input>, outs: seq<Output>, onchain: set<nat>)
    returns (r: Option<FeeLists>)
    ensures r.Some? ==> r.value == Lists(rows - unread, inputs, outs, onchain)
    ensures r.None? <==>
              exists i :: 0 <= i < |inputs| && inputs[i].outpoint !in rows - unread
                && !(0 <= inputs[i].claimed.value <= MaxSatoshi)
  {
    var seen := rows - unread;
    var onchainInputs: seq<TxOut>, offchainInputs: seq<Row> := [], [];
    for i := 0 to |inputs|
      invariant onchainInputs == OnchainInputs(seen, inputs[..i])
      invariant offchainInputs == OffchainInputs(seen, inputs[..i])
      invariant forall j :: 0 <= j < i && inputs[j].outpoint !in seen ==> 0 <= inputs[j].claimed.value <= MaxSatoshi
    {
      var input := inputs[i];
      assert inputs[..i + 1][..i] == inputs[..i];
      if input.outpoint !in seen {
        if input.claimed.value < 0 || input.claimed.value > MaxSatoshi {
          return None;
        }
        onchainInputs := onchainInputs + [input.claimed];
      } else if seen[input.outpoint].unrolled {
        onchainInputs := onchainInputs + [TxOut(seen[input.outpoint].amount, input.claimed.script)];
      } else {
        offchainInputs := offchainInputs + [seen[input.outpoint]];
      }
    }
    assert inputs[..|inputs|] == inputs;
    var on, off := SplitOutputs(outs, onchain);
    return Some(FeeLists(onchainInputs, offchainInputs, on, off));
  }

  method SplitOutputs(outs: seq<Output>, onchain: set<nat>) returns (on: seq<TxOut>, off: seq<TxOut>)
    ensures on == Outputs(outs, onchain, true) && off == Outputs(outs, onchain, false)
  {
    on, off := [], [];
    for i := 0 to |outs|
      invariant on == Outputs(outs[..i], onchain, true) && off == Outputs(outs[..i], onchain, false)
    {
      assert outs[..i + 1][..i] == outs[..i];
      if !outs[i].extension {
        if i in onchain {
          on := on + [outs[i].out];
        } else {
          off := off + [outs[i].out];
        }
      }
    }
    assert outs[..|outs|] == outs;
  }

  // The registration.

  /**
   No onchain outputs beside an input that is no vtxo; a vtxo is not spent, and unless it is unrolled its
   claimed value is its amount.
   */
  predicate InputAllowed(rows: Rows, input: Input, onchain: set<nat>) {
    if input.outpoint !in rows then onchain == {}
    else
      var row := rows[input.outpoint];
      !row.spent && (!row.unrolled ==> input.claimed.value == row.amount)
  }

  /** The inputs as the registration files them: boarding utxos, and vtxos that include the unrolled ones. */
  method RegisterInputs(rows: Rows, inputs: seq<Input>, onchain: set<nat>)
    returns (r: Option<(seq<Input>, seq<Row>)>)
    ensures r.Some? ==> r.value.0 == Boarding(rows, inputs) && r.value.1 == Tracked(rows, inputs)
    ensures r.Some? <==> forall i :: 0 <= i < |inputs| ==> InputAllowed(rows, inputs[i], onchain)
  {
    var boarding: seq<Input>, vtxos: seq<Row> := [], [];
    for i := 0 to |inputs|
      invariant boarding == Boarding(rows, inputs[..i]) && vtxos == Tracked(rows, inputs[..i])
      invariant forall j :: 0 <= j < i ==> InputAllowed(rows, inputs[j], onchain)
    {
      var input := inputs[i];
      assert inputs[..i + 1][..i] == inputs[..i];
      if input.outpoint !in rows {
        if onchain != {} {
          return None;
        }
        boarding := boarding + [input];
      } else {
        var row := rows[input.outpoint];
        if row.spent {
          return None;
        }
        if row.unrolled {
          boarding := boarding + [input];
          vtxos := vtxos + [row];
        } else {
          if input.claimed.value != row.amount {
            return None;
          }
          vtxos := vtxos + [row];
        }
      }
    }
    assert inputs[..|inputs|] == inputs;
    return Some((boarding, vtxos));
  }

  function Boarding(rows: Rows, inputs: seq<Input>): seq<Input> {
    if inputs == [] then []
    else
      var last := inputs[|inputs| - 1];
      Boarding(rows, inputs[..|inputs| - 1]) + if CountsOnchain(rows, last) then [last] else []
  }

  function Tracked(rows: Rows, inputs: seq<Input>): seq<Row> {
    if inputs == [] then []
    else
      var last := inputs[|inputs| - 1];
      Tracked(rows, inputs[..|inputs| - 1]) + if last.outpoint in rows then [rows[last.outpoint]] else []
  }

  /** At most one extension, which decodes and holds no value; allowed is the condition on the others. */
  predicate OutputsAllowed(outs: seq<Output>, onchain: set<nat>, allowed: (TxOut, bool) -> bool) {
    && (forall i :: 0 <= i < |outs| ==>
          if outs[i].extension then outs[i].out.value == 0 && outs[i].decodes else allowed(outs[i].out, i in onchain))
    && (forall i, j :: 0 <= i < j < |outs| ==> !(outs[i].extension && outs[j].extension))
  }

  /** The outputs as the registration checks them. */
  method RegisterOutputs(outs: seq<Output>, onchain: set<nat>, allowed: (TxOut, bool) -> bool)
    returns (r: Option<(seq<TxOut>, seq<TxOut>)>)
    ensures r.Some? ==> r.value.0 == Outputs(outs, onchain, true) && r.value.1 == Outputs(outs, onchain, false)
    ensures r.Some? <==> OutputsAllowed(outs, onchain, allowed)
  {
    var on: seq<TxOut>, off: seq<TxOut> := [], [];
    var hasExtension := false;
    for i := 0 to |outs|
      invariant on == Outputs(outs[..i], onchain, true) && off == Outputs(outs[..i], onchain, false)
      invariant forall j :: 0 <= j < i ==>
                  if outs[j].extension then outs[j].out.value == 0 && outs[j].decodes else allowed(outs[j].out, j in onchain)
      invariant forall j, k :: 0 <= j < k < i ==> !(outs[j].extension && outs[k].extension)
      invariant hasExtension <==> exists j :: 0 <= j < i && outs[j].extension
    {
      assert outs[..i + 1][..i] == outs[..i];
      if outs[i].extension {
        if hasExtension || outs[i].out.value != 0 || !outs[i].decodes {
          return None;
        }
        hasExtension := true;
      } else if !allowed(outs[i].out, i in onchain) {
        return None;
      } else if i in onchain {
        on := on + [outs[i].out];
      } else {
        off := off + [outs[i].out];
      }
    }
    assert outs[..|outs|] == outs;
    return Some((on, off));
  }

  /** The boarding inputs as claimed, and the vtxos that are not already counted among them. */
  method FeeInputs(boarding: seq<Input>, vtxos: seq<Row>) returns (onchainInputs: seq<TxOut>, feeVtxos: seq<Row>)
    ensures onchainInputs == ClaimedOf(boarding) && feeVtxos == NotUnrolled(vtxos)
  {
    onchainInputs, feeVtxos := [], [];
    for i := 0 to |boarding|
      invariant onchainInputs == ClaimedOf(boarding[..i])
    {
      onchainInputs := onchainInputs + [boarding[i].claimed];
    }
    for i := 0 to |vtxos|
      invariant feeVtxos == NotUnrolled(vtxos[..i])
    {
      assert vtxos[..i + 1][..i] == vtxos[..i];
      if !vtxos[i].unrolled {
        feeVtxos := feeVtxos + [vtxos[i]];
      }
    }
    assert vtxos[..|vtxos|] == vtxos && boarding[..|boarding|] == boarding;
  }

  function ClaimedOf(boarding: seq<Input>): seq<TxOut> {
    seq(|boarding|, i requires 0 <= i < |boarding| => boarding[i].claimed)
  }

  function NotUnrolled(vtxos: seq<Row>): seq<Row> {
    if vtxos == [] then []
    else NotUnrolled(vtxos[..|vtxos| - 1]) + if vtxos[|vtxos| - 1].unrolled then [] else [vtxos[|vtxos| - 1]]
  }

  lemma {:induction false} NotUnrolledSnoc(vtxos: seq<Row>, row: Row)
    ensures NotUnrolled(vtxos + [row]) == NotUnrolled(vtxos) + if row.unrolled then [] else [row]
  {
    assert (vtxos + [row])[..|vtxos|] == vtxos;
  }

  /** The unrolled vtxos are filed twice, and counted once. */
  lemma {:induction false} CountedOnce(rows: Rows, inputs: seq<Input>)
    ensures NotUnrolled(Tracked(rows, inputs)) == OffchainInputs(rows, inputs)
  {
    if inputs != [] {
      var n := |inputs| - 1;
      CountedOnce(rows, inputs[..n]);
      if inputs[n].outpoint in rows {
        NotUnrolledSnoc(Tracked(rows, inputs[..n]), rows[inputs[n].outpoint]);
      } else {
        assert Tracked(rows, inputs) == Tracked(rows, inputs[..n]);
      }
    }
  }

  /** The claimed utxos of unrolled vtxos have the amounts of their rows. */
  ghost predicate ClaimsAgree(rows: Rows, inputs: seq<Input>) {
    forall i :: 0 <= i < |inputs| && inputs[i].outpoint in rows && rows[inputs[i].outpoint].unrolled ==>
      inputs[i].claimed.value == rows[inputs[i].outpoint].amount
  }

  lemma {:induction false} BoardingClaims(rows: Rows, inputs: seq<Input>)
    requires ClaimsAgree(rows, inputs)
    ensures ClaimedOf(Boarding(rows, inputs)) == OnchainInputs(rows, inputs)
  {
    if inputs != [] {
      var n := |inputs| - 1;
      BoardingClaims(rows, inputs[..n]);
      var before := Boarding(rows, inputs[..n]);
      if CountsOnchain(rows, inputs[n]) {
        assert ClaimedOf(before + [inputs[n]]) == ClaimedOf(before) + [inputs[n].claimed];
        assert OnchainValue(rows, inputs[n]) == inputs[n].claimed;
      } else {
        assert Boarding(rows, inputs) == before;
      }
    }
  }

  /** The outputs that boarding inputs spend, as the chain has them. */
  type Chain = map<Outpoint, TxOut>

  /** Confirmed outputs hold valid amounts, and an unrolled vtxo has the amount of its output. */
  ghost predicate ChainAgrees(chain: Chain, rows: Rows) {
    && (forall op :: op in chain ==> 0 <= chain[op].value <= MaxSatoshi)
    && (forall op :: op in chain && op in rows && rows[op].unrolled ==> chain[op].value == rows[op].amount)
  }

  predicate Confirmed(chain: Chain, input: Input) {
    input.outpoint in chain && chain[input.outpoint] == input.claimed
  }

  /** Every boarding input claims exactly the output that the chain has. */
  method CheckBoarding(chain: Chain, boarding: seq<Input>) returns (ok: bool)
    ensures ok <==> forall b :: b in boarding ==> Confirmed(chain, b)
  {
    for i := 0 to |boarding|
      invariant forall j :: 0 <= j < i ==> Confirmed(chain, boarding[j])
    {
      var input := boarding[i];
      if input.outpoint !in chain || chain[input.outpoint] != input.claimed {
        assert input in boarding;
        return false;
      }
    }
    return true;
  }

  lemma {:induction false} BoardingHolds(rows: Rows, inputs: seq<Input>, i: nat)
    requires i < |inputs| && CountsOnchain(rows, inputs[i])
    ensures inputs[i] in Boarding(rows, inputs)
  {
    var n := |inputs| - 1;
    if i < n {
      BoardingHolds(rows, inputs[..n], i);
    }
  }

  /** Every input that counts as onchain claims exactly the output that the chain has. */
  ghost predicate BoardingAllowed(chain: Chain, rows: Rows, inputs: seq<Input>) {
    forall i :: 0 <= i < |inputs| && CountsOnchain(rows, inputs[i]) ==> Confirmed(chain, inputs[i])
  }

  lemma BoardingChecked(chain: Chain, rows: Rows, inputs: seq<Input>)
    ensures BoardingAllowed(chain, rows, inputs) <==> forall b :: b in Boarding(rows, inputs) ==> Confirmed(chain, b)
  {
    hide Confirmed, Boarding;
    forall i | 0 <= i < |inputs| && CountsOnchain(rows, inputs[i]) ensures inputs[i] in Boarding(rows, inputs) {
      BoardingHolds(rows, inputs, i);
    }
    BoardingOrigin(rows, inputs);
  }

  lemma {:induction false} BoardingOrigin(rows: Rows, inputs: seq<Input>)
    ensures forall b :: b in Boarding(rows, inputs) ==> b in inputs && CountsOnchain(rows, b)
  {
    if inputs != [] {
      BoardingOrigin(rows, inputs[..|inputs| - 1]);
    }
  }

  /**
   The rule for one input: a row that is not spent; unless the vtxo is unrolled the client claims its amount.
   An unrolled vtxo, or an input without a row, is on the chain as claimed; the latter goes with no onchain output.
   */
  ghost predicate InputRule(chain: Chain, rows: Rows, input: Input, onchain: set<nat>) {
    var op := input.outpoint;
    && (op in rows ==> !rows[op].spent)
    && (op in rows && !rows[op].unrolled ==> input.claimed.value == rows[op].amount)
    && (op !in rows || rows[op].unrolled ==> op in chain && chain[op] == input.claimed)
    && (op !in rows ==> onchain == {})
  }

  ghost predicate OutputRule(out: Output, onchain: bool, allowed: (TxOut, bool) -> bool) {
    && (out.extension ==> out.decodes && out.out.value == 0)
    && (!out.extension ==> allowed(out.out, onchain))
  }

  lemma RulesMean(
    chain: Chain, rows: Rows, inputs: seq<Input>, outs: seq<Output>, onchain: set<nat>, allowed: (TxOut, bool) -> bool)
    ensures (forall i :: 0 <= i < |inputs| ==> InputRule(chain, rows, inputs[i], onchain)) <==>
              && (forall i :: 0 <= i < |inputs| ==> InputAllowed(rows, inputs[i], onchain))
              && BoardingAllowed(chain, rows, inputs)
    ensures OutputsAllowed(outs, onchain, allowed) <==>
              && (forall i :: 0 <= i < |outs| ==> OutputRule(outs[i], i in onchain, allowed))
              && (forall i, j :: 0 <= i < j < |outs| ==> !outs[i].extension || !outs[j].extension)
  {
    assert forall i :: 0 <= i < |inputs| ==>
        (InputRule(chain, rows, inputs[i], onchain) <==>
           InputAllowed(rows, inputs[i], onchain) && (CountsOnchain(rows, inputs[i]) ==> Confirmed(chain, inputs[i])));
  }

  /**
   A registration accepts exactly if its inputs and outputs are allowed, its boarding inputs are what the
   chain has, and the fee paid is at least the fee of the four lists that the estimate builds.
   */
  method RegisterFees(
    chain: Chain, rows: Rows, inputs: seq<Input>, outs: seq<Output>, onchain: set<nat>, allowed: (TxOut, bool) -> bool,
    paid: int, compute: FeeLists -> Option<int>)
    returns (accepted: bool, lists: FeeLists)
    requires ChainAgrees(chain, rows)
    ensures accepted ==> lists == Lists(rows, inputs, outs, onchain)
    ensures accepted <==>
              && (forall i :: 0 <= i < |inputs| ==> InputAllowed(rows, inputs[i], onchain))
              && OutputsAllowed(outs, onchain, allowed) && BoardingAllowed(chain, rows, inputs)
              && var fee := compute(Lists(rows, inputs, outs, onchain));
              && fee.Some? && paid >= fee.value
    ensures accepted <==>
              && (forall i :: 0 <= i < |inputs| ==> InputRule(chain, rows, inputs[i], onchain))
              && (forall i :: 0 <= i < |outs| ==> OutputRule(outs[i], i in onchain, allowed))
              && (forall i, j :: 0 <= i < j < |outs| ==> !outs[i].extension || !outs[j].extension)
              && compute(Lists(rows, inputs, outs, onchain)).Some?
              && paid >= compute(Lists(rows, inputs, outs, onchain)).value
  {
    RulesMean(chain, rows, inputs, outs, onchain, allowed);
    hide InputRule, OutputRule;
    lists := FeeLists([], [], [], []);
    accepted := false;
    var filed := RegisterInputs(rows, inputs, onchain);
    if filed.None? {
      return;
    }
    var sides := RegisterOutputs(outs, onchain, allowed);
    if sides.None? {
      return;
    }
    var onchainInputs, feeVtxos := FeeInputs(filed.value.0, filed.value.1);
    lists := FeeLists(onchainInputs, feeVtxos, sides.value.0, sides.value.1);
    if BoardingAllowed(chain, rows, inputs) {
      CountedOnce(rows, inputs);
      BoardingClaims(rows, inputs);
    }
    BoardingChecked(chain, rows, inputs);
    var fee := compute(lists);
    if fee.None? || paid < fee.value {
      return;
    }
    accepted := CheckBoarding(chain, filed.value.0);
  }

  /** The two sides together: an accepted intent pays what the estimate on the same rows asks for. */
  method FeeParity(
    chain: Chain, rows: Rows, inputs: seq<Input>, outs: seq<Output>, onchain: set<nat>, allowed: (TxOut, bool) -> bool,
    paid: int, compute: FeeLists -> Option<int>)
    returns (accepted: bool, lists: FeeLists, estimated: Option<FeeLists>)
    requires ChainAgrees(chain, rows)
    ensures accepted ==> estimated == Some(lists) && compute(lists).Some? && paid >= compute(lists).value
  {
    accepted, lists := RegisterFees(chain, rows, inputs, outs, onchain, allowed, paid, compute);
    estimated := EstimateLists(rows, {}, inputs, outs, onchain);
    assert rows - {} == rows;
  }

  // Rows that the estimate fails to read.

  /** The row is not read, and counting the input as no vtxo is not the same. */
  predicate Misread(rows: Rows, unread: set<Outpoint>, input: Input) {
    && input.outpoint in rows && input.outpoint in unread
    && !(rows[input.outpoint].unrolled && input.claimed.value == rows[input.outpoint].amount)
  }

  /** The vtxo moves from the offchain to the onchain side. */
  predicate Moves(rows: Rows, unread: set<Outpoint>, input: Input) {
    input.outpoint in rows && input.outpoint in unread && !rows[input.outpoint].unrolled
  }

  lemma {:induction false} ReadWell(rows: Rows, unread: set<Outpoint>, inputs: seq<Input>)
    requires forall i :: 0 <= i < |inputs| ==> !Misread(rows, unread, inputs[i])
    ensures OnchainInputs(rows - unread, inputs) == OnchainInputs(rows, inputs)
    ensures OffchainInputs(rows - unread, inputs) == OffchainInputs(rows, inputs)
  {
    if inputs != [] {
      ReadWell(rows, unread, inputs[..|inputs| - 1]);
      assert !Misread(rows, unread, inputs[|inputs| - 1]);
    }
  }

  lemma {:induction false} OffchainShrinks(rows: Rows, unread: set<Outpoint>, inputs: seq<Input>)
    ensures |OffchainInputs(rows - unread, inputs)| <= |OffchainInputs(rows, inputs)|
    ensures (exists i :: 0 <= i < |inputs| && Moves(rows, unread, inputs[i])) ==>
              |OffchainInputs(rows - unread, inputs)| < |OffchainInputs(rows, inputs)|
  {
    if inputs != [] {
      var n := |inputs| - 1;
      OffchainShrinks(rows, unread, inputs[..n]);
      if i :| 0 <= i < |inputs| && Moves(rows, unread, inputs[i]) {
        assert i < n ==> inputs[..n][i] == inputs[i];
      }
    }
  }

  lemma {:induction false} OnchainDiffers(rows: Rows, unread: set<Outpoint>, inputs: seq<Input>)
    requires forall i :: 0 <= i < |inputs| ==> !Moves(rows, unread, inputs[i])
    ensures |OnchainInputs(rows - unread, inputs)| == |OnchainInputs(rows, inputs)|
    ensures (exists i :: 0 <= i < |inputs| && Misread(rows, unread, inputs[i])) ==>
              OnchainInputs(rows - unread, inputs) != OnchainInputs(rows, inputs)
  {
    if inputs != [] {
      var n := |inputs| - 1;
      OnchainDiffers(rows, unread, inputs[..n]);
      assert !Moves(rows, unread, inputs[n]);
      var on, on' := OnchainInputs(rows, inputs), OnchainInputs(rows - unread, inputs);
      var before, before' := OnchainInputs(rows, inputs[..n]), OnchainInputs(rows - unread, inputs[..n]);
      if i :| 0 <= i < |inputs| && Misread(rows, unread, inputs[i]) {
        assert on[..|before|] == before && on'[..|before|] == before';
        if i < n {
          assert inputs[..n][i] == inputs[i];
        } else {
          assert on[|before|] != on'[|before|];
        }
      }
    }
  }

  /**
   The estimate uses the declared lists exactly if no row that it fails to read matters: every such row is
   of an unrolled vtxo for which the client claims the right amount.
   */
  lemma EstimateExact(rows: Rows, unread: set<Outpoint>, inputs: seq<Input>, outs: seq<Output>, onchain: set<nat>)
    ensures Lists(rows - unread, inputs, outs, onchain) == Lists(rows, inputs, outs, onchain) <==>
              forall i :: 0 <= i < |inputs| ==> !Misread(rows, unread, inputs[i])
  {
    if forall i :: 0 <= i < |inputs| ==> !Misread(rows, unread, inputs[i]) {
      ReadWell(rows, unread, inputs);
    } else if exists i :: 0 <= i < |inputs| && Moves(rows, unread, inputs[i]) {
      OffchainShrinks(rows, unread, inputs);
    } else {
      OnchainDiffers(rows, unread, inputs);
    }
  }
}
