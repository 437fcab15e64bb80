/** The OffchainTx aggregate: its methods check, record an event and apply it. */
module OffchainTxAggregate {
  import opened Outpoints
  import opened OffchainTxEvents

  datatype Refusal = BadStage | MissingField | WrongCount | CheckpointNotFound

  datatype Outcome = Raised(event: Event) | Refused(reason: Refusal)

  class OffchainTx {
    // The state apart from the version and the recorded events.
    var tx: Tx
    var version: nat
    var changes: seq<Event>

    /** The live state is what replaying the recorded events gives. */
    ghost predicate Valid()
      reads this
    {
      tx == Replay(NoTx, changes)
    }

    constructor ()
      ensures Valid() && tx == NoTx && changes == [] && version == 0
    {
      tx, version, changes := NoTx, 0, [];
    }

    /** Rebuilds the aggregate from its events. The version counts the events that took effect. */
    constructor FromEvents(events: seq<Event>)
      ensures Valid() && tx == Replay(NoTx, events) && changes == events && version == Effective(NoTx, events)
    {
      tx, version, changes := NoTx, 0, [];
      new;
      for i := 0 to |events|
        invariant tx == Replay(NoTx, events[..i]) && version == Effective(NoTx, events[..i])
      {
        assert events[..i + 1][..i] == events[..i];
        Apply(events[i], true);
      }
      assert events[..|events|] == events;
      changes := events;
    }

    method Apply(event: Event, replayed: bool)
      modifies this`tx, this`version
      ensures tx == On(old(tx), event)
      ensures version == old(version) + if replayed && Applies(old(tx), event) then 1 else 0
    {
      match event {
        case TxRequested(id, arkTx, checkpoints, at) =>
          var canRetry := tx.failed && tx.stage == Requested;
          if tx.stage != Undefined && !canRetry {
            return;
          }
          tx := tx.(failed := false, failReason := "");
          tx := tx.(stage := Requested);
          tx := tx.(arkTxid := id, arkTx := arkTx, checkpointTxs := checkpoints, startedAt := at);
        case TxAccepted(_, arkTx, checkpoints, commitments, root, expiry, depth, parents) =>
          if tx.stage != Requested || tx.failed {
            return;
          }
          tx := tx.(stage := Accepted);
          tx := tx.(arkTx := arkTx, checkpointTxs := checkpoints, commitmentTxids := commitments);
          tx := tx.(rootCommitmentTxid := root, expiresAt := expiry, depth := depth, parentMarkers := parents);
        case TxFinalized(_, checkpoints, at) =>
          if tx.stage != Accepted {
            return;
          }
          tx := tx.(stage := Finalized, failed := false, ended := true);
          tx := tx.(failReason := "", checkpointTxs := checkpoints, endedAt := at);
        case TxFailed(_, reason, _) =>
          if tx.stage == Finalized || tx.failed {
            return;
          }
          tx := tx.(failed := true, failReason := reason);
      }
      if replayed {
        version := version + 1;
      }
    }

    method Raise(event: Event)
      requires Valid()
      modifies this
      ensures Valid() && changes == old(changes) + [event] && version == old(version)
      ensures tx == On(old(tx), event)
    {
      changes := changes + [event];
      Apply(event, false);
      assert changes[..|changes| - 1] == old(changes);
    }

    /** Accepts a request only for a tx that has no stage yet and did not fail. */
    method Request(id: Txid, arkTx: string, checkpoints: Txs, now: int) returns (r: Outcome)
      requires Valid()
      modifies this
      ensures Valid() && version == old(version)
      ensures r.Raised? <==> !old(tx.failed) && old(tx.stage) == Undefined && id != "" && arkTx != "" && checkpoints != map[]
      ensures r.Raised? ==> changes == old(changes) + [r.event] && r.event == TxRequested(id, arkTx, checkpoints, now)
      ensures r.Raised? ==> tx.stage == Requested && !tx.failed && tx.arkTxid == id && tx.checkpointTxs == checkpoints
      ensures r.Raised? ==> tx.arkTx == arkTx && tx.startedAt == now && tx.failReason == ""
      ensures r.Refused? ==> tx == old(tx) && changes == old(changes)
    {
      if tx.failed || tx.stage != Undefined {
        return Refused(BadStage);
      }
      if id == "" || arkTx == "" || |checkpoints| == 0 {
        return Refused(MissingField);
      }
      r := Raised(TxRequested(id, arkTx, checkpoints, now));
      Raise(r.event);
    }

    /** Accepts a requested tx that did not fail; the number of checkpoints stays. */
    method Accept(finalArkTx: string, signed: Txs, commitments: Txs, root: Txid, expiry: int, depth: nat, parents: seq<string>)
      returns (r: Outcome)
      requires Valid()
      modifies this
      ensures Valid() && version == old(version)
      ensures r.Raised? <==>
                && finalArkTx != "" && signed != map[] && |signed| == |old(tx.checkpointTxs)| && commitments != map[]
                && root != "" && old(tx.stage) == Requested && !old(tx.failed) && expiry > 0
      ensures r.Raised? ==> tx.stage == Accepted && !tx.failed && tx.arkTxid == old(tx.arkTxid) && tx.checkpointTxs == signed
      ensures r.Raised? ==>
                && changes == old(changes) + [r.event]
                && r.event == TxAccepted(old(tx.arkTxid), finalArkTx, signed, commitments, root, expiry, depth, parents)
      ensures r.Raised? ==> tx.arkTx == finalArkTx && tx.commitmentTxids == commitments && tx.rootCommitmentTxid == root
                            && tx.expiresAt == expiry && tx.depth == depth && tx.parentMarkers == parents
      ensures r.Refused? ==> tx == old(tx) && changes == old(changes)
    {
      if finalArkTx == "" || |signed| == 0 {
        return Refused(MissingField);
      }
      if |signed| != |tx.checkpointTxs| {
        return Refused(WrongCount);
      }
      if |commitments| == 0 || root == "" {
        return Refused(MissingField);
      }
      if tx.failed || tx.stage != Requested {
        return Refused(BadStage);
      }
      if expiry <= 0 {
        return Refused(MissingField);
      }
      r := Raised(TxAccepted(tx.arkTxid, finalArkTx, signed, commitments, root, expiry, depth, parents));
      Raise(r.event);
    }

    /** Finalizes an accepted tx, failed or not, with the very checkpoints that were accepted. */
    method Finalize(final: Txs, now: int) returns (r: Outcome)
      requires Valid()
      modifies this
      ensures Valid() && version == old(version)
      ensures r.Raised? <==> final != map[] && final.Keys == old(tx.checkpointTxs).Keys && old(tx.stage) == Accepted
      ensures r.Raised? ==> tx.stage == Finalized && !tx.failed && tx.ended && tx.arkTxid == old(tx.arkTxid) && tx.checkpointTxs == final
      ensures r.Raised? ==> changes == old(changes) + [r.event] && r.event == TxFinalized(old(tx.arkTxid), final, now)
      ensures r.Raised? ==> tx == old(tx).(stage := Finalized, failed := false, ended := true, failReason := "",
                                           checkpointTxs := final, endedAt := now)
      ensures r.Refused? ==> tx == old(tx) && changes == old(changes)
    {
      if |final| == 0 {
        return Refused(MissingField);
      }
      if |final| != |tx.checkpointTxs| {
        return Refused(WrongCount);
      }
      var missing := MissingKey(tx.checkpointTxs, final);
      SameKeys(tx.checkpointTxs, final);
      if missing.Some? {
        return Refused(CheckpointNotFound);
      }
      if tx.stage != Accepted {
        return Refused(BadStage);
      }
      r := Raised(TxFinalized(tx.arkTxid, final, now));
      Raise(r.event);
    }

    /** Records a failure in every stage; a finalized tx is not affected by it. */
    method Fail(reason: string, now: int) returns (event: Event)
      requires Valid()
      modifies this
      ensures Valid() && version == old(version) && changes == old(changes) + [event]
      ensures old(tx.stage) == Finalized ==> tx == old(tx)
      ensures old(tx.stage) != Finalized ==> tx.failed
      ensures old(tx.stage) != Finalized && !old(tx.failed) ==> tx == old(tx).(failed := true, failReason := reason)
      ensures old(tx.failed) ==> tx == old(tx)
      ensures event == TxFailed(old(tx.arkTxid), reason, now)
      ensures tx.checkpointTxs == old(tx.checkpointTxs) && tx.arkTxid == old(tx.arkTxid) && tx.stage == old(tx.stage)
    {
      event := TxFailed(tx.arkTxid, reason, now);
      Raise(event);
    }
  }

  /** A key of a that b does not have. */
  method MissingKey(a: Txs, b: Txs) returns (r: Option<Txid>)
    ensures r.None? <==> a.Keys <= b.Keys
  {
    var left := a.Keys;
    while left != {}
      invariant left <= a.Keys
      invariant forall txid :: txid in a.Keys && txid !in left ==> txid in b
      decreases |left|
    {
      var txid :| txid in left;
      if txid !in b {
        return Some(txid);
      }
      left := left - {txid};
    }
    return None;
  }

  /** As many keys, all of them found: the same keys. */
  lemma SameKeys(a: Txs, b: Txs)
    requires |a| == |b|
    ensures a.Keys <= b.Keys <==> a.Keys == b.Keys
  {
    assert |a.Keys| == |a| && |b.Keys| == |b|;
    if a.Keys <= b.Keys {
      SubsetSize(a.Keys, b.Keys);
    }
  }

  lemma SubsetSize(a: set<Txid>, b: set<Txid>)
    requires a <= b && |a| >= |b|
    ensures a == b
  {
    assert b == a + (b - a);
  }

  // The checkpoints, from the request to the finalization, as the service drives the aggregate.

  /** The rebuilt checkpoints are as many as the submitted ones, and each is one of them. */
  method VerifyRebuilt(rebuilt: seq<Txid>, submitted: Txs) returns (ok: bool)
    ensures ok <==> |rebuilt| == |submitted| && forall i :: 0 <= i < |rebuilt| ==> rebuilt[i] in submitted
  {
    if |rebuilt| != |submitted| {
      return false;
    }
    for i := 0 to |rebuilt|
      invariant forall j :: 0 <= j < i ==> rebuilt[j] in submitted
    {
      if rebuilt[i] !in submitted {
        return false;
      }
    }
    return true;
  }

  /** Signs the rebuilt checkpoints; two rebuilt ones with one txid give one entry. */
  method SignRebuilt(rebuilt: seq<Txid>) returns (signed: Txs)
    ensures signed.Keys == set txid | txid in rebuilt
  {
    signed := map[];
    for i := 0 to |rebuilt|
      invariant signed.Keys == set txid | txid in rebuilt[..i]
    {
      assert rebuilt[..i + 1] == rebuilt[..i] + [rebuilt[i]];
      var tx: string :| true;
      signed := signed[rebuilt[i] := tx];
    }
    assert rebuilt[..|rebuilt|] == rebuilt;
  }

  /** Takes for every input of the ark tx the decoded checkpoint it spends; fails if there is none. */
  method CollectFinal(arkInputs: seq<Txid>, decoded: Txs) returns (r: Option<Txs>)
    ensures r.Some? <==> forall txid :: txid in arkInputs ==> txid in decoded
    ensures r.Some? ==> r.value.Keys == (set txid | txid in arkInputs) && r.value.Keys <= decoded.Keys
    ensures r.Some? ==> forall txid :: txid in r.value ==> r.value[txid] == decoded[txid]
  {
    var final: Txs := map[];
    for i := 0 to |arkInputs|
      invariant final.Keys == set txid | txid in arkInputs[..i]
      invariant final.Keys <= decoded.Keys
      invariant forall txid :: txid in final ==> final[txid] == decoded[txid]
    {
      assert arkInputs[..i + 1] == arkInputs[..i] + [arkInputs[i]];
      if arkInputs[i] !in decoded {
        return None;
      }
      final := final[arkInputs[i] := decoded[arkInputs[i]]];
    }
    assert arkInputs[..|arkInputs|] == arkInputs;
    return Some(final);
  }

  /** What a client and the signer hand in along the way. */
  datatype Drive = Drive(
    id: Txid, arkTx: string, submitted: Txs, rebuilt: seq<Txid>, finalArkTx: string, commitments: Txs, root: Txid,
    expiry: int, depth: nat, parents: seq<string>, arkInputs: seq<Txid>, decoded: Txs)

  /**
   Whatever is handed in, a tx that gets finalized has exactly the checkpoint txids that were requested:
   accepted by the count of a subset, finalized by a subset and its count.
   */
  method DriveOffchainTx(d: Drive, now: int) returns (finalized: bool, events: seq<Event>, final: Txs)
    ensures finalized ==> final.Keys == d.submitted.Keys && final.Keys == set txid | txid in d.arkInputs
    ensures finalized ==> Replay(NoTx, events).stage.Finalized? && Replay(NoTx, events).checkpointTxs == final
    ensures finalized ==> forall txid :: txid in final ==> txid in d.decoded && final[txid] == d.decoded[txid]
    ensures finalized <==>
              && d.id != "" && d.arkTx != "" && d.submitted != map[]
              && |d.rebuilt| == |d.submitted| && (set txid | txid in d.rebuilt) == d.submitted.Keys
              && d.finalArkTx != "" && d.commitments != map[] && d.root != "" && d.expiry > 0
              && (set txid | txid in d.arkInputs) == d.submitted.Keys && d.submitted.Keys <= d.decoded.Keys
    ensures forall i :: 0 <= i < |events| && events[i].TxAccepted? ==>
              events[i].signedCheckpointTxs.Keys == d.submitted.Keys
  {
    hide Replay;
    finalized, events, final := false, [], map[];
    var agg := new OffchainTx();
    var requested := agg.Request(d.id, d.arkTx, d.submitted, now);
    if requested.Refused? {
      return;
    }
    events := agg.changes;
    var verified := VerifyRebuilt(d.rebuilt, d.submitted);
    if !verified {
      return;
    }
    var signed := SignRebuilt(d.rebuilt);
    var accepted := agg.Accept(d.finalArkTx, signed, d.commitments, d.root, d.expiry, d.depth, d.parents);
    if accepted.Refused? {
      return;
    }
    assert signed.Keys == d.submitted.Keys by {
      assert |signed.Keys| == |signed| && |d.submitted.Keys| == |d.submitted|;
      SubsetSize(signed.Keys, d.submitted.Keys);
    }
    events := agg.changes;
    var collected := CollectFinal(d.arkInputs, d.decoded);
    if collected.None? {
      return;
    }
    var done := agg.Finalize(collected.value, now);
    events := agg.changes;
    if done.Raised? {
      return true, events, agg.tx.checkpointTxs;
    }
  }
}
