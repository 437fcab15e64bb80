/** The event-sourced offchain transaction: what one event does to it, and what a stream of events does. */
module OffchainTxEvents {
  import opened Outpoints

  type Txs = map<Txid, string>

  datatype Stage = Undefined | Requested | Accepted | Finalized

  function Rank(s: Stage): nat {
    match s
    case Undefined => 0
    case Requested => 1
    case Accepted => 2
    case Finalized => 3
  }

  /** Everything but the version and the recorded events. */
  datatype Tx = Tx(
    stage: Stage, failed: bool, ended: bool, startedAt: int, endedAt: int, arkTxid: Txid, arkTx: string,
    checkpointTxs: Txs, commitmentTxids: Txs, rootCommitmentTxid: Txid, expiresAt: int, depth: nat,
    parentMarkers: seq<string>, failReason: string)

  const NoTx := Tx(Undefined, false, false, 0, 0, "", "", map[], map[], "", 0, 0, [], "")

  datatype Event =
    | TxRequested(id: Txid, arkTx: string, unsignedCheckpointTxs: Txs, startedAt: int)
    | TxAccepted(id: Txid, finalArkTx: string, signedCheckpointTxs: Txs, commitmentTxids: Txs,
                 rootCommitmentTxid: Txid, expiresAt: int, depth: nat, parentMarkers: seq<string>)
    | TxFinalized(id: Txid, finalCheckpointTxs: Txs, at: int)
    | TxFailed(id: Txid, reason: string, at: int)

  /** The event takes effect; otherwise it is ignored. */
  predicate Applies(tx: Tx, e: Event) {
    match e
    case TxRequested(_, _, _, _) => tx.stage.Undefined? || (tx.failed && tx.stage.Requested?)
    case TxAccepted(_, _, _, _, _, _, _, _) => tx.stage.Requested? && !tx.failed
    case TxFinalized(_, _, _) => tx.stage.Accepted?
    case TxFailed(_, _, _) => !tx.stage.Finalized? && !tx.failed
  }

  function On(tx: Tx, e: Event): Tx {
    if !Applies(tx, e) then tx
    else
      match e
      case TxRequested(id, arkTx, checkpoints, startedAt) =>
        tx.(stage := Requested, failed := false, failReason := "", arkTxid := id, arkTx := arkTx,
            checkpointTxs := checkpoints, startedAt := startedAt)
      case TxAccepted(_, arkTx, checkpoints, commitments, root, expiresAt, depth, parents) =>
        tx.(stage := Accepted, arkTx := arkTx, checkpointTxs := checkpoints, commitmentTxids := commitments,
            rootCommitmentTxid := root, expiresAt := expiresAt, depth := depth, parentMarkers := parents)
      case TxFinalized(_, checkpoints, at) =>
        tx.(stage := Finalized, failed := false, ended := true, failReason := "", checkpointTxs := checkpoints,
            endedAt := at)
      case TxFailed(_, reason, _) => tx.(failed := true, failReason := reason)
  }

  function Replay(tx: Tx, events: seq<Event>): Tx {
    if events == [] then tx else On(Replay(tx, events[..|events| - 1]), events[|events| - 1])
  }

  /** How many of the events take effect. */
  function Effective(tx: Tx, events: seq<Event>): nat {
    if events == [] then 0
    else
      var before := events[..|events| - 1];
      Effective(tx, before) + if Applies(Replay(tx, before), events[|events| - 1]) then 1 else 0
  }

  // Any stream of events.

  lemma {:induction false} ReplayConcat(tx: Tx, a: seq<Event>, b: seq<Event>)
    ensures Replay(tx, a + b) == Replay(Replay(tx, a), b)
    decreases |b|
  {
    if b == [] {
      assert a + b == a;
    } else {
      var n := |b| - 1;
      ReplayConcat(tx, a, b[..n]);
      assert (a + b)[..|a + b| - 1] == a + b[..n];
    }
  }

  /** The stage never goes back, whatever the stream. */
  lemma {:induction false} StageNeverDecreases(tx: Tx, events: seq<Event>, k: nat)
    requires k <= |events|
    ensures Rank(Replay(tx, events[..k]).stage) <= Rank(Replay(tx, events).stage)
    decreases |events|
  {
    if k < |events| {
      var n := |events| - 1;
      StageNeverDecreases(tx, events[..n], k);
      assert events[..n][..k] == events[..k];
    } else {
      assert events[..k] == events;
    }
  }

  /** Nothing changes a finalized tx. */
  lemma {:induction false} FinalizedIsAbsorbing(tx: Tx, events: seq<Event>)
    requires tx.stage.Finalized?
    ensures Replay(tx, events) == tx
  {
    if events != [] {
      FinalizedIsAbsorbing(tx, events[..|events| - 1]);
    }
  }

  /** An event that is delivered again right away changes nothing, anywhere in a stream. */
  lemma RepeatedEvent(tx: Tx, before: seq<Event>, e: Event, after: seq<Event>)
    ensures Replay(tx, before + [e, e] + after) == Replay(tx, before + [e] + after)
  {
    hide On, Replay;
    ReplayConcat(tx, before + [e, e], after);
    ReplayConcat(tx, before + [e], after);
    assert before + [e, e] == before + [e] + [e];
    ReplayConcat(tx, before + [e], [e]);
    ReplayConcat(tx, before, [e]);
    ReplayOne(Replay(tx, before), e);
    ReplayOne(Replay(tx, before + [e]), e);
    OnTwice(Replay(tx, before), e);
  }

  lemma ReplayOne(tx: Tx, e: Event)
    ensures Replay(tx, [e]) == On(tx, e)
  {
    assert [e][..0] == [];
  }

  lemma OnTwice(tx: Tx, e: Event)
    ensures On(On(tx, e), e) == On(tx, e)
  {
  }

  // Attempts that failed.

  /** Only requests and failures, so the tx was never accepted. */
  ghost predicate OnlyAttempts(events: seq<Event>) {
    forall i :: 0 <= i < |events| ==> events[i].TxRequested? || events[i].TxFailed?
  }

  /** What attempts may have left behind is what the next request overwrites. */
  ghost predicate Unstarted(tx: Tx) {
    tx == NoTx.(stage := tx.stage, failed := tx.failed, failReason := tx.failReason, arkTxid := tx.arkTxid,
                arkTx := tx.arkTx, checkpointTxs := tx.checkpointTxs, startedAt := tx.startedAt)
    && (tx.stage.Undefined? || tx.stage.Requested?)
  }

  lemma {:induction false} AttemptsLeaveUnstarted(events: seq<Event>)
    requires OnlyAttempts(events)
    ensures Unstarted(Replay(NoTx, events))
  {
    if events != [] {
      AttemptsLeaveUnstarted(events[..|events| - 1]);
    }
  }

  /**
   Any number of attempts that ended in failure, or never got to a request, leave no trace once a
   fresh request is made: the stream replays like the fresh attempt alone.
   */
  lemma FreshAttemptErases(attempts: seq<Event>, request: Event, rest: seq<Event>)
    requires OnlyAttempts(attempts) && request.TxRequested?
    requires Replay(NoTx, attempts).failed || Replay(NoTx, attempts).stage.Undefined?
    ensures Replay(NoTx, attempts + [request] + rest) == Replay(NoTx, [request] + rest)
  {
    AttemptsLeaveUnstarted(attempts);
    var left := Replay(NoTx, attempts);
    assert On(left, request) == On(NoTx, request);
    ReplayConcat(NoTx, attempts + [request], rest);
    ReplayConcat(NoTx, attempts, [request]);
    ReplayConcat(NoTx, [request], rest);
    ReplayOne(left, request);
    ReplayOne(NoTx, request);
  }

  // Which events count, and what a whole life leaves.

  /** An event changes the tx exactly in the stage it belongs to; a tx that failed is not accepted before a new request. */
  lemma ChangesExactly(tx: Tx, e: Event)
    ensures On(tx, e) != tx <==>
              match e
              case TxRequested(_, _, _, _) => tx.stage == Undefined || (tx.stage == Requested && tx.failed)
              case TxAccepted(_, _, _, _, _, _, _, _) => tx.stage == Requested && !tx.failed
              case TxFinalized(_, _, _) => tx.stage == Accepted
              case TxFailed(_, _, _) => tx.stage != Finalized && !tx.failed
  {
  }

  /** The k-th event of the stream changes the state. */
  ghost predicate ChangesAt(tx: Tx, events: seq<Event>, k: nat) {
    k < |events| && Replay(tx, events[..k + 1]) != Replay(tx, events[..k])
  }

  lemma ChangesBefore(tx: Tx, events: seq<Event>, n: nat, k: nat)
    requires k < n <= |events|
    ensures ChangesAt(tx, events, k) <==> ChangesAt(tx, events[..n], k)
  {
    hide Replay;
    assert events[..n][..k + 1] == events[..k + 1] && events[..n][..k] == events[..k];
  }

  lemma ChangesLast(tx: Tx, events: seq<Event>)
    requires events != []
    ensures var n := |events| - 1; ChangesAt(tx, events, n) <==> Applies(Replay(tx, events[..n]), events[n])
  {
    var n := |events| - 1;
    assert events[..n + 1] == events;
    ChangesExactly(Replay(tx, events[..n]), events[n]);
  }

  /** The version counts the events that changed something. */
  lemma {:induction false} EffectiveExactly(tx: Tx, events: seq<Event>)
    ensures Effective(tx, events) == |set k: nat | k < |events| && ChangesAt(tx, events, k)|
  {
    hide ChangesAt, Replay, On, Applies;
    var changed := set k: nat | k < |events| && ChangesAt(tx, events, k);
    if events != [] {
      var n := |events| - 1;
      EffectiveExactly(tx, events[..n]);
      var changed' := set k: nat | k < n && ChangesAt(tx, events[..n], k);
      forall k: nat | k < n ensures ChangesAt(tx, events, k) <==> ChangesAt(tx, events[..n], k) {
        ChangesBefore(tx, events, n, k);
      }
      ChangesLast(tx, events);
      assert changed == changed' + if ChangesAt(tx, events, n) then {n} else {};
    } else {
      assert changed == {};
    }
  }

  /** Any number of failures. */
  ghost predicate OnlyFailures(events: seq<Event>) {
    forall i :: 0 <= i < |events| ==> events[i].TxFailed?
  }

  lemma {:induction false} FailuresLeave(tx: Tx, events: seq<Event>)
    requires OnlyFailures(events) && !tx.stage.Finalized?
    ensures Replay(tx, events) == tx.(failed := Replay(tx, events).failed, failReason := Replay(tx, events).failReason)
    ensures tx.failed || events != [] ==> Replay(tx, events).failed
    ensures !tx.failed && events != [] ==> Replay(tx, events).failReason == events[0].reason
    ensures tx.failed || events == [] ==> Replay(tx, events) == tx
  {
    if events != [] {
      var n := |events| - 1;
      FailuresLeave(tx, events[..n]);
    }
  }

  /**
   A whole life: after any attempts that failed, a request, an acceptance, any failures and a finalization leave
   exactly what these three events carry, whatever comes after.
   */
  lemma WholeLife(attempts: seq<Event>, request: Event, accept: Event, failures: seq<Event>, final: Event, rest: seq<Event>)
    requires OnlyAttempts(attempts) && request.TxRequested? && accept.TxAccepted? && OnlyFailures(failures) && final.TxFinalized?
    requires Replay(NoTx, attempts).failed || Replay(NoTx, attempts).stage.Undefined?
    ensures Replay(NoTx, attempts + [request] + ([accept] + (failures + ([final] + rest))))
            == Tx(Finalized, false, true, request.startedAt, final.at, request.id, accept.finalArkTx,
                  final.finalCheckpointTxs, accept.commitmentTxids, accept.rootCommitmentTxid, accept.expiresAt,
                  accept.depth, accept.parentMarkers, "")
  {
    var later := [accept] + (failures + ([final] + rest));
    FreshAttemptErases(attempts, request, later);
    hide Replay;
    ReplayConcat(NoTx, [request], later);
    var requested := Replay(NoTx, [request]);
    ReplayOne(NoTx, request);
    ReplayConcat(requested, [accept], failures + ([final] + rest));
    var accepted := Replay(requested, [accept]);
    ReplayOne(requested, accept);
    ReplayConcat(accepted, failures, [final] + rest);
    var failed := Replay(accepted, failures);
    FailuresLeave(accepted, failures);
    ReplayConcat(failed, [final], rest);
    ReplayOne(failed, final);
    FinalizedIsAbsorbing(Replay(failed, [final]), rest);
  }
}
