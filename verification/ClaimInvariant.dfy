/**
 What every reachable state of the claim protocol satisfies, and what a request knows at each of
 its program points. Requests interfere with each other only as Rely allows, which is what keeps
 their knowledge true between two of their own steps.
 */
module ClaimInvariant {
  import opened Outpoints
  import opened ClaimProtocol

  type Claims = map<Outpoint, Claim>

  // Program points and locks. A request holds a lock exactly between the steps that take and
  // release it.

  predicate HoldsOffchain(th: Thread) {
    match th
    case Submit(_, pc) =>
      pc != SubmitLock && pc != SubmitSaveLater && pc != SubmitDone
    case Register(_, _, _, pc) =>
      || pc == RegReadCache || pc == RegRereadRows || pc == RegReadPending || pc == RegReadCosignedRows
      || pc == RegPush || pc == RegUnlockOffchain
    case Cosign(_, pc) =>
      || pc == CosReadCache || pc == CosReadClaims || pc == CosReadVtxos || pc == CosReadCheckpoints
      || pc == CosUnlockOffchain || pc == CosFailOffchain
  }

  predicate HoldsCosign(th: Thread) {
    match th
    case Submit(_, _) => false
    case Register(_, _, boardIns, pc) =>
      || pc == RegReadCosigning || pc == RegReadCosigned || pc == RegUnlockCosign
      || (boardIns != {} && (pc == RegLockOffchain || HoldsOffchain(th)))
    case Cosign(_, pc) =>
      pc != CosLock && pc != CosBroadcast && pc != CosRelease && pc != CosDone
  }

  predicate HoldsRegistration(th: Thread) {
    th.Register? && th.rpc != RegBegin && th.rpc != RegDone
  }

  ghost predicate LockInv(s: State) {
    && (forall t :: s.offchainMu == Some(t) <==> (t in s.threads && HoldsOffchain(s.threads[t])))
    && (forall t :: s.cosignMu == Some(t) <==> (t in s.threads && HoldsCosign(s.threads[t])))
    && (forall t :: t in s.registering <==> (t in s.threads && HoldsRegistration(s.threads[t])))
    && (s.round.RoundReleasing? ==> s.registering == {})
  }

  // Statements about a set of outpoints.

  ghost predicate NotAccepted(h: Hist, ops: set<Outpoint>) {
    forall u, op :: u in h.accepted && op in Ins(h.inputs, u) ==> op !in ops
  }

  ghost predicate AcceptedSpent(h: Hist, spent: set<Outpoint>, ops: set<Outpoint>) {
    forall u, op :: u in h.accepted && op in Ins(h.inputs, u) && op in ops ==> op in spent
  }

  ghost predicate NotCosigned(h: Hist, ops: set<Outpoint>) {
    forall u, op :: u in h.cosigned && op in Ins(h.inputs, u) ==> op !in ops
  }

  ghost predicate CosignedHasRow(h: Hist, rows: set<Outpoint>, ops: set<Outpoint>) {
    forall u, op :: u in h.cosigned && op in Ins(h.inputs, u) && op in ops ==> op in rows
  }

  ghost predicate NotSettled(h: Hist, ops: set<Outpoint>) {
    forall i, op :: i in h.settled && op in Ins(h.inputs, i) ==> op !in ops
  }

  ghost predicate SettledClaimed(h: Hist, claims: Claims, ops: set<Outpoint>) {
    forall i, op :: i in h.settled && op in Ins(h.inputs, i) && op in ops ==> op in claims
  }

  ghost predicate SettledSpent(h: Hist, db: Db, ops: set<Outpoint>) {
    forall i, op :: i in h.settled && op in Ins(h.inputs, i) && op in ops && op in db.tracked ==> op in db.spent
  }

  ghost predicate CosigningOrRow(cosigning: set<Outpoint>, rows: set<Outpoint>, ops: set<Outpoint>) {
    forall op :: op in ops ==> op in cosigning || op in rows
  }

  // What a request knows from the reads it has done so far.

  ghost predicate SubmitKnows(db: Db, cache: Cache, h: Hist, th: Thread)
    requires th.Submit?
  {
    match th.spc
    case SubmitReadClaims => AcceptedSpent(h, db.spent, th.ins)
    case SubmitReadRows =>
      && AcceptedSpent(h, db.spent, th.ins)
      && th.ins !! cache.claims.Keys && SettledSpent(h, db, th.ins)
    case SubmitAdd =>
      && th.ins <= db.tracked && NotAccepted(h, th.ins) && th.ins !! cache.claims.Keys
      && NotSettled(h, th.ins) && NotCosigned(h, th.ins)
    case _ => true
  }

  ghost predicate Classified(db: Db, h: Hist, th: Thread)
    requires th.Register?
  {
    && th.vtxoIns <= db.tracked && th.vtxoIns <= th.ins && th.boardIns <= th.ins
    && th.ins - th.vtxoIns !! db.tracked && th.ins - th.vtxoIns <= th.boardIns
  }

  /** The boarding inputs are not cosigned, and a batch that settled one still claims it. */
  ghost predicate BoardingChecked(db: Db, cache: Cache, h: Hist, th: Thread)
    requires th.Register?
  {
    && Classified(db, h, th)
    && NotCosigned(h, th.boardIns) && SettledClaimed(h, cache.claims, th.ins - th.vtxoIns)
  }

  ghost predicate RowsChecked(db: Db, cache: Cache, h: Hist, th: Thread)
    requires th.Register?
  {
    && BoardingChecked(db, cache, h, th)
    && NotAccepted(h, th.vtxoIns) && SettledClaimed(h, cache.claims, th.vtxoIns)
  }

  ghost predicate RegisterKnows(db: Db, cache: Cache, h: Hist, th: Thread)
    requires th.Register?
  {
    match th.rpc
    case RegLockCosign | RegReadCosigning => Classified(db, h, th) && th.boardIns != {}
    case RegReadCosigned =>
      Classified(db, h, th) && th.boardIns != {} && CosignedHasRow(h, db.cosignedRows, th.boardIns)
    case RegLockOffchain | RegReadCache => BoardingChecked(db, cache, h, th)
    case RegRereadRows => BoardingChecked(db, cache, h, th) && AcceptedSpent(h, db.spent, th.vtxoIns)
    case RegReadPending => RowsChecked(db, cache, h, th)
    case RegReadCosignedRows =>
      RowsChecked(db, cache, h, th) && CosignedHasRow(h, db.cosignedRows, th.vtxoIns)
    case RegPush => RowsChecked(db, cache, h, th) && NotCosigned(h, th.vtxoIns)
    case _ => true
  }

  ghost predicate Reserved(cache: Cache, h: Hist, th: Thread) {
    NotCosigned(h, th.ins) && th.ins <= cache.cosigning
  }

  ghost predicate CosignKnows(db: Db, cache: Cache, h: Hist, th: Thread)
    requires th.Cosign?
  {
    match th.cpc
    case CosReadRows =>
      && CosignedHasRow(h, db.cosignedRows, th.ins)
      && CosigningOrRow(cache.cosigning, db.cosignedRows, th.ins)
    case CosLockOffchain | CosReadCache => Reserved(cache, h, th)
    case CosReadClaims => Reserved(cache, h, th) && AcceptedSpent(h, db.spent, th.ins)
    case CosReadVtxos =>
      && Reserved(cache, h, th) && AcceptedSpent(h, db.spent, th.ins)
      && th.ins !! cache.claims.Keys && SettledSpent(h, db, th.ins)
    case CosReadCheckpoints =>
      && Reserved(cache, h, th) && th.ins !! cache.claims.Keys
      && th.ins * db.tracked <= db.unrolled
      && NotAccepted(h, th.ins) && NotSettled(h, th.ins * db.tracked)
    case CosFailOffchain | CosRollback => CosignedHasRow(h, db.cosignedRows, th.ins)
    case _ => true
  }

  ghost predicate Knows(db: Db, cache: Cache, h: Hist, th: Thread) {
    match th
    case Submit(_, _) => SubmitKnows(db, cache, h, th)
    case Register(_, _, _, _) => RegisterKnows(db, cache, h, th)
    case Cosign(_, _) => CosignKnows(db, cache, h, th)
  }

  /** The request's steps so far match the history. */
  ghost predicate Progress(h: Hist, log: Log, t: Tid, th: Thread) {
    && t in h.inputs && h.inputs[t] == th.ins
    && (!th.Submit? ==> t !in h.accepted)
    && (!th.Register? ==> t !in h.pushed)
    && (!th.Cosign? ==> t !in h.cosigned)
    && match th
       case Submit(_, pc) =>
         (match pc
          case SubmitSave | SubmitSaveLater => t in h.accepted && t !in log.savedTxs
          case SubmitUnlock | SubmitDone => true
          case _ => t !in h.accepted)
       case Register(_, _, _, pc) =>
         (match pc
          case RegUnlockOffchain | RegUnlockCosign | RegEnd | RegDone => true
          case _ => t !in h.pushed)
       case Cosign(_, pc) =>
         (match pc
          case CosUnlockOffchain | CosUnlock | CosBroadcast | CosRelease =>
            t in h.cosigned && t !in log.savedCosigns
          case CosDone => true
          case _ => t !in h.cosigned)
  }

  // The stores.

  ghost predicate Scoped(h: Hist, cache: Cache) {
    && h.accepted <= h.inputs.Keys && h.pushed.Keys <= h.inputs.Keys && h.cosigned <= h.inputs.Keys
    && h.settled.Keys <= h.pushed.Keys && cache.queue <= h.pushed.Keys && cache.txs <= h.accepted
    && cache.queue !! h.settled.Keys
  }

  ghost predicate LogScoped(h: Hist, log: Log, used: set<BatchId>) {
    && log.savedTxs <= h.accepted && log.spentLanded <= log.savedTxs
    && log.savedCosigns <= h.cosigned && log.cosignLanded <= log.savedCosigns
    && log.rowsLanded <= log.savedBatches && log.boardingLanded <= log.rowsLanded
    && log.savedBatches <= used
    && (forall i :: i in h.settled ==> h.settled[i] in used)
  }

  /** How the holders relate to the vtxo rows: what an intent took as no vtxo has not become one. */
  ghost predicate RowsInv(h: Hist, claims: Claims, tracked: set<Outpoint>, unrolled: set<Outpoint>) {
    && (forall i :: i in h.pushed ==> h.pushed[i] <= Ins(h.inputs, i))
    && (forall i, op :: i in h.settled && op in Ins(h.inputs, i) ==> (op in tracked <==> op in VtxoIns(h.pushed, i)))
    && (forall op :: op in claims ==> (op in tracked <==> op in VtxoIns(h.pushed, claims[op].intent)))
    && (forall u :: u in h.accepted ==> Ins(h.inputs, u) <= tracked)
    && (forall u, op :: u in h.cosigned && op in Ins(h.inputs, u) && op in tracked ==> op in unrolled)
  }

  /** An accepted offchain spend is in the cache or marked spent. */
  ghost predicate OffchainHandoff(h: Hist, txs: set<Tid>, spent: set<Outpoint>) {
    forall u :: u in h.accepted ==> u in txs || Ins(h.inputs, u) <= spent
  }

  /** A cosign that passed its checks is in the cosign cache or has rows. */
  ghost predicate CosignHandoff(h: Hist, cosigning: set<Outpoint>, rows: set<Outpoint>) {
    forall u :: u in h.cosigned ==> CosigningOrRow(cosigning, rows, Ins(h.inputs, u))
  }

  /** An input settled by a batch is still claimed, or its vtxo is marked spent, or it has a cosigned row. */
  ghost predicate BatchHandoff(h: Hist, claims: Claims, spent: set<Outpoint>, rows: set<Outpoint>) {
    forall i, op :: i in h.settled && op in Ins(h.inputs, i) ==>
      || (op in claims && claims[op] == Popped(h.settled[i], i))
      || (op in VtxoIns(h.pushed, i) && op in spent)
      || (op !in VtxoIns(h.pushed, i) && op in rows)
  }

  ghost predicate ClaimsInv(h: Hist, queue: set<Tid>, claims: Claims, used: set<BatchId>) {
    && (forall op :: op in claims ==>
          && claims[op].intent in h.pushed && op in Ins(h.inputs, claims[op].intent)
          && (claims[op].Queued? ==> claims[op].intent in queue)
          && (claims[op].Popped? ==> claims[op].batch in used && claims[op].intent !in queue))
    && (forall i, op :: i in queue && op in Ins(h.inputs, i) ==> op in claims && claims[op] == Queued(i))
  }

  ghost predicate LandedInv(h: Hist, db: Db, log: Log) {
    && (forall u :: u in log.spentLanded ==> Ins(h.inputs, u) <= db.spent)
    && (forall u :: u in log.cosignLanded ==> Ins(h.inputs, u) <= db.cosignedRows)
    && (forall i :: i in h.settled && h.settled[i] in log.rowsLanded ==> VtxoIns(h.pushed, i) <= db.spent)
    && (forall i :: i in h.settled && h.settled[i] in log.boardingLanded ==>
          Ins(h.inputs, i) - VtxoIns(h.pushed, i) <= db.cosignedRows)
  }

  ghost predicate NothingSettled(h: Hist, b: BatchId) {
    forall i :: i in h.settled ==> h.settled[i] != b
  }

  ghost predicate InflightInv(inflight: map<BatchId, bool>, log: Log) {
    forall b :: b in inflight && inflight[b] ==> b in log.boardingLanded
  }

  ghost predicate Releasable(h: Hist, log: Log, b: BatchId, ended: bool, done: set<BatchId>) {
    (!ended ==> NothingSettled(h, b)) && done <= log.boardingLanded
  }

  ghost predicate RoundInv(h: Hist, claims: Claims, log: Log, used: set<BatchId>, round: Round) {
    match round
    case RoundIdle => true
    case RoundOpen(b) => b in used && b !in log.savedBatches && NothingSettled(h, b)
    case RoundSelected(b, intents) =>
      && b in used && b !in log.savedBatches && NothingSettled(h, b)
      && intents <= h.pushed.Keys && intents !! h.settled.Keys
      && (forall i, op :: i in intents && op in Ins(h.inputs, i) ==> op in claims && claims[op] == Popped(b, i))
    case RoundEnded(b) => b in used
    case RoundTracked(b) => b in used
    case RoundCollecting(b, ended, done) => Releasable(h, log, b, ended, done)
    case RoundWanting(b, ended, done) => Releasable(h, log, b, ended, done)
    case RoundReleasing(todo) => forall x :: x in todo ==> x in log.boardingLanded || NothingSettled(h, x)
  }

  ghost predicate QueueInv(queue: set<Tid>, round: Round) {
    round.RoundSelected? ==> round.intents !! queue
  }

  /** No two requests hold the same outpoint. */
  ghost predicate Exclusive(h: Hist, claims: Claims, tracked: set<Outpoint>) {
    && (forall u, v, op :: u in h.accepted && v in h.accepted && op in Ins(h.inputs, u) && op in Ins(h.inputs, v) ==> u == v)
    && (forall u, op :: u in h.accepted && op in Ins(h.inputs, u) ==> op !in claims)
    && (forall u, i, op :: u in h.accepted && i in h.settled && op in Ins(h.inputs, u) ==> op !in Ins(h.inputs, i))
    && (forall u, v, op :: u in h.accepted && v in h.cosigned && op in Ins(h.inputs, u) ==> op !in Ins(h.inputs, v))
    && (forall v, op :: v in h.cosigned && op in Ins(h.inputs, v) ==> op !in claims)
    && (forall i, v, op :: i in h.settled && v in h.cosigned && op in Ins(h.inputs, i) && op in Ins(h.inputs, v) ==>
          op !in tracked)
    && (forall i, j, op :: i in h.settled && j in h.settled && op in Ins(h.inputs, i) && op in Ins(h.inputs, j) ==> i == j)
    && (forall i, op :: i in h.settled && op in Ins(h.inputs, i) && op in claims ==> claims[op].intent == i)
    && (forall u, v, op :: u in h.cosigned && v in h.cosigned && op in Ins(h.inputs, u) && op in Ins(h.inputs, v) ==> u == v)
  }

  ghost predicate DataInv(s: State) {
    && Scoped(s.hist, s.cache) && LogScoped(s.hist, s.log, s.usedBatches)
    && RowsInv(s.hist, s.cache.claims, s.db.tracked, s.db.unrolled)
    && OffchainHandoff(s.hist, s.cache.txs, s.db.spent)
    && CosignHandoff(s.hist, s.cache.cosigning, s.db.cosignedRows)
    && BatchHandoff(s.hist, s.cache.claims, s.db.spent, s.db.cosignedRows)
    && ClaimsInv(s.hist, s.cache.queue, s.cache.claims, s.usedBatches)
    && LandedInv(s.hist, s.db, s.log)
    && InflightInv(s.inflight, s.log)
    && RoundInv(s.hist, s.cache.claims, s.log, s.usedBatches, s.round) && QueueInv(s.cache.queue, s.round)
    && Exclusive(s.hist, s.cache.claims, s.db.tracked)
  }

  ghost predicate ThreadsInv(s: State) {
    && s.hist.inputs.Keys == s.threads.Keys
    && (forall t :: t in s.threads ==>
          Knows(s.db, s.cache, s.hist, s.threads[t]) && Progress(s.hist, s.log, t, s.threads[t]))
  }

  ghost predicate Inv(s: State) {
    LockInv(s) && DataInv(s) && ThreadsInv(s)
  }

  // Interference.

  ghost predicate Grows(db: Db, db': Db, h: Hist, h': Hist) {
    && db.tracked <= db'.tracked && db.spent <= db'.spent && db.unrolled <= db'.unrolled
    && db.cosignedRows <= db'.cosignedRows
    && (forall u :: u in h.inputs ==> u in h'.inputs && h'.inputs[u] == h.inputs[u])
    && h.settled.Keys <= h'.settled.Keys
  }

  /** Inputs settled since are claimed. */
  ghost predicate NewlySettledClaimed(h: Hist, h': Hist, claims': Claims) {
    forall i, op :: i in h'.settled && i !in h.settled && op in Ins(h'.inputs, i) ==> op in claims'
  }

  ghost predicate KeepsSettledClaims(h: Hist, claims: Claims, claims': Claims) {
    forall i, op :: i in h.settled && op in Ins(h.inputs, i) && op in claims ==> op in claims'
  }

  /** No outpoint becomes a vtxo that a batch settled or that the request relies on being none. */
  ghost predicate NewRowsUnrelied(db: Db, db': Db, h: Hist, th: Thread) {
    forall op :: op in db'.tracked && op !in db.tracked ==>
      !ReliesOn(th, op) && forall i :: i in h.settled ==> op !in Ins(h.inputs, i)
  }

  /** What the others may do while a request with record th is between two of its steps. */
  ghost predicate Rely(s: State, s': State, th: Thread) {
    && Grows(s.db, s'.db, s.hist, s'.hist) && NewRowsUnrelied(s.db, s'.db, s.hist, th)
    && NewlySettledClaimed(s.hist, s'.hist, s'.cache.claims)
    && (HoldsOffchain(th) ==>
          s'.hist.accepted <= s.hist.accepted && s'.cache.claims.Keys <= s.cache.claims.Keys)
    && (HoldsOffchain(th) || HoldsCosign(th) ==> s'.hist.cosigned <= s.hist.cosigned)
    && (HoldsCosign(th) && th.Cosign? && Reserved(s.cache, s.hist, th) ==> th.ins <= s'.cache.cosigning)
    && (th.Cosign? && th.cpc == CosReadRows && CosignKnows(s.db, s.cache, s.hist, th) ==>
          CosigningOrRow(s'.cache.cosigning, s'.db.cosignedRows, th.ins))
    && (HoldsRegistration(th) ==> KeepsSettledClaims(s.hist, s.cache.claims, s'.cache.claims))
  }

  /** The others leave a request's own entries in the history alone. */
  ghost predicate Untouched(s: State, s': State, t: Tid) {
    && t in s.threads && t in s'.threads && s'.threads[t] == s.threads[t]
    && (t in s.hist.accepted <==> t in s'.hist.accepted) && (t in s.hist.pushed <==> t in s'.hist.pushed)
    && (t in s.hist.cosigned <==> t in s'.hist.cosigned)
    && (t in s.log.savedTxs <==> t in s'.log.savedTxs)
    && (t in s.log.savedCosigns <==> t in s'.log.savedCosigns)
  }

  // Allowed interference keeps what a request knows.

  lemma StableSubmit(s: State, s': State, th: Thread)
    requires Scoped(s.hist, s.cache) && Rely(s, s', th) && th.Submit?
    requires SubmitKnows(s.db, s.cache, s.hist, th)
    ensures SubmitKnows(s'.db, s'.cache, s'.hist, th)
  {
  }

  /** What a registration relies on stays untracked. */
  lemma StableClassified(s: State, s': State, th: Thread)
    requires Rely(s, s', th) && th.Register? && Classified(s.db, s.hist, th)
    requires forall op :: op in th.ins && op !in th.vtxoIns ==> ReliesOn(th, op)
    ensures Classified(s'.db, s'.hist, th)
  {
  }

  /** Each single fact about a set of outpoints is stable under the locks that protect it. */
  lemma StableFacts(s: State, s': State, th: Thread, ops: set<Outpoint>)
    requires Scoped(s.hist, s.cache) && Rely(s, s', th)
    ensures HoldsOffchain(th) && NotAccepted(s.hist, ops) ==> NotAccepted(s'.hist, ops)
    ensures HoldsOffchain(th) && AcceptedSpent(s.hist, s.db.spent, ops) ==> AcceptedSpent(s'.hist, s'.db.spent, ops)
    ensures (HoldsOffchain(th) || HoldsCosign(th) || ops == {}) && NotCosigned(s.hist, ops) ==> NotCosigned(s'.hist, ops)
    ensures (HoldsOffchain(th) || HoldsCosign(th)) && CosignedHasRow(s.hist, s.db.cosignedRows, ops) ==>
              CosignedHasRow(s'.hist, s'.db.cosignedRows, ops)
    ensures HoldsRegistration(th) && SettledClaimed(s.hist, s.cache.claims, ops) ==>
              SettledClaimed(s'.hist, s'.cache.claims, ops)
  {
    hide HoldsOffchain, HoldsCosign, HoldsRegistration, NewRowsUnrelied, Reserved, CosigningOrRow;
  }

  lemma StableRegister(s: State, s': State, th: Thread)
    requires Scoped(s.hist, s.cache) && Rely(s, s', th) && th.Register?
    requires RegisterKnows(s.db, s.cache, s.hist, th)
    ensures RegisterKnows(s'.db, s'.cache, s'.hist, th)
  {
    hide Scoped, Rely, Classified, NotAccepted, AcceptedSpent, NotCosigned, CosignedHasRow, SettledClaimed;
    StableFacts(s, s', th, th.boardIns);
    StableFacts(s, s', th, th.vtxoIns);
    StableFacts(s, s', th, th.ins - th.vtxoIns);
    if (forall op :: op in th.ins && op !in th.vtxoIns ==> ReliesOn(th, op)) && Classified(s.db, s.hist, th) {
      StableClassified(s, s', th);
    }
  }

  lemma StableCosign(s: State, s': State, th: Thread)
    requires Scoped(s.hist, s.cache) && Rely(s, s', th) && th.Cosign?
    requires CosignKnows(s.db, s.cache, s.hist, th)
    ensures CosignKnows(s'.db, s'.cache, s'.hist, th)
  {
    if th.cpc == CosReadCheckpoints {
      // An input that was no vtxo when the cosign read it cannot have become one.
      assert th.ins * s'.db.tracked == th.ins * s.db.tracked;
    }
  }
}
