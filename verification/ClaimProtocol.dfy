/**
 The rules that keep an outpoint from being consumed twice, as a transition system.

 Three requests can consume an outpoint: an offchain spend, an intent that a batch later settles,
 and an onchain cosign. They coordinate through two mutexes, a read-write lock, three caches and
 the rows of the database. Projections, cache removals and chain notifications take none of the
 mutexes, so every read and every write of a request is a step of its own and anything may run
 between two of them.
 */
module ClaimProtocol {
  import opened Outpoints

  // A request and, for a registration, the intent it pushes.
  type Tid = nat
  type BatchId = nat

  /** An input held in the intent store: waiting in the queue, or taken by a batch. */
  datatype Claim = Queued(intent: Tid) | Popped(batch: BatchId, intent: Tid)

  // The next thing a request does, for each kind of request.

  datatype SubmitPc =
    | SubmitLock | SubmitReadCache | SubmitReadClaims | SubmitReadRows | SubmitAdd
    | SubmitSave | SubmitUnlock | SubmitSaveLater | SubmitDone

  datatype RegisterPc =
    | RegBegin | RegReadRows | RegLockCosign | RegReadCosigning | RegReadCosigned
    | RegLockOffchain | RegReadCache | RegRereadRows | RegReadPending | RegReadCosignedRows
    | RegPush | RegUnlockOffchain | RegUnlockCosign | RegEnd | RegDone

  datatype CosignPc =
    | CosLock | CosAdd | CosReadRows | CosLockOffchain | CosReadCache | CosReadClaims
    | CosReadVtxos | CosReadCheckpoints | CosUnlockOffchain | CosUnlock | CosBroadcast
    | CosFailOffchain | CosRollback | CosFailUnlock | CosRelease | CosDone

  /**
   A request and its inputs. vtxoIns are the inputs a registration read as vtxo rows, boardIns the
   ones it treats as boarding inputs: those without a row and the unrolled ones.
   */
  datatype Thread =
    | Submit(ins: set<Outpoint>, spc: SubmitPc)
    | Register(ins: set<Outpoint>, vtxoIns: set<Outpoint>, boardIns: set<Outpoint>, rpc: RegisterPc)
    | Cosign(ins: set<Outpoint>, cpc: CosignPc)

  /** Where the round loop stands. done are the batches whose claims it may release. */
  datatype Round =
    | RoundIdle
    | RoundOpen(batch: BatchId)
    | RoundSelected(batch: BatchId, intents: set<Tid>)
    | RoundEnded(batch: BatchId)
    | RoundTracked(batch: BatchId)
    | RoundCollecting(batch: BatchId, ended: bool, done: set<BatchId>)
    | RoundWanting(batch: BatchId, ended: bool, done: set<BatchId>)
    | RoundReleasing(todo: set<BatchId>)

  /** Database rows: tracked vtxos, their marks, and the cosigned utxos. */
  datatype Db = Db(
    tracked: set<Outpoint>, spent: set<Outpoint>, unrolled: set<Outpoint>, cosignedRows: set<Outpoint>)

  /** Caches: offchain txs, the intent queue with its claims, utxos being cosigned. */
  datatype Cache = Cache(
    txs: set<Tid>, queue: set<Tid>, claims: map<Outpoint, Claim>, cosigning: set<Outpoint>)

  /** Events saved, and the projection writes that have landed. */
  datatype Log = Log(
    savedTxs: set<Tid>, spentLanded: set<Tid>, savedCosigns: set<Tid>, cosignLanded: set<Tid>,
    savedBatches: set<BatchId>, rowsLanded: set<BatchId>, boardingLanded: set<BatchId>)

  /**
   Who holds what. pushed maps a pushed intent to its vtxo inputs, settled to the batch that
   settled it.
   */
  datatype Hist = Hist(
    inputs: map<Tid, set<Outpoint>>, accepted: set<Tid>,
    pushed: map<Tid, set<Outpoint>>, settled: map<Tid, BatchId>, cosigned: set<Tid>)

  datatype State = State(
    db: Db, cache: Cache, log: Log, hist: Hist,
    // Round loop and the batch session manager.
    round: Round, usedBatches: set<BatchId>, inflight: map<BatchId, bool>,
    // Locks. The round loop holds registrations exclusively while it is releasing.
    offchainMu: Option<Tid>, cosignMu: Option<Tid>, registering: set<Tid>,
    threads: map<Tid, Thread>)

  datatype Action =
      // A new request, and one step of a request: ok is false when it fails for a reason of its own.
    | Spawn(t: Tid, request: Thread)
    | Step(t: Tid, ok: bool)
      // A one-shot submission saves its events while it still holds the offchain mutex.
    | SaveOneShot(t: Tid, ok: bool)
      // Chain, projections and update handlers.
    | TrackVtxos(ops: set<Outpoint>)
    | UnrollVtxos(ops: set<Outpoint>, rows: set<Outpoint>)
    | ProjectSpend(t: Tid)
    | RemoveCached(t: Tid)
    | ProjectCosign(t: Tid)
    | UnlockUtxos(t: Tid)
    | ProjectRows(batch: BatchId)
    | ProjectBoarding(batch: BatchId)
    | MarkProjected(batch: BatchId)
      // Intent deletion and the round loop.
    | DeleteIntent(t: Tid)
    | RoundStart(batch: BatchId)
    | RoundPop(intents: set<Tid>)
    | RoundAbort
    | RoundEnd(intents: set<Tid>)
    | RoundTrack
    | RoundSave(ok: bool)
    | RoundCollect
    | RoundWant
    | RoundHold
    | RoundRelease(batch: BatchId, ok: bool)
    | RoundResume

  function Ins(inputs: map<Tid, set<Outpoint>>, t: Tid): set<Outpoint> {
    if t in inputs then inputs[t] else {}
  }

  function VtxoIns(pushed: map<Tid, set<Outpoint>>, t: Tid): set<Outpoint> {
    if t in pushed then pushed[t] else {}
  }

  /** OffchainTxs().IncludesAny: some cached offchain tx spends one of ops. */
  predicate CacheIncludesAny(s: State, ops: set<Outpoint>) {
    exists u :: u in s.cache.txs && Ins(s.hist.inputs, u) * ops != {}
  }

  function Put(s: State, t: Tid, th: Thread): State {
    s.(threads := s.threads[t := th])
  }

  /** A request that has just arrived. */
  predicate Arriving(th: Thread) {
    && th.ins != {}
    && match th
       case Submit(_, pc) => pc == SubmitLock
       case Register(_, vtxoIns, boardIns, pc) => vtxoIns == {} && boardIns == {} && pc == RegBegin
       case Cosign(_, pc) => pc == CosLock
  }

  predicate Finished(th: Thread) {
    match th
    case Submit(_, pc) => pc == SubmitDone
    case Register(_, _, _, pc) => pc == RegDone
    case Cosign(_, pc) => pc == CosDone
  }

  /** Round loop states in which a new registration has to wait: Go's RWMutex favours the writer. */
  predicate HoldsBackRegistrations(r: Round) {
    r.RoundWanting? || r.RoundReleasing?
  }

  /** The lock that the next step of t acquires is free, or the step acquires none. */
  predicate CanAcquire(s: State, t: Tid)
    requires t in s.threads
  {
    match s.threads[t]
    case Submit(_, SubmitLock) => s.offchainMu.None?
    case Register(_, _, _, RegBegin) => !HoldsBackRegistrations(s.round)
    case Register(_, _, _, RegLockCosign) => s.cosignMu.None?
    case Register(_, _, _, RegLockOffchain) => s.offchainMu.None?
    case Cosign(_, CosLock) => s.cosignMu.None?
    case Cosign(_, CosLockOffchain) => s.offchainMu.None?
    case _ => true
  }

  /** The request has read the vtxo rows, did not find op among them, and has neither failed nor committed since. */
  predicate ReliesOn(th: Thread, op: Outpoint) {
    match th
    case Submit(_, _) => false
    case Register(ins, vtxoIns, _, pc) =>
      && op in ins && op !in vtxoIns
      && (|| pc == RegLockCosign || pc == RegReadCosigning || pc == RegReadCosigned || pc == RegLockOffchain
          || pc == RegReadCache || pc == RegRereadRows || pc == RegReadPending || pc == RegReadCosignedRows
          || pc == RegPush)
    case Cosign(ins, pc) => op in ins && pc == CosReadCheckpoints
  }

  /**
   Someone counts on op being no vtxo: it is claimed, settled or cosigned, or a request is about to claim
   or cosign it. A request that fails, or releases what it took, no longer counts.
   */
  predicate Relied(s: State, op: Outpoint) {
    || op in s.cache.claims
    || (exists i :: i in s.hist.settled && op in Ins(s.hist.inputs, i))
    || (exists u :: u in s.hist.cosigned && op in Ins(s.hist.inputs, u))
    || (exists t :: t in s.threads && ReliesOn(s.threads[t], op))
  }

  predicate Enabled(s: State, a: Action) {
    match a
    case Spawn(t, request) => t !in s.threads && Arriving(request)
    case Step(t, ok) => t in s.threads && !Finished(s.threads[t]) && (ok ==> CanAcquire(s, t))
    case SaveOneShot(t, ok) => t in s.threads && s.threads[t].Submit? && s.threads[t].spc == SubmitSave
    case TrackVtxos(ops) => forall op :: op in ops && op !in s.db.tracked ==> !Relied(s, op)
    case UnrollVtxos(ops, rows) => ops <= s.db.tracked && rows <= ops * s.db.spent
    case ProjectSpend(t) => t in s.log.savedTxs
    case RemoveCached(t) => t in s.log.spentLanded
    case ProjectCosign(t) => t in s.log.savedCosigns
    case UnlockUtxos(t) => t in s.log.cosignLanded
    case ProjectRows(b) => b in s.log.savedBatches
    case ProjectBoarding(b) => b in s.log.rowsLanded
    case MarkProjected(b) => b in s.log.boardingLanded
    case DeleteIntent(t) => t in s.cache.queue
    case RoundStart(b) => s.round.RoundIdle? && b !in s.usedBatches
    case RoundPop(intents) => s.round.RoundOpen? && intents <= s.cache.queue
    case RoundAbort => s.round.RoundOpen? || s.round.RoundSelected?
    case RoundEnd(intents) => s.round.RoundSelected? && intents <= s.round.intents
    case RoundTrack => s.round.RoundEnded?
    case RoundSave(ok) => s.round.RoundTracked?
    case RoundCollect => s.round.RoundCollecting?
    case RoundWant => s.round.RoundCollecting?
    case RoundHold => s.round.RoundWanting? && s.registering == {}
    case RoundRelease(b, ok) => s.round.RoundReleasing? && b in s.round.todo
    case RoundResume => s.round.RoundReleasing? && s.round.todo == {}
  }

  // SubmitOffchainTx, from the offchain mutex on. The checks before it only refuse more.

  function SetS(s: State, t: Tid, pc: SubmitPc): State
    requires t in s.threads && s.threads[t].Submit?
  {
    Put(s, t, s.threads[t].(spc := pc))
  }

  function SubmitStep(s: State, t: Tid, ok: bool): (s': State)
    requires t in s.threads && s.threads[t].Submit? && (ok ==> CanAcquire(s, t))
    ensures s'.threads.Keys == s.threads.Keys && s'.threads[t].Submit?
  {
    var th := s.threads[t];
    match th.spc
    case SubmitLock =>
      if ok then SetS(s, t, SubmitReadCache).(offchainMu := Some(t)) else SetS(s, t, SubmitDone)
    case SubmitReadCache =>
      SetS(s, t, if ok && !CacheIncludesAny(s, th.ins) then SubmitReadClaims else SubmitUnlock)
    case SubmitReadClaims =>
      SetS(s, t, if ok && th.ins !! s.cache.claims.Keys then SubmitReadRows else SubmitUnlock)
    case SubmitReadRows =>
      SetS(s, t,
            if ok && th.ins <= s.db.tracked && th.ins !! s.db.spent && th.ins !! s.db.unrolled
            then SubmitAdd else SubmitUnlock)
    case SubmitAdd =>
      if ok && !CacheIncludesAny(s, th.ins)
      then SetS(s, t, SubmitSave).(cache := s.cache.(txs := s.cache.txs + {t}),
                                    hist := s.hist.(accepted := s.hist.accepted + {t}))
      else SetS(s, t, SubmitUnlock)
    case SubmitSave => SetS(s, t, SubmitUnlock)
    case SubmitUnlock =>
      SetS(s, t, if t in s.hist.accepted && t !in s.log.savedTxs then SubmitSaveLater else SubmitDone)
        .(offchainMu := None)
    case SubmitSaveLater =>
      var s1 := SetS(s, t, SubmitDone);
      if ok then s1.(log := s.log.(savedTxs := s.log.savedTxs + {t})) else s1
    case SubmitDone => s
  }

  /** A one-shot submission whose events cannot be saved takes its tx out of the cache again. */
  function SaveStep(s: State, t: Tid, ok: bool): (s': State)
    requires t in s.threads && s.threads[t].Submit?
  {
    var s1 := SetS(s, t, SubmitUnlock);
    if ok then s1.(log := s.log.(savedTxs := s.log.savedTxs + {t}))
    else s1.(cache := s.cache.(txs := s.cache.txs - {t}),
             hist := s.hist.(accepted := s.hist.accepted - {t}))
  }

  // RegisterIntent, from beginRegistration on. A failure unwinds the locks held so far.

  function SetR(s: State, t: Tid, pc: RegisterPc): State
    requires t in s.threads && s.threads[t].Register?
  {
    Put(s, t, s.threads[t].(rpc := pc))
  }

  function RegUnwind(th: Thread): RegisterPc
    requires th.Register?
  {
    if th.boardIns != {} then RegUnlockCosign else RegEnd
  }

  /** Push refuses an input held by another intent: only the intent that reserved a popped input re-queues it. */
  predicate PushAllowed(s: State, t: Tid, ops: set<Outpoint>) {
    forall op :: op in ops && op in s.cache.claims ==>
      s.cache.claims[op].Popped? && s.cache.claims[op].intent == t
  }

  function PushStep(s: State, t: Tid): State
    requires t in s.threads && s.threads[t].Register?
  {
    var th := s.threads[t];
    SetR(s, t, RegUnlockOffchain)
    .(cache := s.cache.(queue := s.cache.queue + {t},
                        claims := s.cache.claims + map op | op in th.ins :: Queued(t)),
      hist := s.hist.(pushed := s.hist.pushed[t := th.vtxoIns]))
  }

  function RegReadRowsStep(s: State, t: Tid): State
    requires t in s.threads && s.threads[t].Register?
  {
    var th := s.threads[t];
    var boardIns := (th.ins - s.db.tracked) + (th.ins * s.db.unrolled);
    var th' := Register(th.ins, th.ins * s.db.tracked, boardIns,
                        if boardIns == {} then RegLockOffchain else RegLockCosign);
    Put(s, t, th')
  }

  function RegisterStep(s: State, t: Tid, ok: bool): (s': State)
    requires t in s.threads && s.threads[t].Register? && (ok ==> CanAcquire(s, t))
    ensures s'.threads.Keys == s.threads.Keys && s'.threads[t].Register?
  {
    var th := s.threads[t];
    match th.rpc
    case RegBegin =>
      if ok then SetR(s, t, RegReadRows).(registering := s.registering + {t}) else SetR(s, t, RegDone)
    case RegReadRows =>
      if ok && th.ins * s.db.tracked !! s.db.spent then RegReadRowsStep(s, t) else SetR(s, t, RegEnd)
    case RegLockCosign =>
      if ok then SetR(s, t, RegReadCosigning).(cosignMu := Some(t)) else SetR(s, t, RegEnd)
    case RegReadCosigning =>
      SetR(s, t, if ok && th.boardIns !! s.cache.cosigning then RegReadCosigned else RegUnlockCosign)
    case RegReadCosigned =>
      SetR(s, t, if ok && th.boardIns !! s.db.cosignedRows then RegLockOffchain else RegUnlockCosign)
    case RegLockOffchain =>
      if ok then SetR(s, t, RegReadCache).(offchainMu := Some(t)) else SetR(s, t, RegUnwind(th))
    case RegReadCache =>
      SetR(s, t, if ok && !CacheIncludesAny(s, th.vtxoIns) then RegRereadRows else RegUnlockOffchain)
    case RegRereadRows =>
      SetR(s, t,
            if ok && th.vtxoIns <= s.db.tracked && th.vtxoIns !! s.db.spent
            then RegReadPending else RegUnlockOffchain)
    case RegReadPending =>
      SetR(s, t, if ok && th.vtxoIns !! s.cache.cosigning then RegReadCosignedRows else RegUnlockOffchain)
    case RegReadCosignedRows =>
      SetR(s, t, if ok && th.vtxoIns !! s.db.cosignedRows then RegPush else RegUnlockOffchain)
    case RegPush =>
      if ok && PushAllowed(s, t, th.ins) then PushStep(s, t) else SetR(s, t, RegUnlockOffchain)
    case RegUnlockOffchain => SetR(s, t, RegUnwind(th)).(offchainMu := None)
    case RegUnlockCosign => SetR(s, t, RegEnd).(cosignMu := None)
    case RegEnd => SetR(s, t, RegDone).(registering := s.registering - {t})
    case RegDone => s
  }

  // CosignOnchainTx. A failure inside lockUtxos releases the offchain mutex, the cache entry and
  // the cosign mutex, in that order.

  function SetC(s: State, t: Tid, pc: CosignPc): State
    requires t in s.threads && s.threads[t].Cosign?
  {
    Put(s, t, s.threads[t].(cpc := pc))
  }

  function CosignStep(s: State, t: Tid, ok: bool): (s': State)
    requires t in s.threads && s.threads[t].Cosign? && (ok ==> CanAcquire(s, t))
    ensures s'.threads.Keys == s.threads.Keys && s'.threads[t].Cosign?
  {
    var th := s.threads[t];
    match th.cpc
    case CosLock =>
      if ok then SetC(s, t, CosAdd).(cosignMu := Some(t)) else SetC(s, t, CosDone)
    case CosAdd =>
      if ok && th.ins !! s.cache.cosigning
      then SetC(s, t, CosReadRows).(cache := s.cache.(cosigning := s.cache.cosigning + th.ins))
      else SetC(s, t, CosFailUnlock)
    case CosReadRows =>
      SetC(s, t, if ok && th.ins !! s.db.cosignedRows then CosLockOffchain else CosRollback)
    case CosLockOffchain =>
      if ok then SetC(s, t, CosReadCache).(offchainMu := Some(t)) else SetC(s, t, CosRollback)
    case CosReadCache =>
      SetC(s, t, if ok && !CacheIncludesAny(s, th.ins) then CosReadClaims else CosFailOffchain)
    case CosReadClaims =>
      SetC(s, t, if ok && th.ins !! s.cache.claims.Keys then CosReadVtxos else CosFailOffchain)
    case CosReadVtxos =>
      SetC(s, t,
           if ok && th.ins * s.db.tracked <= s.db.unrolled && th.ins * s.db.tracked !! s.db.spent
           then CosReadCheckpoints else CosFailOffchain)
    case CosReadCheckpoints =>
      if ok then SetC(s, t, CosUnlockOffchain).(hist := s.hist.(cosigned := s.hist.cosigned + {t}))
      else SetC(s, t, CosFailOffchain)
    case CosUnlockOffchain => SetC(s, t, CosUnlock).(offchainMu := None)
    case CosUnlock => SetC(s, t, CosBroadcast).(cosignMu := None)
    case CosBroadcast =>
      if ok then SetC(s, t, CosDone).(log := s.log.(savedCosigns := s.log.savedCosigns + {t}))
      else SetC(s, t, CosRelease)
    case CosRelease =>
      SetC(s, t, CosDone)
      .(hist := s.hist.(cosigned := s.hist.cosigned - {t}),
        cache := if ok then s.cache.(cosigning := s.cache.cosigning - th.ins) else s.cache)
    case CosFailOffchain => SetC(s, t, CosRollback).(offchainMu := None)
    case CosRollback =>
      SetC(s, t, CosFailUnlock)
      .(cache := if ok then s.cache.(cosigning := s.cache.cosigning - th.ins) else s.cache)
    case CosFailUnlock => SetC(s, t, CosDone).(cosignMu := None)
    case CosDone => s
  }

  function ThreadStep(s: State, t: Tid, ok: bool): (s': State)
    requires t in s.threads && (ok ==> CanAcquire(s, t))
    ensures s'.threads.Keys == s.threads.Keys
  {
    match s.threads[t]
    case Submit(_, _) => SubmitStep(s, t, ok)
    case Register(_, _, _, _) => RegisterStep(s, t, ok)
    case Cosign(_, _) => CosignStep(s, t, ok)
  }

  function SpawnStep(s: State, t: Tid, request: Thread): State {
    Put(s, t, request).(hist := s.hist.(inputs := s.hist.inputs[t := request.ins]))
  }

  // Batches.

  /** The vtxo inputs, or the boarding inputs, of the intents a batch settled. */
  function SettledVtxos(h: Hist, b: BatchId): set<Outpoint> {
    set i, op | i in h.settled && h.settled[i] == b && op in VtxoIns(h.pushed, i) :: op
  }

  function SettledBoarding(h: Hist, b: BatchId): set<Outpoint> {
    set i, op | i in h.settled && h.settled[i] == b && op in Ins(h.inputs, i) - VtxoIns(h.pushed, i) :: op
  }

  function PopClaims(claims: map<Outpoint, Claim>, b: BatchId, intents: set<Tid>): map<Outpoint, Claim> {
    map op | op in claims ::
      if claims[op].Queued? && claims[op].intent in intents
      then Popped(b, claims[op].intent) else claims[op]
  }

  /** DeleteVtxos: drops only what the batch took. */
  function ReleaseClaims(claims: map<Outpoint, Claim>, b: BatchId): map<Outpoint, Claim> {
    map op | op in claims && !(claims[op].Popped? && claims[op].batch == b) :: claims[op]
  }

  function RoundStep(s: State, a: Action): State
    requires Enabled(s, a)
  {
    match a
    case RoundStart(b) => s.(round := RoundOpen(b), usedBatches := s.usedBatches + {b})
    case RoundPop(intents) =>
      s.(round := RoundSelected(s.round.batch, intents),
         cache := s.cache.(queue := s.cache.queue - intents,
                           claims := PopClaims(s.cache.claims, s.round.batch, intents)))
    case RoundAbort => s.(round := RoundCollecting(s.round.batch, false, {}))
    case RoundEnd(intents) =>
      s.(round := RoundEnded(s.round.batch),
         hist := s.hist.(settled := s.hist.settled + map i | i in intents :: s.round.batch))
    case RoundTrack =>
      s.(round := RoundTracked(s.round.batch),
         inflight := if s.round.batch in s.inflight then s.inflight else s.inflight[s.round.batch := false])
    case RoundSave(ok) =>
      var s1 := s.(round := RoundCollecting(s.round.batch, true, {}));
      if ok then s1.(log := s.log.(savedBatches := s.log.savedBatches + {s.round.batch})) else s1
    case RoundCollect =>
      s.(round := RoundCollecting(s.round.batch, s.round.ended,
                                  s.round.done + set b | b in s.inflight && s.inflight[b]),
         inflight := map b | b in s.inflight && !s.inflight[b] :: false)
    case RoundWant => s.(round := RoundWanting(s.round.batch, s.round.ended, s.round.done))
    case RoundHold =>
      s.(round := RoundReleasing(s.round.done + if s.round.ended then {} else {s.round.batch}))
    case RoundRelease(b, ok) =>
      s.(round := RoundReleasing(s.round.todo - {b}),
         cache := if ok then s.cache.(claims := ReleaseClaims(s.cache.claims, b)) else s.cache)
    case RoundResume => s.(round := RoundIdle)
    case _ => s
  }

  // Chain notifications, projections and update handlers.

  function BackgroundStep(s: State, a: Action): State
    requires Enabled(s, a)
  {
    match a
    case TrackVtxos(ops) => s.(db := s.db.(tracked := s.db.tracked + ops))
    case UnrollVtxos(ops, rows) =>
      s.(db := s.db.(unrolled := s.db.unrolled + ops, cosignedRows := s.db.cosignedRows + rows))
    case ProjectSpend(t) =>
      s.(db := s.db.(spent := s.db.spent + Ins(s.hist.inputs, t)),
         log := s.log.(spentLanded := s.log.spentLanded + {t}))
    case RemoveCached(t) => s.(cache := s.cache.(txs := s.cache.txs - {t}))
    case ProjectCosign(t) =>
      s.(db := s.db.(cosignedRows := s.db.cosignedRows + Ins(s.hist.inputs, t)),
         log := s.log.(cosignLanded := s.log.cosignLanded + {t}))
    case UnlockUtxos(t) => s.(cache := s.cache.(cosigning := s.cache.cosigning - Ins(s.hist.inputs, t)))
    case ProjectRows(b) =>
      s.(db := s.db.(spent := s.db.spent + SettledVtxos(s.hist, b)),
         log := s.log.(rowsLanded := s.log.rowsLanded + {b}))
    case ProjectBoarding(b) =>
      s.(db := s.db.(cosignedRows := s.db.cosignedRows + SettledBoarding(s.hist, b)),
         log := s.log.(boardingLanded := s.log.boardingLanded + {b}))
    case MarkProjected(b) => if b in s.inflight then s.(inflight := s.inflight[b := true]) else s
    case DeleteIntent(t) =>
      s.(cache := s.cache.(queue := s.cache.queue - {t}, claims := s.cache.claims - Ins(s.hist.inputs, t)))
    case _ => s
  }

  predicate RoundAction(a: Action) {
    a.RoundStart? || a.RoundPop? || a.RoundAbort? || a.RoundEnd? || a.RoundTrack? || a.RoundSave?
    || a.RoundCollect? || a.RoundWant? || a.RoundHold? || a.RoundRelease? || a.RoundResume?
  }

  function Do(s: State, a: Action): State
    requires Enabled(s, a)
  {
    match a
    case Spawn(t, request) => SpawnStep(s, t, request)
    case Step(t, ok) => ThreadStep(s, t, ok)
    case SaveOneShot(t, ok) => SaveStep(s, t, ok)
    case _ => if RoundAction(a) then RoundStep(s, a) else BackgroundStep(s, a)
  }

  /** Any database content, empty caches, no request. */
  predicate Init(s: State) {
    && s.cache == Cache({}, {}, map[], {})
    && s.log == Log({}, {}, {}, {}, {}, {}, {})
    && s.hist == Hist(map[], {}, map[], map[], {})
    && s.round == RoundIdle && s.inflight == map[]
    && s.offchainMu.None? && s.cosignMu.None? && s.registering == {} && s.threads == map[]
  }

  /** actions is a run from s: each one is enabled where it is taken. */
  predicate ValidRun(s: State, actions: seq<Action>)
    decreases |actions|
  {
    actions == [] || (Enabled(s, actions[0]) && ValidRun(Do(s, actions[0]), actions[1..]))
  }

  function Run(s: State, actions: seq<Action>): State
    requires ValidRun(s, actions)
    decreases |actions|
  {
    if actions == [] then s else Run(Do(s, actions[0]), actions[1..])
  }
}
