/** The three CRE workflows as a stepwise protocol over their durable files and the contracts on Base
    (workflows/cre-source-dispatch, cre-level3-attestor, cre-vaa-executor; packages/config/src/cre-runtime.ts).
    A tick is the list of actions it performs in order; a crash keeps a prefix of it. */
module Workflows {
  import opened Bytes
  import opened BaseContracts
  import opened Lanes
  import Digests
  import PB = ProofBuffer
  import Quorum
  import R = Reducer
  import Vaas

  // -------------------------------------------------------------------------
  // Durable state
  // -------------------------------------------------------------------------

  datatype DispatchState = Watching | FinalObserved(tick: nat) | Staged

  datatype AttestorState = NotReported | Reported(attestationId: bytes32)

  datatype ExecutorState = NotSubmitted | Submitted(attestationId: bytes32, dualFinalized: bool,
                                                    settleTxHash: Option<string>)

  /** The proof buffer's store, every file a workflow reads back, the event stream and Base. History, which
      no workflow reads: the earlier states of Base, the Level 3 reports mined and those accepted. */
  datatype World = World(
    stream: seq<R.RunEvent>, buffers: PB.Files, dispatch: DispatchState, handoff: Option<Handoff>,
    attestor: AttestorState, level3Report: Option<Level3Report>, executor: ExecutorState, base: Base,
    past: seq<Base>, sent: seq<Level3Report>, accepted: seq<Level3Report>)

  /** attestorLive and executorLive: live mode with rpc url, forwarder key, receiver (and for the executor
      the registry) all present. */
  datatype Config = Config(
    setup: Setup, fixture: Fixture, fixturePath: Option<string>, fixtureLive: bool, quorum: nat,
    attestorLive: bool, executorLive: bool, settleMarket: bool, d: Deployment, chunkSize: int,
    addressOf: string -> string)

  /** A provider's answer: its stable outputs agree or not, and it was asked for real or simulated. */
  datatype Answer = Answer(provider: string, agreed: bool, live: bool)

  /** What the outside supplies to one tick: clocks, provider answers, the VAA source, hashes of sent
      transactions and the identifiers of simulated ones. */
  datatype TickInput = TickInput(
    now: int, nextAt: int, tick: nat, providers: seq<Answer>, vaaSource: VaaSource, sealSignature: string,
    verifySignature: string, txHash: string, settleTxHash: string, digest: bytes32, slot: int, block: int,
    reason: string)

  /** What the outside supplies to one action: the clock, and how many transactions the replica that
      answers a read or a gas estimate is behind (or how many got in between the estimate and the block). */
  datatype Moment = Moment(now: int, lag: nat)

  /** Base as that replica shows it. */
  function Seen(w: World, m: Moment): Base
  {
    Behind(w.base, w.past, m.lag)
  }

  function Behind(base: Base, past: seq<Base>, lag: nat): Base
  {
    if lag == 0 || past == [] then base else past[if lag <= |past| then |past| - lag else 0]
  }

  /** A mined transaction. */
  function Mined(w: World, base: Base): World { w.(base := base, past := w.past + [w.base]) }

  // -------------------------------------------------------------------------
  // Actions
  // -------------------------------------------------------------------------

  datatype Action =
    | Emit(event: R.Event, simulated: bool)
    | SaveDispatch(dispatch: DispatchState)
    | InitBuffer(address: string)
    | AppendChunk(address: string, chunk: bytes)
    | SealBuffer(address: string, expected: bytes32)
    | WriteHandoff(handoff: Handoff)
    | SendReport(report: Level3Report)
    | WriteLevel3Report(report: Level3Report)
    | SaveAttestor(attestor: AttestorState)
    | SendVaa(vaaBytes: bytes)
    | PollRegistry(attempts: nat, fixtureId: int, hash: string)
    | AnnounceDual(fixtureId: int)
    | CheckMarket(hash: string)
    | SendSettle(hash: string)
    | Reconcile(attestationId: bytes32, hash: string, reason: string)
    | SaveExecutor(executor: ExecutorState)

  /** A running tick: what is left to do, and the locals its last save reads. */
  datatype Proc = Proc(todo: seq<Action>, dualFinalized: bool, settleTxHash: Option<string>)

  const IDLE := Proc([], false, None)

  function Started(todo: seq<Action>): Proc { Proc(todo, false, None) }

  const DISPATCH_STAGE := "source-dispatch"
  const ATTESTOR_STAGE := "level3-attestor"
  const EXECUTOR_STAGE := "vaa-executor"

  /** The registry's proof-lane record, all zeros while there is none. */
  function ReadLevel4Id(base: Base, fixtureId: int): bytes32
  {
    var row := RowOf(base.registry, fixtureId);
    if row.level4 == None then seq(32, i => 0) else row.level4.value.attestationId
  }

  const UPLOADER := "sim:uploader"

  function Append(w: World, e: R.Event, simulated: bool, m: Moment): World
  {
    w.(stream := w.stream + [R.RunEvent(|w.stream|, m.now, simulated, e)])
  }

  /** A buffer operation that fails throws. */
  function WriteBuffer(w: World, r: Result<PB.Files, PB.BufferError>, rest: Proc): (World, Proc)
  {
    match r case Ok(buffers) => (w.(buffers := buffers), rest) case Err(_) => (w, IDLE)
  }

  /** One action. An error thrown ends the process. Sending estimates gas first, which throws for a call
      that would revert where the estimate is made; a transaction that reverts when it is mined goes
      unnoticed, because only its receipt is awaited and never its status. */
  function Do(cfg: Config, w: World, p: Proc, m: Moment): (World, Proc)
    requires p.todo != []
  {
    var rest := p.(todo := p.todo[1..]);
    match p.todo[0]
    case Emit(e, simulated) => (Append(w, e, simulated, m), rest)
    case SaveDispatch(s) => (w.(dispatch := s), rest)
    case InitBuffer(address) => (w.(buffers := PB.AfterInit(w.buffers, address, UPLOADER)), rest)
    case AppendChunk(address, chunk) => WriteBuffer(w, PB.TryAppend(w.buffers, address, chunk), rest)
    case SealBuffer(address, expected) =>
      WriteBuffer(w, PB.TrySeal(cfg.setup.c.keccak, w.buffers, address, expected), rest)
    case WriteHandoff(h) => (w.(handoff := Some(h)), rest)
    case SendReport(r) =>
      if TryOnReport(Seen(w, m), true, r).Err? then (w, IDLE)
      else
        (match TryOnReport(w.base, true, r)
         case Ok(b) => (Mined(w, b).(sent := w.sent + [r], accepted := w.accepted + [r]), rest)
         case Err(_) => (w.(sent := w.sent + [r]), rest))
    case WriteLevel3Report(r) => (w.(level3Report := Some(r)), rest)
    case SaveAttestor(s) => (w.(attestor := s), rest)
    case SendVaa(v) =>
      if TrySubmit(cfg.d, Seen(w, m), v).Err? then (w, IDLE)
      else
        (match TrySubmit(cfg.d, w.base, v)
         case Ok(b) => (Mined(w, b), rest)
         case Err(_) => (w, rest))
    case PollRegistry(attempts, f, hash) =>
      if attempts > 0 && RowOf(Seen(w, m).registry, f).status == DualFinalized then
        (w, rest.(dualFinalized := true,
                  todo := [AnnounceDual(f)] + (if cfg.settleMarket then [CheckMarket(hash)] else []) + rest.todo))
      else if attempts <= 1 then (w, rest)
      else (w, rest.(todo := [PollRegistry(attempts - 1, f, hash)] + rest.todo))
    case AnnounceDual(f) => (Append(w, R.DualFinalityReached(ReadLevel4Id(Seen(w, m), f)), false, m), rest)
    case CheckMarket(hash) =>
      (w, if Seen(w, m).winningOutcome.Some? then rest else rest.(todo := [SendSettle(hash)] + rest.todo))
    case SendSettle(hash) =>
      if TrySettle(cfg.d, Seen(w, m)).Err? then (w, IDLE)
      else
        ((match TrySettle(cfg.d, w.base) case Ok(b) => Mined(w, b) case Err(_) => w),
         rest.(settleTxHash := Some(hash), todo := [Emit(R.ConsumerSettled(hash), false)] + rest.todo))
    case Reconcile(id, hash, reason) =>
      (match w.level3Report
       case None => (w, rest)
       case Some(r) =>
         if r.attestationId != id then (w, Started([Emit(R.RunFailed(EXECUTOR_STAGE, reason), true)]))
         else if cfg.settleMarket then
           (w, rest.(settleTxHash := Some(hash),
                     todo := [Emit(R.DualFinalityReached(id), true), Emit(R.ConsumerSettled(hash), true)] + rest.todo))
         else (w, rest.(todo := [Emit(R.DualFinalityReached(id), true)] + rest.todo)))
    case SaveExecutor(s) =>
      if s.NotSubmitted? then (w.(executor := s), rest)
      else
        (w.(executor := s.(dualFinalized := p.dualFinalized,
                           settleTxHash := if p.settleTxHash.Some? then p.settleTxHash else s.settleTxHash)), rest)
  }

  // -------------------------------------------------------------------------
  // cre-source-dispatch
  // -------------------------------------------------------------------------

  function Heartbeat(i: TickInput): seq<Action> { [Emit(R.Event.Heartbeat(i.now, i.nextAt), false)] }

  function HandoffOf(cfg: Config): Handoff
    requires FindFinal(cfg.fixture.records).Some?
  {
    var f, r := cfg.fixture, Final(cfg.fixture);
    Handoff(cfg.fixturePath, f.fixtureId, r.sequence,
            Digests.ProofBundleHash(cfg.setup.c, ProofBundle(f, r)), f.rootAccount, f.wormhole)
  }

  function CanonicalBytes(cfg: Config): bytes
    requires FindFinal(cfg.fixture.records).Some?
  {
    PB.CanonicalBytes(ProofBundle(cfg.fixture, Final(cfg.fixture)))
  }

  /** The buffer's address, from the seed fixture:sequence. */
  function BufferAddress(cfg: Config): string
    requires FindFinal(cfg.fixture.records).Some?
  {
    cfg.addressOf(cfg.fixture.fixtureId + ":" + Final(cfg.fixture).sequence)
  }

  function ReadyAfter(cfg: Config): int
  {
    match cfg.fixture.ticksAfterFinalObserved case Some(n) => n case None => 0
  }

  /** The tick the final record was first seen in. */
  function ObservedTick(s: DispatchState, tick: nat): nat { if s.FinalObserved? then s.tick else tick }

  function DispatchTick(cfg: Config, w: World, i: TickInput): seq<Action>
  {
    Heartbeat(i) +
    if w.dispatch == Staged || FindFinal(cfg.fixture.records) == None then [] else
    (if w.dispatch == Watching
     then [Emit(R.FinalRecordObserved(cfg.fixture.fixtureId, Final(cfg.fixture).sequence), !cfg.fixtureLive),
           SaveDispatch(FinalObserved(i.tick))]
     else []) +
    if i.tick < ObservedTick(w.dispatch, i.tick) + ReadyAfter(cfg) then [] else Stage(cfg, i)
  }

  /** The proof can be staged as far as the fixture and the configuration go. */
  predicate CanStage(cfg: Config) {
    && FindFinal(cfg.fixture.records).Some? && cfg.chunkSize > 0
    && DailyRootFor(cfg.fixture, Final(cfg.fixture).timestampMs) == Ok(cfg.fixture.rootAccount)
  }

  function Stage(cfg: Config, i: TickInput): seq<Action>
    requires FindFinal(cfg.fixture.records).Some?
  {
    var h := HandoffOf(cfg);
    [Emit(R.ProofAvailable(h.proofBundleHash, cfg.fixture.rootAccount), !cfg.fixtureLive)] +
    match DailyRootFor(cfg.fixture, Final(cfg.fixture).timestampMs)
    case Err(_) => []
    case Ok(pda) =>
      if pda != cfg.fixture.rootAccount then [Emit(R.RunFailed(DISPATCH_STAGE, i.reason), !cfg.fixtureLive)]
      else [InitBuffer(BufferAddress(cfg))] + if cfg.chunkSize <= 0 then [] else Upload(cfg, i)
  }

  function Appends(address: string, chunks: seq<bytes>): seq<Action>
  {
    seq(|chunks|, k requires 0 <= k < |chunks| => AppendChunk(address, chunks[k]))
  }

  function BufferChunks(cfg: Config): seq<bytes>
    requires FindFinal(cfg.fixture.records).Some? && cfg.chunkSize > 0
  {
    PB.Chunks(CanonicalBytes(cfg), cfg.chunkSize)
  }

  /** Every chunk, the seal, then the handoff before the phase. */
  function Upload(cfg: Config, i: TickInput): seq<Action>
    requires FindFinal(cfg.fixture.records).Some? && cfg.chunkSize > 0
  {
    Appends(BufferAddress(cfg), BufferChunks(cfg)) +
    [SealBuffer(BufferAddress(cfg), HandoffOf(cfg).proofBundleHash)] + HandOver(cfg, i)
  }

  function HandOver(cfg: Config, i: TickInput): seq<Action>
    requires FindFinal(cfg.fixture.records).Some?
  {
    [Emit(R.ProofStaged(i.sealSignature), true), Emit(R.SolanaVerifySubmitted(i.verifySignature), true),
     WriteHandoff(HandoffOf(cfg)), SaveDispatch(Staged)]
  }

  // -------------------------------------------------------------------------
  // cre-level3-attestor
  // -------------------------------------------------------------------------

  /** The errors a lane reports as RUN_FAILED; the others throw without an event. */
  predicate Announced(e: LaneError) {
    match e
    case NoFixturePath => true
    case NoWormhole => true
    case NoFinalRecord => true
    case ProgramMismatch => true
    case DailyRootMismatch => true
    case PredicateMismatch => true
    case QuorumNotReached => true
    case BundleHashMismatch => true
    case NoEmitter => true
    case VectorMismatch => true
    case PayloadDiffers => true
    case BadSignatures(fault) => fault != Quorum.RecoverFailed && fault != Quorum.IndexOutOfBounds
    case _ => false
  }

  function Failure(stage: string, e: LaneError, i: TickInput): seq<Action>
  {
    if Announced(e) then [Emit(R.RunFailed(stage, i.reason), true)] else []
  }

  function AgreedCount(providers: seq<Answer>): nat
  {
    if providers == [] then 0
    else AgreedCount(providers[..|providers| - 1]) + if providers[|providers| - 1].agreed then 1 else 0
  }

  /** The count is the number of providers that agreed. */
  lemma {:induction false} AgreedCountIs(providers: seq<Answer>)
    ensures AgreedCount(providers) == |set k | 0 <= k < |providers| && providers[k].agreed|
    decreases |providers|
  {
    if providers != [] {
      var n := |providers| - 1;
      var init := providers[..n];
      AgreedCountIs(init);
      var all, before := set k | 0 <= k < |providers| && providers[k].agreed,
                         set k | 0 <= k < n && init[k].agreed;
      assert all == before + if providers[n].agreed then {n} else {};
    }
  }

  /** One LEVEL3_RPC_RESULT per provider from number k on. */
  function ProviderEvents(i: TickInput, k: nat): seq<Action>
    requires k <= |i.providers|
    decreases |i.providers| - k
  {
    if k == |i.providers| then []
    else
      [Emit(R.Level3RpcResult(i.providers[k].provider, i.providers[k].agreed, i.digest), !i.providers[k].live)] +
      ProviderEvents(i, k + 1)
  }

  function Deliver(cfg: Config, r: Level3Report, i: TickInput): seq<Action>
  {
    (if cfg.attestorLive then [SendReport(r)] else []) +
    [WriteLevel3Report(r), Emit(R.Level3BaseFinalized(i.txHash), !cfg.attestorLive),
     SaveAttestor(Reported(r.attestationId))]
  }

  function Attest(cfg: Config, h: Handoff, i: TickInput): seq<Action>
  {
    if h.fixturePath == None then Failure(ATTESTOR_STAGE, NoFixturePath, i)
    else if FindFinal(cfg.fixture.records) == None then Failure(ATTESTOR_STAGE, NoFinalRecord, i)
    else
      var r := Final(cfg.fixture);
      match CheckedTx(cfg.setup, cfg.fixture, h, r)
      case Err(e) => Failure(ATTESTOR_STAGE, e, i)
      case Ok(decoded) =>
        ProviderEvents(i, 0) +
        if AgreedCount(i.providers) < cfg.quorum then Failure(ATTESTOR_STAGE, QuorumNotReached, i)
        else
          match Level3Derive(cfg.setup, cfg.fixture, h, r, decoded)
          case Err(e) => Failure(ATTESTOR_STAGE, e, i)
          case Ok(report) => Deliver(cfg, report, i)
  }

  function AttestorTick(cfg: Config, w: World, i: TickInput): seq<Action>
  {
    Heartbeat(i) + if w.attestor.Reported? || w.handoff == None then [] else Attest(cfg, w.handoff.value, i)
  }

  // -------------------------------------------------------------------------
  // cre-vaa-executor
  // -------------------------------------------------------------------------

  const POLL_ATTEMPTS := 6

  function Submit(cfg: Config, built: Built, res: Level4Result, i: TickInput): seq<Action>
  {
    (if cfg.executorLive
     then [SendVaa(res.vaaBytes), Emit(R.Level4BaseSubmitted(i.txHash), false), Emit(R.BaseVaaVerified(i.block), false),
           PollRegistry(POLL_ATTEMPTS, built.outcome.fixtureId, i.settleTxHash)]
     else [Emit(R.Level4BaseSubmitted(i.txHash), true), Emit(R.BaseVaaVerified(i.block), true),
           Reconcile(res.attestationId, i.settleTxHash, i.reason)]) +
    [SaveExecutor(Submitted(res.attestationId, false, None))]
  }

  function SignerIndices(ss: seq<Vaas.Signature>): seq<int> {
    seq(|ss|, k requires 0 <= k < |ss| => ss[k].guardianIndex)
  }

  function Published(cfg: Config, h: Handoff, built: Built, i: TickInput): seq<Action>
    requires h.wormhole.Some?
  {
    [Emit(R.WormholeMessagePublished(h.wormhole.value.emitterBase58, h.wormhole.value.sequence), true)] +
    match FetchVaa(cfg.setup, i.vaaSource, built)
    case Err(_) => []
    case Ok(vaaBytes) =>
      match Level4Accept(cfg.setup, built, vaaBytes)
      case Err(e) => Failure(EXECUTOR_STAGE, e, i)
      case Ok(res) =>
        [Emit(R.VaaReady(cfg.setup.c.keccak(vaaBytes), SignerIndices(res.vaa.signatures)), true)] +
        Submit(cfg, built, res, i)
  }

  function Execute(cfg: Config, h: Handoff, i: TickInput): seq<Action>
  {
    match Level4Checked(cfg.setup, cfg.fixture, h)
    case Err(e) => Failure(EXECUTOR_STAGE, e, i)
    case Ok(r) =>
      [Emit(R.TxlineCpiVerified(i.slot), true)] +
      if h.wormhole == None then [] else
      match Level4Build(cfg.setup, cfg.fixture, h, r)
      case Err(e) => Failure(EXECUTOR_STAGE, e, i)
      case Ok(built) => Published(cfg, h, built, i)
  }

  /** BigInt(handoff?.fixtureId ?? 0) */
  function ResumeFixture(cfg: Config, w: World): Option<int>
  {
    if w.handoff == None then Some(0) else cfg.setup.bigInt(w.handoff.value.fixtureId)
  }

  /** A tick that finds "submitted": a live run that never saw dual finality polls again. */
  function Resume(cfg: Config, w: World, i: TickInput): seq<Action>
  {
    if cfg.executorLive && w.executor.Submitted? && w.executor.settleTxHash == None && !w.executor.dualFinalized
       && ResumeFixture(cfg, w).Some?
    then [PollRegistry(POLL_ATTEMPTS, ResumeFixture(cfg, w).value, i.settleTxHash), SaveExecutor(w.executor)]
    else []
  }

  function ExecutorTick(cfg: Config, w: World, i: TickInput): seq<Action>
  {
    Heartbeat(i) +
    if w.executor.Submitted? then Resume(cfg, w, i)
    else if w.handoff == None then []
    else Execute(cfg, w.handoff.value, i)
  }

  // -------------------------------------------------------------------------
  // Any interleaving of ticks, crashes and other people's transactions
  // -------------------------------------------------------------------------

  datatype Who = Dispatch | Attestor | Executor

  datatype System = System(w: World, dispatch: Proc, attestor: Proc, executor: Proc) {
    function Of(who: Who): Proc
    {
      match who case Dispatch => dispatch case Attestor => attestor case Executor => executor
    }

    function With(who: Who, w: World, p: Proc): System
    {
      match who
      case Dispatch => this.(w := w, dispatch := p)
      case Attestor => this.(w := w, attestor := p)
      case Executor => this.(w := w, executor := p)
    }
  }

  /** Start reads a workflow's files and begins a tick, Advance performs its next action, Crash loses
      what was left of it, Outside is a transaction someone else sends. */
  datatype Move = Start(who: Who, input: TickInput) | Advance(who: Who,
                                                              moment: Moment) | Crash(who: Who) | Outside(tx: Tx)

  function Tick(cfg: Config, who: Who, w: World, i: TickInput): seq<Action>
  {
    match who
    case Dispatch => DispatchTick(cfg, w, i)
    case Attestor => AttestorTick(cfg, w, i)
    case Executor => ExecutorTick(cfg, w, i)
  }

  function Next(cfg: Config, s: System, m: Move): System
  {
    match m
    case Start(who, i) => if s.Of(who).todo != [] then s else s.With(who, s.w, Started(Tick(cfg, who, s.w, i)))
    case Advance(who, moment) =>
      if s.Of(who).todo == [] then s
      else var (w, p) := Do(cfg, s.w, s.Of(who), moment); s.With(who, w, p)
    case Crash(who) => s.With(who, s.w, IDLE)
    case Outside(tx) => s.(w := Mined(s.w, AfterTx(cfg.d, s.w.base, tx)))
  }

  function Run(cfg: Config, s: System, moves: seq<Move>): System
    decreases |moves|
  {
    if moves == [] then s else Next(cfg, Run(cfg, s, moves[..|moves| - 1]), moves[|moves| - 1])
  }

  /** Only the attestor holds the forwarder's key. */
  predicate Allowed(m: Move) { m.Outside? && m.tx.OnReport? ==> !m.tx.fromForwarder }

  predicate AllAllowed(moves: seq<Move>) { forall m <- moves :: Allowed(m) }

  function Beginning(base: Base): System
  {
    System(World([], map[], Watching, None, NotReported, None, NotSubmitted, base, [], [], []), IDLE, IDLE, IDLE)
  }
}
