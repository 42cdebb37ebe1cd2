/** The three workflows run one after the other without a crash, as the relay runs them
    (apps/relay-cli/src/relay-fixture.ts), in simulation: what the control room shows at the end. */
module Rehearsal {
  import opened Bytes
  import opened BaseContracts
  import opened Lanes
  import opened Runners
  import opened WorkflowSafety
  import opened Workflows
  import PB = ProofBuffer
  import R = Reducer

  /** The stream so far: no failure, this many steps completed in order, this id announced last. */
  ghost predicate Shows(stream: seq<R.RunEvent>, k: nat, dual: Option<bytes32>, settled: bool) {
    && R.FailureFree(stream) && R.Level(stream) == Some(k) && R.LastDual(stream) == dual
    && (settled ==> exists e <- stream :: e.event.ConsumerSettled?)
  }

  lemma ShowsStep(stream: seq<R.RunEvent>, e: R.RunEvent, k: nat, dual: Option<bytes32>, settled: bool)
    requires Shows(stream, k, dual, settled) && !e.event.RunFailed? && R.Forward(k, R.Stage(e.event))
    ensures Shows(stream + [e], if R.Stage(e.event) == 0 then k else R.Stage(e.event),
                  if e.event.DualFinalityReached? then Some(e.event.attestationId) else dual,
                  settled || e.event.ConsumerSettled?)
  {
    var longer := stream + [e];
    assert longer[..|longer| - 1] == stream && longer[|longer| - 1] == e;
    assert e in longer && forall x <- stream :: x in longer;
  }

  /** Performing an event that moves the checklist forward. */
  lemma EmitStep(cfg: Config, w: World, p: Proc, env: nat -> Moment, clock: nat, k: nat, dual: Option<bytes32>,
                 settled: bool)
    returns (w': World, p': Proc)
    requires p.todo != [] && p.todo[0].Emit? && !p.todo[0].event.RunFailed?
    requires Shows(w.stream, k, dual, settled) && R.Forward(k, R.Stage(p.todo[0].event))
    ensures p' == p.(todo := p.todo[1..]) && w' == w.(stream := w'.stream)
    ensures Shows(w'.stream, if R.Stage(p.todo[0].event) == 0 then k else R.Stage(p.todo[0].event),
                  if p.todo[0].event.DualFinalityReached? then Some(p.todo[0].event.attestationId) else dual,
                  settled || p.todo[0].event.ConsumerSettled?)
    ensures Drain(cfg, w, p, env, clock) == Drain(cfg, w', p', env, clock + 1)
  {
    hide Shows, R.Stage, R.Forward;
    var e := p.todo[0].event;
    w', p' := Append(w, e, p.todo[0].simulated, env(clock)), p.(todo := p.todo[1..]);
    ShowsStep(w.stream, R.RunEvent(|w.stream|, env(clock).now, p.todo[0].simulated, e), k, dual, settled);
  }

  // -------------------------------------------------------------------------
  // Level 3
  // -------------------------------------------------------------------------

  lemma {:induction false} ProvidersStep(cfg: Config, w: World, env: nat -> Moment, clock: nat,
                                      i: TickInput, n: nat, tail: seq<Action>, k: nat)
    returns (w': World, clock': nat)
    requires n <= |i.providers| && Shows(w.stream, k, None, false)
    ensures w' == w.(stream := w'.stream) && Shows(w'.stream, k, None, false)
    ensures Drain(cfg, w, Started(ProviderEvents(i, n) + tail), env, clock) ==
            Drain(cfg, w', Started(tail), env, clock')
    decreases |i.providers| - n
  {
    hide Shows, Drain;
    var todo := ProviderEvents(i, n) + tail;
    if n == |i.providers| {
      assert todo == tail;
      w', clock' := w, clock;
    } else {
      assert todo[1..] == ProviderEvents(i, n + 1) + tail;
      var next, p := EmitStep(cfg, w, Started(todo), env, clock, k, None, false);
      w', clock' := ProvidersStep(cfg, next, env, clock + 1, i, n + 1, tail, k);
    }
  }

  lemma DeliverStep(cfg: Config, w: World, r: Level3Report, i: TickInput, env: nat -> Moment, clock: nat, k: nat)
    returns (w': World, clock': nat)
    requires !cfg.attestorLive && Shows(w.stream, k, None, false)
    ensures Drain(cfg, w, Started(Deliver(cfg, r, i)), env, clock) == (w', clock')
    ensures w' == w.(stream := w'.stream, level3Report := Some(r), attestor := Reported(r.attestationId))
    ensures Shows(w'.stream, k, None, false)
  {
    hide Shows, Drain;
    var p := Started(Deliver(cfg, r, i));
    assert p.todo ==
           [WriteLevel3Report(r), Emit(R.Level3BaseFinalized(i.txHash), true), SaveAttestor(Reported(r.attestationId))];
    DrainStep(cfg, w, p, env, clock);
    var w1, p1 := w.(level3Report := Some(r)), p.(todo := p.todo[1..]);
    var w2, p2 := EmitStep(cfg, w1, p1, env, clock + 1, k, None, false);
    DrainStep(cfg, w2, p2, env, clock + 2);
    w', clock' := w2.(attestor := Reported(r.attestationId)), clock + 3;
    Finishes(cfg, w', p2.(todo := p2.todo[1..]), env, clock');
  }

  /** A tick of the attestor up to its delivery, when a quorum agreed and its lane delivers. */
  lemma AgreedRun(cfg: Config, w: World, h: Handoff, inputs: nat -> TickInput, env: nat -> Moment, clock: nat,
                  max: nat, k: nat)
    returns (w': World, clock': nat)
    requires max >= 1 && Shows(w.stream, k, None, false) && w.handoff == Some(h) && w.attestor.NotReported?
    requires Level3(cfg.setup, cfg.fixture, h, true).Ok? && AgreedCount(inputs(1).providers) >= cfg.quorum
    ensures w' == w.(stream := w'.stream) && Shows(w'.stream, k, None, false)
    ensures Cron(cfg, Attestor, w, inputs, env, clock, 1, max) ==
            Drain(cfg, w', Started(Deliver(cfg, Level3(cfg.setup, cfg.fixture, h, true).value, inputs(1))), env, clock')
  {
    hide Shows, Drain, Attest, Level3, Deliver;
    var i := inputs(1);
    var r := Level3(cfg.setup, cfg.fixture, h, true).value;
    AttestList(cfg, h, i);
    var p := Started(Tick(cfg, Attestor, w, i));
    assert p.todo == Heartbeat(i) + Attest(cfg, h, i);
    assert p.todo[1..] == Attest(cfg, h, i);
    var w1, p1 := EmitStep(cfg, w, p, env, clock, k, None, false);
    w', clock' := ProvidersStep(cfg, w1, env, clock + 1, i, 0, Deliver(cfg, r, i), k);
  }

  lemma AttestorRun(cfg: Config, w: World, h: Handoff, inputs: nat -> TickInput, env: nat -> Moment, clock: nat,
                    max: nat, k: nat)
    returns (w': World, clock': nat)
    requires !cfg.attestorLive && max >= 1 && Shows(w.stream, k, None, false)
    requires w.handoff == Some(h) && w.attestor.NotReported?
    requires Level3(cfg.setup, cfg.fixture, h, true).Ok? && AgreedCount(inputs(1).providers) >= cfg.quorum
    ensures Cron(cfg, Attestor, w, inputs, env, clock, 1, max) == (w', clock')
    ensures var r := Level3(cfg.setup, cfg.fixture, h, true).value;
            w' == w.(stream := w'.stream, level3Report := Some(r), attestor := Reported(r.attestationId))
    ensures Shows(w'.stream, k, None, false)
  {
    hide Shows, Drain, Cron, Level3, Deliver;
    var w1, clock1 := AgreedRun(cfg, w, h, inputs, env, clock, max, k);
    w', clock' := DeliverStep(cfg, w1, Level3(cfg.setup, cfg.fixture, h, true).value, inputs(1), env, clock1, k);
  }

  // -------------------------------------------------------------------------
  // Level 4
  // -------------------------------------------------------------------------

  function VaaIsReady(cfg: Config, res: Level4Result): Action
  {
    Emit(R.VaaReady(cfg.setup.c.keccak(res.vaaBytes), SignerIndices(res.vaa.signatures)), true)
  }

  lemma PublishedList(cfg: Config, h: Handoff, built: Built, res: Level4Result, i: TickInput)
    requires h.wormhole.Some?
    requires FetchVaa(cfg.setup, i.vaaSource, built) == Ok(res.vaaBytes)
    requires Level4Accept(cfg.setup, built, res.vaaBytes) == Ok(res)
    ensures Published(cfg, h, built, i) ==
            [Emit(R.WormholeMessagePublished(h.wormhole.value.emitterBase58, h.wormhole.value.sequence), true)] +
            ([VaaIsReady(cfg, res)] + Submit(cfg, built, res, i))
  {
    hide FetchVaa, Level4Accept, Submit, SignerIndices;
  }

  /** A tick of the executor, when its lane delivers. */
  lemma ExecuteList(cfg: Config, h: Handoff, i: TickInput) returns (built: Built, res: Level4Result)
    requires Level4(cfg.setup, cfg.fixture, h, i.vaaSource).Ok?
    ensures res == Level4(cfg.setup, cfg.fixture, h, i.vaaSource).value
    ensures h.wormhole.Some? && FindFinal(cfg.fixture.records).Some?
    ensures Level4Build(cfg.setup, cfg.fixture, h, Final(cfg.fixture)) == Ok(built)
    ensures Execute(cfg, h, i) ==
            [Emit(R.TxlineCpiVerified(i.slot), true)] +
            ([Emit(R.WormholeMessagePublished(h.wormhole.value.emitterBase58, h.wormhole.value.sequence), true)] +
             ([VaaIsReady(cfg, res)] + Submit(cfg, built, res, i)))
  {
    hide Level4, Level4Checked, Level4Build, FetchVaa, Level4Accept, Published, Submit, VaaIsReady, FindFinal;
    Level4Steps(cfg.setup, cfg.fixture, h, i.vaaSource);
    built, res := Level4Build(cfg.setup, cfg.fixture, h, Final(cfg.fixture)).value,
                  Level4(cfg.setup, cfg.fixture, h, i.vaaSource).value;
    PublishedList(cfg, h, built, res, i);
  }

  /** The events of a Level 4 tick before it submits. */
  lemma ReadyRun(cfg: Config, w: World, h: Handoff, i: TickInput, env: nat -> Moment, clock: nat)
    returns (w': World, clock': nat, built: Built, res: Level4Result)
    requires Shows(w.stream, 2, None, false) && w.handoff == Some(h) && w.executor.NotSubmitted?
    requires Level4(cfg.setup, cfg.fixture, h, i.vaaSource).Ok?
    ensures res == Level4(cfg.setup, cfg.fixture, h, i.vaaSource).value
    ensures h.wormhole.Some? && FindFinal(cfg.fixture.records).Some?
    ensures Level4Build(cfg.setup, cfg.fixture, h, Final(cfg.fixture)) == Ok(built)
    ensures w' == w.(stream := w'.stream) && Shows(w'.stream, 4, None, false)
    ensures Drain(cfg, w, Started(Tick(cfg, Executor, w, i)), env, clock) ==
            Drain(cfg, w', Started(Submit(cfg, built, res, i)), env, clock')
  {
    hide Shows, Drain, Execute, Level4, Submit, Level4Build, FindFinal;
    built, res := ExecuteList(cfg, h, i);
    var p := Started(Tick(cfg, Executor, w, i));
    assert p.todo == Heartbeat(i) + Execute(cfg, h, i);
    assert p.todo[1..] == Execute(cfg, h, i);
    var w1, p1 := EmitStep(cfg, w, p, env, clock, 2, None, false);
    var w2, p2 := EmitStep(cfg, w1, p1, env, clock + 1, 2, None, false);
    var w3, p3 := EmitStep(cfg, w2, p2, env, clock + 2, 3, None, false);
    assert p3.todo == [VaaIsReady(cfg, res)] + Submit(cfg, built, res, i);
    var w4, p4 := EmitStep(cfg, w3, p3, env, clock + 3, 3, None, false);
    assert p4.todo == Submit(cfg, built, res, i);
    w', clock' := w4, clock + 4;
  }

  /** Every event of a simulated Level 4 tick moves the checklist forward; the reconciliation finds
      Level 3's id. */
  lemma ExecutorRun(cfg: Config, w: World, h: Handoff, inputs: nat -> TickInput, env: nat -> Moment, clock: nat,
                    max: nat)
    returns (w': World, clock': nat)
    requires !cfg.executorLive && cfg.settleMarket && max >= 1 && Shows(w.stream, 2, None, false)
    requires w.handoff == Some(h) && w.executor.NotSubmitted?
    requires Level4(cfg.setup, cfg.fixture, h, inputs(1).vaaSource).Ok?
    requires var id := Level4(cfg.setup, cfg.fixture, h, inputs(1).vaaSource).value.attestationId;
             w.level3Report.Some? && w.level3Report.value.attestationId == id
    ensures Cron(cfg, Executor, w, inputs, env, clock, 1, max) == (w', clock')
    ensures var id := Level4(cfg.setup, cfg.fixture, h, inputs(1).vaaSource).value.attestationId;
            Shows(w'.stream, 6, Some(id), true) && w'.executor.Submitted? && w'.executor.attestationId == id
  {
    hide Shows, Drain, Execute, Level4, Cron, Stops, Tick, Level4Build, Submit;
    var i := inputs(1);
    var w1, clock1, built, res := ReadyRun(cfg, w, h, i, env, clock);
    w', clock' := SubmitRun(cfg, w1, built, res, i, env, clock1);
    OneTick(cfg, w, h, inputs, env, clock, max);
  }

  /** From "VAA ready" on. */
  lemma SubmitRun(cfg: Config, w: World, built: Built, res: Level4Result, i: TickInput, env: nat -> Moment, clock: nat)
    returns (w': World, clock': nat)
    requires !cfg.executorLive && cfg.settleMarket && Shows(w.stream, 4, None, false)
    requires w.level3Report.Some? && w.level3Report.value.attestationId == res.attestationId
    ensures Drain(cfg, w, Started(Submit(cfg, built, res, i)), env, clock) == (w', clock')
    ensures Shows(w'.stream, 6, Some(res.attestationId), true)
    ensures w'.executor.Submitted? && w'.executor.attestationId == res.attestationId
  {
    hide Shows, Drain;
    var p := Started(Submit(cfg, built, res, i));
    var w1, p1 := EmitStep(cfg, w, p, env, clock, 4, None, false);
    assert p1.todo == p.todo[1..];
    var w2, p2 := EmitStep(cfg, w1, p1, env, clock + 1, 4, None, false);
    assert p2.todo == p.todo[2..];
    w', clock' := SettleRun(cfg, w2, p2, res.attestationId, i, env, clock + 2);
  }

  lemma SettleRun(cfg: Config, w: World, p: Proc, id: bytes32, i: TickInput, env: nat -> Moment, clock: nat)
    returns (w': World, clock': nat)
    requires cfg.settleMarket && Shows(w.stream, 5, None, false)
    requires p == Started([Reconcile(id, i.settleTxHash, i.reason), SaveExecutor(Submitted(id, false, None))])
    requires w.level3Report.Some? && w.level3Report.value.attestationId == id
    ensures Drain(cfg, w, p, env, clock) == (w', clock')
    ensures Shows(w'.stream, 6, Some(id), true) && w'.executor.Submitted? && w'.executor.attestationId == id
  {
    hide Shows, Drain;
    var save := SaveExecutor(Submitted(id, false, None));
    DrainStep(cfg, w, p, env, clock);
    var p1 := Proc([Emit(R.DualFinalityReached(id), true), Emit(R.ConsumerSettled(i.settleTxHash), true)] + [save],
                   false, Some(i.settleTxHash));
    assert p.todo[1..] == [save];
    w', clock' := FinalizeRun(cfg, w, p1, id, i, env, clock + 1);
  }

  lemma FinalizeRun(cfg: Config, w: World, p: Proc, id: bytes32, i: TickInput, env: nat -> Moment, clock: nat)
    returns (w': World, clock': nat)
    requires Shows(w.stream, 5, None, false)
    requires p == Proc([Emit(R.DualFinalityReached(id), true), Emit(R.ConsumerSettled(i.settleTxHash), true)] +
                       [SaveExecutor(Submitted(id, false, None))], false, Some(i.settleTxHash))
    ensures Drain(cfg, w, p, env, clock) == (w', clock')
    ensures Shows(w'.stream, 6, Some(id), true) && w'.executor.Submitted? && w'.executor.attestationId == id
  {
    hide Shows, Drain;
    var w2, p2 := EmitStep(cfg, w, p, env, clock, 5, None, false);
    var w3, p3 := EmitStep(cfg, w2, p2, env, clock + 1, 5, Some(id), false);
    assert p3.todo == [SaveExecutor(Submitted(id, false, None))];
    DrainStep(cfg, w3, p3, env, clock + 2);
    w', clock' := Do(cfg, w3, p3, env(clock + 2)).0, clock + 3;
    Finishes(cfg, w', p3.(todo := p3.todo[1..]), env, clock');
  }

  lemma OneTick(cfg: Config, w: World, h: Handoff, inputs: nat -> TickInput, env: nat -> Moment, clock: nat, max: nat)
    requires max >= 1 && w.handoff == Some(h) && w.executor.NotSubmitted?
    requires Level4(cfg.setup, cfg.fixture, h, inputs(1).vaaSource).Ok?
    ensures Cron(cfg, Executor, w, inputs, env, clock, 1, max) ==
            Drain(cfg, w, Started(Tick(cfg, Executor, w, inputs(1))), env, clock)
  {
    hide Drain, Tick, Level4Build, FetchVaa, Level4Accept;
    Level4Steps(cfg.setup, cfg.fixture, h, inputs(1).vaaSource);
  }

  // -------------------------------------------------------------------------
  // Source dispatch
  // -------------------------------------------------------------------------

  /** The state a dispatch run is in at a tick: not begun, or waiting for the proof since tick 1. */
  predicate Waiting(w: World, tick: nat) {
    (w.dispatch == Watching && tick == 1) || (w.dispatch == FinalObserved(1) && tick > 1)
  }

  lemma StageRun(cfg: Config, w: World, i: TickInput, env: nat -> Moment, clock: nat)
    returns (w': World, clock': nat)
    requires CanStage(cfg) && Stages(cfg, w) && Shows(w.stream, 1, None, false)
    ensures Drain(cfg, w, Started(Stage(cfg, i)), env, clock) == (w', clock')
    ensures w' == w.(stream := w'.stream, buffers := w'.buffers, handoff := Some(HandoffOf(cfg)), dispatch := Staged)
    ensures Shows(w'.stream, 2, None, false)
  {
    hide Shows, Drain, HandoffOf, DailyRootFor, FindFinal, BufferAddress, BufferChunks, Upload, Workflows.HandOver,
         Stages, PB.AppendAll,
         PB.AfterInit, PB.TrySeal;
    var p := Started(Stage(cfg, i));
    var w1, p1 := EmitStep(cfg, w, p, env, clock, 1, None, false);
    assert p1.todo == [InitBuffer(BufferAddress(cfg))] + Upload(cfg, i);
    UploadDrains(cfg, w1, p1, env, clock + 1, i);
    SameStore(cfg, w, w1);
    StagesIff(cfg, w1);
    var w2, p2 := w1.(buffers := PB.AfterInit(w1.buffers, BufferAddress(cfg), UPLOADER)), p1.(todo := Upload(cfg, i));
    UploadAppends(cfg, w2, p2, env, clock + 2, i);
    var w3, p3 := w2.(buffers := PB.AppendAll(w2.buffers, BufferAddress(cfg),
                                              BufferChunks(cfg)).0), p2.(todo := SealAndHandOver(cfg, i));
    var clock3 := clock + 2 + |BufferChunks(cfg)|;
    DrainStep(cfg, w3, p3, env, clock3);
    var sealed := PB.TrySeal(cfg.setup.c.keccak, w3.buffers, BufferAddress(cfg), HandoffOf(cfg).proofBundleHash);
    assert p3.todo[1..] == Workflows.HandOver(cfg, i);
    var w4 := w3.(buffers := sealed.value);
    w', clock' := HandOverRun(cfg, w4, i, env, clock3 + 1);
  }

  lemma HandOverRun(cfg: Config, w: World, i: TickInput, env: nat -> Moment, clock: nat)
    returns (w': World, clock': nat)
    requires FindFinal(cfg.fixture.records).Some? && Shows(w.stream, 2, None, false)
    ensures Drain(cfg, w, Started(Workflows.HandOver(cfg, i)), env, clock) == (w', clock')
    ensures w' == w.(stream := w'.stream, handoff := Some(HandoffOf(cfg)), dispatch := Staged)
    ensures Shows(w'.stream, 2, None, false)
  {
    hide Shows, Drain, HandoffOf, FindFinal;
    var h := HandoffOf(cfg);
    var p := Started(Workflows.HandOver(cfg, i));
    var w1, p1 := EmitStep(cfg, w, p, env, clock, 2, None, false);
    var w2, p2 := EmitStep(cfg, w1, p1, env, clock + 1, 2, None, false);
    assert p2.todo == [WriteHandoff(h), SaveDispatch(Staged)];
    DrainStep(cfg, w2, p2, env, clock + 2);
    var w3, p3 := w2.(handoff := Some(h)), p2.(todo := p2.todo[1..]);
    DrainStep(cfg, w3, p3, env, clock + 3);
    w', clock' := w3.(dispatch := Staged), clock + 4;
    Finishes(cfg, w', p3.(todo := p3.todo[1..]), env, clock');
  }

  /** A tick up to the point where it waits or stages. */
  lemma ObserveRun(cfg: Config, w: World, i: TickInput, env: nat -> Moment, clock: nat, rest: seq<Action>)
    returns (w': World, clock': nat)
    requires FindFinal(cfg.fixture.records).Some? && Waiting(w, i.tick)
    requires Shows(w.stream, if i.tick == 1 then 0 else 1, None, false)
    requires DispatchTick(cfg, w, i) == Heartbeat(i) + (if w.dispatch == Watching then
               [Emit(R.FinalRecordObserved(cfg.fixture.fixtureId, Final(cfg.fixture).sequence), !cfg.fixtureLive),
                SaveDispatch(FinalObserved(i.tick))] else []) + rest
    ensures Drain(cfg, w, Started(DispatchTick(cfg, w, i)), env, clock) == Drain(cfg, w', Started(rest), env, clock')
    ensures w' == w.(stream := w'.stream, dispatch := FinalObserved(1)) && Shows(w'.stream, 1, None, false)
  {
    hide Shows, Drain, Stage;
    var p := Started(DispatchTick(cfg, w, i));
    if w.dispatch == Watching {
      var w1, p1 := EmitStep(cfg, w, p, env, clock, 0, None, false);
      var w2, p2 := EmitStep(cfg, w1, p1, env, clock + 1, 0, None, false);
      assert p2.todo == [SaveDispatch(FinalObserved(i.tick))] + rest;
      assert p2.todo[1..] == rest;
      DrainStep(cfg, w2, p2, env, clock + 2);
      w', clock' := w2.(dispatch := FinalObserved(1)), clock + 3;
    } else {
      var w1, p1 := EmitStep(cfg, w, p, env, clock, 1, None, false);
      assert p1.todo == rest;
      w', clock' := w1, clock + 1;
    }
  }

  lemma CronStep(cfg: Config, who: Who, w: World, inputs: nat -> TickInput, env: nat -> Moment, clock: nat, tick: nat,
                 max: nat)
    requires tick <= max
    ensures var (w', clock') := Drain(cfg, w, Started(Tick(cfg, who, w, inputs(tick))), env, clock);
            Cron(cfg, who, w, inputs, env, clock, tick, max) ==
            if Stops(cfg, who, w, inputs(tick)) then (w', clock') else Cron(cfg, who, w', inputs, env, clock', tick + 1,
                                                                            max)
  {
    hide Drain, Tick, Stops;
  }

  /** Waiting, or staging what can be staged, does not stop the heartbeat. */
  lemma GoesOn(cfg: Config, w: World, i: TickInput)
    requires Waiting(w, i.tick) && CanStage(cfg) && Stages(cfg, w)
    ensures !Stops(cfg, Dispatch, w, i)
  {
    hide Stages, DailyRootFor, FindFinal;
  }

  lemma DispatchTickIs(cfg: Config, w: World, i: TickInput)
    requires Waiting(w, i.tick) && FindFinal(cfg.fixture.records).Some?
    ensures Tick(cfg, Dispatch, w, i) == DispatchTick(cfg, w, i)
    ensures DispatchTick(cfg, w, i) == Heartbeat(i) + (if w.dispatch == Watching then
               [Emit(R.FinalRecordObserved(cfg.fixture.fixtureId, Final(cfg.fixture).sequence), !cfg.fixtureLive),
                SaveDispatch(FinalObserved(i.tick))] else []) +
            (if i.tick < 1 + ReadyAfter(cfg) then [] else Stage(cfg, i))
  {
    hide Stage, FindFinal, Final;
  }

  lemma {:induction false} DispatchRun(cfg: Config, w: World, inputs: nat -> TickInput, env: nat -> Moment,
                              clock: nat, tick: nat, max: nat)
    returns (w': World, clock': nat)
    requires Waiting(w, tick) && 1 <= tick <= max && max >= 1 + ReadyAfter(cfg)
    requires (tick == 1 || tick <= 1 + ReadyAfter(cfg))
    requires Shows(w.stream, if tick == 1 then 0 else 1, None, false)
    requires (forall t: nat :: inputs(t).tick == t) && CanStage(cfg) && Stages(cfg, w)
    ensures Cron(cfg, Dispatch, w, inputs, env, clock, tick, max) == (w', clock')
    ensures w' == w.(stream := w'.stream, buffers := w'.buffers, handoff := Some(HandoffOf(cfg)), dispatch := Staged)
    ensures Shows(w'.stream, 2, None, false)
    decreases max - tick
  {
    hide Shows, Drain, Stage, HandoffOf, DailyRootFor, Stages, Cron, Stops, Tick;
    var i := inputs(tick);
    CronStep(cfg, Dispatch, w, inputs, env, clock, tick, max);
    GoesOn(cfg, w, i);
    DispatchTickIs(cfg, w, i);
    if tick < 1 + ReadyAfter(cfg) {
      var w1, clock1 := ObserveRun(cfg, w, i, env, clock, []);
      Finishes(cfg, w1, Started([]), env, clock1);
      SameStore(cfg, w, w1);
      w', clock' := DispatchRun(cfg, w1, inputs, env, clock1, tick + 1, max);
    } else {
      var w1, clock1 := ObserveRun(cfg, w, i, env, clock, Stage(cfg, i));
      SameStore(cfg, w, w1);
      var w2, clock2 := StageRun(cfg, w1, i, env, clock1);
      w', clock' := AfterStaging(cfg, w2, inputs, env, clock2, tick + 1, max);
    }
  }

  /** The heartbeat after staging only beats. */
  lemma AfterStaging(cfg: Config, w: World, inputs: nat -> TickInput, env: nat -> Moment, clock: nat, tick: nat,
                     max: nat)
    returns (w': World, clock': nat)
    requires w.dispatch == Staged && Shows(w.stream, 2, None, false)
    ensures Cron(cfg, Dispatch, w, inputs, env, clock, tick, max) == (w', clock')
    ensures w' == w.(stream := w'.stream) && Shows(w'.stream, 2, None, false)
  {
    hide Shows, Drain;
    if tick > max {
      w', clock' := w, clock;
    } else {
      var p := Started(Tick(cfg, Dispatch, w, inputs(tick)));
      var w1, p1 := EmitStep(cfg, w, p, env, clock, 2, None, false);
      assert p1.todo == [];
      Finishes(cfg, w1, p1, env, clock + 1);
      w', clock' := w1, clock + 1;
    }
  }

  // -------------------------------------------------------------------------
  // The whole run
  // -------------------------------------------------------------------------

  function Rehearse(cfg: Config, base: Base, env: nat -> Moment, dispatch: nat -> TickInput, attestor: nat -> TickInput,
                    executor: nat -> TickInput, maxDispatch: nat, maxAttestor: nat, maxExecutor: nat): World
  {
    var (w1, t1) := Cron(cfg, Dispatch, Beginning(base).w, dispatch, env, 0, 1, maxDispatch);
    var (w2, t2) := Cron(cfg, Attestor, w1, attestor, env, t1, 1, maxAttestor);
    Cron(cfg, Executor, w2, executor, env, t2, 1, maxExecutor).0
  }

  lemma RootOf(cfg: Config, source: VaaSource)
    requires FindFinal(cfg.fixture.records).Some? && Level4(cfg.setup, cfg.fixture, HandoffOf(cfg), source).Ok?
    ensures DailyRootFor(cfg.fixture, Final(cfg.fixture).timestampMs) == Ok(cfg.fixture.rootAccount)
  {
    hide Level4Build, FetchVaa, Level4Accept, DailyRootFor, ProofBundle;
  }

  lemma NothingShown()
    ensures Shows([], 0, None, false)
  {
  }

  /** What the reducer makes of a stream that shows everything. */
  lemma RoomOf(stream: seq<R.RunEvent>, id: bytes32)
    requires Shows(stream, 6, Some(id), true)
    ensures var room := R.Fold(R.InitialState(), stream);
            && room.steps == R.Checklist(6) && room.failure == None
            && room.finality == R.DualFinalized && room.attestationId == Some(id) && room.settledTxHash.Some?
  {
    hide R.Fold, R.Level, R.LastDual;
    R.ChecklistInOrderIff(stream);
    R.DualIsAnnounced(stream);
    R.ShownIffAnnounced(stream);
  }

  /** A crash-free simulated run with ticks enough for the proof to become available, a provider quorum
      and settlement configured, in which both lanes can deliver: the room ends with all six steps
      done, dual finality with the id both lanes derive, a settled market and no failure. */
  lemma SimulatedRunCompletes(cfg: Config, base: Base, env: nat -> Moment, dispatch: nat -> TickInput,
                              attestor: nat -> TickInput,
                              executor: nat -> TickInput, maxDispatch: nat, maxAttestor: nat, maxExecutor: nat)
    requires !cfg.attestorLive && !cfg.executorLive && cfg.settleMarket
    requires FindFinal(cfg.fixture.records).Some? && Writable(cfg.fixture, Final(cfg.fixture))
    requires Level3(cfg.setup, cfg.fixture, HandoffOf(cfg), true).Ok?
    requires Level4(cfg.setup, cfg.fixture, HandoffOf(cfg), executor(1).vaaSource).Ok?
    requires maxDispatch >= 1 && maxDispatch >= 1 + ReadyAfter(cfg) && maxAttestor >= 1 && maxExecutor >= 1
    requires cfg.chunkSize > 0 && forall t: nat :: dispatch(t).tick == t
    requires AgreedCount(attestor(1).providers) >= cfg.quorum
    ensures var room := R.Fold(R.InitialState(),
                              Rehearse(cfg, base, env, dispatch, attestor, executor, maxDispatch, maxAttestor,
                                       maxExecutor).stream);
            && room.steps == R.Checklist(6) && room.failure == None && room.finality == R.DualFinalized
            && room.attestationId == Some(Level3(cfg.setup, cfg.fixture, HandoffOf(cfg), true).value.attestationId)
            && room.settledTxHash.Some?
  {
    hide *;
    var h := HandoffOf(cfg);
    RootOf(cfg, executor(1).vaaSource);
    LanesAgree(cfg.setup, cfg.fixture, h, true, executor(1).vaaSource);
    StagesFresh(cfg, base);
    Blank(base);
    var w1, t1 := DispatchRun(cfg, Beginning(base).w, dispatch, env, 0, 1, maxDispatch);
    var w2, t2 := AttestorRun(cfg, w1, h, attestor, env, t1, maxAttestor, 2);
    var w3, t3 := ExecutorRun(cfg, w2, h, executor, env, t2, maxExecutor);
    Composed(cfg, base, env, dispatch, attestor, executor, maxDispatch, maxAttestor, maxExecutor, w1, t1, w2, t2, w3,
             t3);
    RoomOf(w3.stream, Level3(cfg.setup, cfg.fixture, h, true).value.attestationId);
  }

  /** An empty store takes the bundle. */
  lemma StagesFresh(cfg: Config, base: Base)
    requires FindFinal(cfg.fixture.records).Some? && cfg.chunkSize > 0
    requires DailyRootFor(cfg.fixture, Final(cfg.fixture).timestampMs) == Ok(cfg.fixture.rootAccount)
    ensures CanStage(cfg) && Stages(cfg, Beginning(base).w)
  {
    hide DailyRootFor, PB.StageThenSeal, CanonicalBytes, BufferAddress, FindFinal;
    PB.FreshStagingSeals(cfg.setup.c.keccak, map[], BufferAddress(cfg), UPLOADER, CanonicalBytes(cfg), cfg.chunkSize);
  }

  lemma Blank(base: Base)
    ensures Waiting(Beginning(base).w, 1) && Shows(Beginning(base).w.stream, 0, None, false)
    ensures Beginning(base).w.attestor.NotReported? && Beginning(base).w.executor.NotSubmitted?
  {
    NothingShown();
  }

  lemma Composed(cfg: Config, base: Base, env: nat -> Moment, dispatch: nat -> TickInput, attestor: nat -> TickInput,
                 executor: nat -> TickInput, maxDispatch: nat, maxAttestor: nat, maxExecutor: nat,
                 w1: World, t1: nat, w2: World, t2: nat, w3: World, t3: nat)
    requires Cron(cfg, Dispatch, Beginning(base).w, dispatch, env, 0, 1, maxDispatch) == (w1, t1)
    requires Cron(cfg, Attestor, w1, attestor, env, t1, 1, maxAttestor) == (w2, t2)
    requires Cron(cfg, Executor, w2, executor, env, t2, 1, maxExecutor) == (w3, t3)
    ensures Rehearse(cfg, base, env, dispatch, attestor, executor, maxDispatch, maxAttestor, maxExecutor) == w3
  {
    hide Cron;
  }
}
