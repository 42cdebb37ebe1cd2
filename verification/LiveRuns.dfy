/** The three workflows run live and without a crash against fresh contracts: every such run is one of
    the protocol's runs, it completes, and the windows for a crash lie on its way. */
module LiveRuns {
  import opened Bytes
  import opened BaseContracts
  import opened DualFinality
  import opened Lanes
  import opened Progress
  import opened Rehearsal
  import opened Restarts
  import opened Runners
  import opened Submissions
  import opened WorkflowRuns
  import opened WorkflowSafety
  import opened Workflows
  import Deliveries
  import Payload
  import R = Reducer

  // -------------------------------------------------------------------------
  // Runs without a crash are runs of the protocol
  // -------------------------------------------------------------------------

  /** Every replica shows the current state. */
  ghost predicate Current(env: nat -> Moment) { forall k: nat :: env(k).lag == 0 }

  /** A tick performed to its end is a run of the protocol: the runs with crashes are its prefixes. */
  lemma {:induction false} DrainIsRun(cfg: Config, s: System, who: Who, env: nat -> Moment, clock: nat, prompt: bool)
    returns (moves: seq<Move>, t: System)
    requires prompt ==> Current(env)
    ensures Reaches(cfg, s, moves, t, prompt)
    ensures t == s.With(who, Drain(cfg, s.w, s.Of(who), env, clock).0, t.Of(who)) && t.Of(who).todo == []
    decreases Weight(s.Of(who).todo)
  {
    hide Do, Reaches;
    if s.Of(who).todo == [] {
      moves, t := [], s;
      Nowhere(cfg, s, prompt);
      assert s == s.With(who, s.w, s.Of(who));
    } else {
      DoDecreases(cfg, s.w, s.Of(who), env(clock));
      var next := Step(cfg, s, who, env(clock), prompt);
      var rest;
      rest, t := DrainIsRun(cfg, next, who, env, clock + 1, prompt);
      Follow(cfg, s, [Advance(who, env(clock))], next, rest, t, prompt);
      moves := [Advance(who, env(clock))] + rest;
    }
  }

  /** Every tick the runners perform is reached from an idle workflow by the protocol's own moves. */
  lemma TickIsRun(cfg: Config, s: System, who: Who, i: TickInput, env: nat -> Moment, clock: nat, prompt: bool)
    returns (moves: seq<Move>, t: System)
    requires s.Of(who).todo == [] && (prompt ==> Current(env))
    ensures Reaches(cfg, s, moves, t, prompt)
    ensures t == s.With(who, Drain(cfg, s.w, Started(Tick(cfg, who, s.w, i)), env, clock).0, t.Of(who))
    ensures t.Of(who).todo == []
  {
    hide Tick, Drain, Reaches;
    var begun := Next(cfg, s, Start(who, i));
    OneMove(cfg, s, Start(who, i), prompt);
    var rest;
    rest, t := DrainIsRun(cfg, begun, who, env, clock, prompt);
    Follow(cfg, s, [Start(who, i)], begun, rest, t, prompt);
    moves := [Start(who, i)] + rest;
  }

  /** And so is a whole heartbeat loop. */
  lemma {:induction false} CronIsRun(cfg: Config, s: System, who: Who, inputs: nat -> TickInput, env: nat -> Moment,
                            clock: nat, tick: nat, max: nat, prompt: bool)
    returns (moves: seq<Move>, t: System)
    requires s.Of(who).todo == [] && (prompt ==> Current(env))
    ensures Reaches(cfg, s, moves, t, prompt)
    ensures t == s.With(who, Cron(cfg, who, s.w, inputs, env, clock, tick, max).0, t.Of(who)) && t.Of(who).todo == []
    decreases if tick <= max then max - tick + 1 else 0
  {
    hide Tick, Drain, Stops, Reaches;
    if tick > max {
      moves, t := [], s;
      Nowhere(cfg, s, prompt);
    } else {
      var i := inputs(tick);
      var first, mid := TickIsRun(cfg, s, who, i, env, clock, prompt);
      if Stops(cfg, who, s.w, i) {
        moves, t := first, mid;
      } else {
        var clock' := Drain(cfg, s.w, Started(Tick(cfg, who, s.w, i)), env, clock).1;
        var rest;
        rest, t := CronIsRun(cfg, mid, who, inputs, env, clock', tick + 1, max, prompt);
        Follow(cfg, s, first, mid, rest, t, prompt);
        moves := first + rest;
      }
    }
  }

  // -------------------------------------------------------------------------
  // Fresh contracts
  // -------------------------------------------------------------------------

  /** Both lanes deliver, live, to contracts that registered the handoff's emitter and have seen nothing
      of this fixture. */
  ghost predicate CanGoLive(cfg: Config, base: Base, source: VaaSource) {
    && cfg.attestorLive && cfg.executorLive && cfg.chunkSize > 0 && cfg.setup.c == cfg.d.c
    && FindFinal(cfg.fixture.records).Some? && Writable(cfg.fixture, Final(cfg.fixture))
    && var h := HandoffOf(cfg);
    && Level3(cfg.setup, cfg.fixture, h, true).Ok? && Level4(cfg.setup, cfg.fixture, h, source).Ok?
    && h.wormhole.Some? && HandoffEmitter(h) == Ok(cfg.d.registeredEmitter)
    && WellAddressed(cfg.d, Level4(cfg.setup, cfg.fixture, h, source).value.vaaBytes)
    && Untouched(cfg.d, base, Level3(cfg.setup, cfg.fixture, h, true).value,
                 Level4(cfg.setup, cfg.fixture, h, source).value)
  }

  function Report(cfg: Config): Level3Report
    requires FindFinal(cfg.fixture.records).Some? && Level3(cfg.setup, cfg.fixture, HandoffOf(cfg), true).Ok?
  {
    Level3(cfg.setup, cfg.fixture, HandoffOf(cfg), true).value
  }

  /** What both lanes put on Base. */
  lemma LiveFacts(cfg: Config, base: Base, source: VaaSource)
    requires CanGoLive(cfg, base, source)
    ensures CanDeliver(cfg, source) && Derived(cfg, Report(cfg)) && CanStage(cfg) && Stages(cfg, Beginning(base).w)
    ensures FixtureNumber(cfg) == Some(Report(cfg).fixtureId)
    ensures Delivered(cfg, source).attestationId == Report(cfg).attestationId
    ensures TryOnReport(base, true, Report(cfg)).Ok?
    ensures var v, mid := Delivered(cfg, source).vaaBytes, TryOnReport(base, true, Report(cfg)).value;
            && TrySubmit(cfg.d, mid, v).Ok? && FinalWith(TrySubmit(cfg.d, mid, v).value, Report(cfg))
            && TrySubmit(cfg.d, base, v).Ok?
    ensures RowOf(TryOnReport(base, true, Report(cfg)).value.registry, Report(cfg).fixtureId).level4 == None
  {
    hide *;
    GoLive(cfg, base, source);
    var h, r := HandoffOf(cfg), Report(cfg);
    RootOf(cfg, source);
    StagesFresh(cfg, base);
    LanesAgree(cfg.setup, cfg.fixture, h, true, source);
    LanesMatch(cfg.d, cfg.setup, cfg.fixture, h, true, source);
    OneOrder(cfg.d, base, r, Delivered(cfg, source));
    ReportNumber(cfg.setup, cfg.fixture, h, true);
    NumberIs(cfg);
    OneSide(base, r);
    FinalIs(cfg, base, r, Delivered(cfg, source).vaaBytes);
  }

  lemma NumberIs(cfg: Config)
    ensures FixtureNumber(cfg) == cfg.setup.bigInt(cfg.fixture.fixtureId)
  {
  }

  /** The fixture is final with this record from both lanes. */
  predicate FinalWith(base: Base, r: Level3Report) {
    RowOf(base.registry, r.fixtureId) == Row(DualFinalized, Some(RecordOf(r)), Some(RecordOf(r)))
  }

  lemma FinalIs(cfg: Config, base: Base, r: Level3Report, v: bytes)
    requires TryOnReport(base, true, r).Ok? && TrySubmit(cfg.d, AfterTx(cfg.d, base, OnReport(true, r)), v).Ok?
    requires RowOf(AfterTx(cfg.d, AfterTx(cfg.d, base, OnReport(true, r)), SubmitVaa(v)).registry, r.fixtureId) ==
             Row(DualFinalized, Some(RecordOf(r)), Some(RecordOf(r)))
    ensures var mid := TryOnReport(base, true, r).value;
            TrySubmit(cfg.d, mid, v).Ok? && FinalWith(TrySubmit(cfg.d, mid, v).value, r)
  {
    hide TryOnReport, TrySubmit, RowOf;
  }

  lemma OneSide(base: Base, r: Level3Report)
    requires RowOf(base.registry, r.fixtureId) == EMPTY && TryOnReport(base, true, r).Ok?
    ensures RowOf(TryOnReport(base, true, r).value.registry, r.fixtureId).level4 == None
  {
  }

  lemma GoLive(cfg: Config, base: Base, source: VaaSource)
    requires CanGoLive(cfg, base, source)
    ensures cfg.chunkSize > 0 && cfg.setup.c == cfg.d.c && cfg.attestorLive && cfg.executorLive
    ensures FindFinal(cfg.fixture.records).Some? && Writable(cfg.fixture, Final(cfg.fixture))
    ensures Level4(cfg.setup, cfg.fixture, HandoffOf(cfg), source).Ok? && CanDeliver(cfg, source)
    ensures Delivered(cfg, source) == Level4(cfg.setup, cfg.fixture, HandoffOf(cfg), source).value
    ensures Level3(cfg.setup, cfg.fixture, HandoffOf(cfg), true) == Ok(Report(cfg)) && Derived(cfg, Report(cfg))
    ensures HandoffOf(cfg).wormhole.Some? && HandoffEmitter(HandoffOf(cfg)) == Ok(cfg.d.registeredEmitter)
    ensures WellAddressed(cfg.d, Delivered(cfg, source).vaaBytes)
    ensures Untouched(cfg.d, base, Report(cfg), Delivered(cfg, source))
    ensures RowOf(base.registry, Report(cfg).fixtureId) == EMPTY
  {
    hide Level3, Level4, HandoffOf, WellAddressed, FindFinal, Writable, HandoffEmitter, RowOf;
  }

  // -------------------------------------------------------------------------
  // Level 3, live
  // -------------------------------------------------------------------------

  lemma LiveDeliver(cfg: Config, w: World, r: Level3Report, i: TickInput, env: nat -> Moment, clock: nat, k: nat)
    returns (w': World, clock': nat)
    requires cfg.attestorLive && Shows(w.stream, k, None, false) && Current(env) && TryOnReport(w.base, true, r).Ok?
    ensures Drain(cfg, w, Started(Deliver(cfg, r, i)), env, clock) == (w', clock')
    ensures w' == w.(stream := w'.stream, base := TryOnReport(w.base, true, r).value, past := w.past + [w.base],
                     sent := w.sent + [r], accepted := w.accepted + [r], level3Report := Some(r),
                     attestor := Reported(r.attestationId))
    ensures Shows(w'.stream, k, None, false)
  {
    hide Shows, Drain, TryOnReport;
    var p := Started(Deliver(cfg, r, i));
    assert p.todo == [SendReport(r), WriteLevel3Report(r), Emit(R.Level3BaseFinalized(i.txHash), false),
                      SaveAttestor(Reported(r.attestationId))];
    DrainStep(cfg, w, p, env, clock);
    var w1 := Mined(w, TryOnReport(w.base, true, r).value).(sent := w.sent + [r], accepted := w.accepted + [r]);
    var p1 := p.(todo := p.todo[1..]);
    DrainStep(cfg, w1, p1, env, clock + 1);
    var w2, p2 := w1.(level3Report := Some(r)), p1.(todo := p1.todo[1..]);
    var w3, p3 := EmitStep(cfg, w2, p2, env, clock + 2, k, None, false);
    DrainStep(cfg, w3, p3, env, clock + 3);
    w', clock' := w3.(attestor := Reported(r.attestationId)), clock + 4;
    Finishes(cfg, w', p3.(todo := p3.todo[1..]), env, clock');
  }

  lemma LiveAttestorRun(cfg: Config, w: World, h: Handoff, inputs: nat -> TickInput, env: nat -> Moment, clock: nat,
                        max: nat, k: nat)
    returns (w': World, clock': nat)
    requires cfg.attestorLive && max >= 1 && Shows(w.stream, k, None, false) && Current(env)
    requires w.handoff == Some(h) && w.attestor.NotReported?
    requires Level3(cfg.setup, cfg.fixture, h, true).Ok? && AgreedCount(inputs(1).providers) >= cfg.quorum
    requires TryOnReport(w.base, true, Level3(cfg.setup, cfg.fixture, h, true).value).Ok?
    ensures Cron(cfg, Attestor, w, inputs, env, clock, 1, max) == (w', clock')
    ensures var r := Level3(cfg.setup, cfg.fixture, h, true).value;
            w' == w.(stream := w'.stream, base := TryOnReport(w.base, true, r).value, past := w.past + [w.base],
                     sent := w.sent + [r], accepted := w.accepted + [r], level3Report := Some(r),
                     attestor := Reported(r.attestationId))
    ensures Shows(w'.stream, k, None, false)
  {
    hide Shows, Drain, Cron, Level3, Deliver, TryOnReport;
    var w1, clock1 := AgreedRun(cfg, w, h, inputs, env, clock, max, k);
    w', clock' := LiveDeliver(cfg, w1, Level3(cfg.setup, cfg.fixture, h, true).value, inputs(1), env, clock1, k);
  }

  // -------------------------------------------------------------------------
  // Level 4, live
  // -------------------------------------------------------------------------

  /** The send is mined. */
  lemma SendStep(cfg: Config, w: World, p: Proc, env: nat -> Moment, clock: nat, v: bytes)
    requires p.todo != [] && p.todo[0] == SendVaa(v) && Current(env) && TrySubmit(cfg.d, w.base, v).Ok?
    ensures Drain(cfg, w, p, env, clock) ==
            Drain(cfg, Mined(w, TrySubmit(cfg.d, w.base, v).value), p.(todo := p.todo[1..]), env, clock + 1)
  {
    hide Drain, TrySubmit;
    DrainStep(cfg, w, p, env, clock);
  }

  /** The registry's verdict is announced with the id of its record. */
  lemma AnnounceRun(cfg: Config, w: World, p: Proc, env: nat -> Moment, clock: nat, r: Level3Report)
    returns (w': World)
    requires p.todo != [] && p.todo[0] == AnnounceDual(r.fixtureId) && Current(env)
    requires FinalWith(w.base, r) && Shows(w.stream, 5, None, false)
    ensures Drain(cfg, w, p, env, clock) == Drain(cfg, w', p.(todo := p.todo[1..]), env, clock + 1)
    ensures w' == w.(stream := w'.stream) && Shows(w'.stream, 5, Some(r.attestationId), false)
  {
    hide Drain, Shows, RowOf;
    DrainStep(cfg, w, p, env, clock);
    var e := R.RunEvent(|w.stream|, env(clock).now, false, R.DualFinalityReached(r.attestationId));
    ShowsStep(w.stream, e, 5, None, false);
    w' := w.(stream := w.stream + [e]);
  }

  /** The open market is settled with the record's result. */
  lemma SettleStep(cfg: Config, w: World, hash: string, tail: seq<Action>, env: nat -> Moment, clock: nat,
                   r: Level3Report)
    requires FinalWith(w.base, r) && cfg.d.marketFixture == r.fixtureId && w.base.winningOutcome == None
    requires Current(env)
    ensures Drain(cfg, w, Proc([CheckMarket(hash)] + tail, true, None), env, clock) ==
            Drain(cfg, Mined(w, w.base.(winningOutcome := Some(r.result))),
                  Proc([Emit(R.ConsumerSettled(hash), false)] + tail, true, Some(hash)), env, clock + 2)
  {
    hide Drain, RowOf;
    var p := Proc([CheckMarket(hash)] + tail, true, None);
    assert p.todo[1..] == tail;
    DrainStep(cfg, w, p, env, clock);
    var q := Proc([SendSettle(hash)] + tail, true, None);
    assert q.todo[1..] == tail;
    DrainStep(cfg, w, q, env, clock + 1);
  }

  /** From the poll on. */
  lemma FinalizeLive(cfg: Config, w: World, r: Level3Report, id: bytes32, hash: string, env: nat -> Moment, clock: nat)
    returns (w': World, clock': nat)
    requires cfg.settleMarket && Current(env) && Shows(w.stream, 5, None, false) && FinalWith(w.base, r)
    requires cfg.d.marketFixture == r.fixtureId && w.base.winningOutcome == None
    ensures Drain(cfg, w, Started([PollRegistry(POLL_ATTEMPTS, r.fixtureId, hash)] +
                                  [SaveExecutor(Submitted(id, false, None))]), env, clock) == (w', clock')
    ensures w' == w.(stream := w'.stream, base := w.base.(winningOutcome := Some(r.result)), past := w.past + [w.base],
                     executor := Submitted(id, true, Some(hash)))
    ensures Shows(w'.stream, 6, Some(r.attestationId), true)
  {
    hide Drain, Shows, RowOf;
    var save := [SaveExecutor(Submitted(id, false, None))];
    PollDrain(cfg, w, env, clock, POLL_ATTEMPTS, r.fixtureId, hash, save);
    var polled := Proc([AnnounceDual(r.fixtureId)] + [CheckMarket(hash)] + save, true, None);
    assert polled.todo[1..] == [CheckMarket(hash)] + save;
    var w1 := AnnounceRun(cfg, w, polled, env, clock + 1, r);
    SettleStep(cfg, w1, hash, save, env, clock + 2, r);
    var w2 := Mined(w1, w1.base.(winningOutcome := Some(r.result)));
    var settled := Proc([Emit(R.ConsumerSettled(hash), false)] + save, true, Some(hash));
    var w3, p3 := EmitStep(cfg, w2, settled, env, clock + 4, 5, Some(r.attestationId), false);
    assert p3 == Proc(save, true, Some(hash)) && save[1..] == [];
    DrainStep(cfg, w3, p3, env, clock + 5);
    w', clock' := w3.(executor := Submitted(id, true, Some(hash))), clock + 6;
    Finishes(cfg, w', p3.(todo := []), env, clock');
  }

  lemma LiveSubmit(cfg: Config, w: World, built: Built, res: Level4Result, r: Level3Report, i: TickInput,
                   env: nat -> Moment, clock: nat)
    returns (w': World, clock': nat)
    requires cfg.executorLive && cfg.settleMarket && Current(env) && Shows(w.stream, 4, None, false)
    requires TrySubmit(cfg.d, w.base, res.vaaBytes).Ok? && FinalWith(TrySubmit(cfg.d, w.base, res.vaaBytes).value, r)
    requires built.outcome.fixtureId == r.fixtureId && cfg.d.marketFixture == r.fixtureId
    requires TrySubmit(cfg.d, w.base, res.vaaBytes).value.winningOutcome == None
    ensures Drain(cfg, w, Started(Submit(cfg, built, res, i)), env, clock) == (w', clock')
    ensures var next := TrySubmit(cfg.d, w.base, res.vaaBytes).value;
            w' == w.(stream := w'.stream, base := next.(winningOutcome := Some(r.result)),
                     past := w.past + [w.base] + [next],
                     executor := Submitted(res.attestationId, true, Some(i.settleTxHash)))
    ensures Shows(w'.stream, 6, Some(r.attestationId), true)
  {
    hide Drain, Shows, TrySubmit, FinalWith;
    var p := Started(Submit(cfg, built, res, i));
    var save := [SaveExecutor(Submitted(res.attestationId, false, None))];
    SendStep(cfg, w, p, env, clock, res.vaaBytes);
    var w1, p1 := Mined(w, TrySubmit(cfg.d, w.base, res.vaaBytes).value), p.(todo := p.todo[1..]);
    var w2, p2 := EmitStep(cfg, w1, p1, env, clock + 1, 4, None, false);
    var w3, p3 := EmitStep(cfg, w2, p2, env, clock + 2, 4, None, false);
    assert p3.todo == [PollRegistry(POLL_ATTEMPTS, r.fixtureId, i.settleTxHash)] + save;
    w', clock' := FinalizeLive(cfg, w3, r, res.attestationId, i.settleTxHash, env, clock + 3);
  }

  lemma LiveExecutorRun(cfg: Config, w: World, r: Level3Report, inputs: nat -> TickInput, env: nat -> Moment,
                        clock: nat, max: nat)
    returns (w': World, clock': nat)
    requires cfg.executorLive && cfg.settleMarket && Current(env) && max >= 1 && Shows(w.stream, 2, None, false)
    requires CanDeliver(cfg, inputs(1).vaaSource)
    requires w.handoff == Some(HandoffOf(cfg)) && w.executor.NotSubmitted?
    requires var v := Delivered(cfg, inputs(1).vaaSource).vaaBytes;
             && TrySubmit(cfg.d, w.base, v).Ok? && FinalWith(TrySubmit(cfg.d, w.base, v).value, r)
             && TrySubmit(cfg.d, w.base, v).value.winningOutcome == None
    requires FixtureNumber(cfg) == Some(r.fixtureId) && cfg.d.marketFixture == r.fixtureId
    ensures Cron(cfg, Executor, w, inputs, env, clock, 1, max) == (w', clock')
    ensures var res := Delivered(cfg, inputs(1).vaaSource);
            var next := TrySubmit(cfg.d, w.base, res.vaaBytes).value;
            w' == w.(stream := w'.stream, base := next.(winningOutcome := Some(r.result)),
                     past := w.past + [w.base] + [next],
                     executor := Submitted(res.attestationId, true, Some(inputs(1).settleTxHash)))
    ensures Shows(w'.stream, 6, Some(r.attestationId), true)
  {
    hide Drain, Shows, TrySubmit, FinalWith, Cron, Tick, Level4, Level4Build, Submit, HandoffOf, FindFinal,
         FixtureNumber;
    var i, h := inputs(1), HandoffOf(cfg);
    var w1, clock1, built, res := ReadyRun(cfg, w, h, i, env, clock);
    BuiltFixture(cfg, h, Final(cfg.fixture));
    w', clock' := LiveSubmit(cfg, w1, built, res, r, i, env, clock1);
    OneTick(cfg, w, h, inputs, env, clock, max);
  }

  // -------------------------------------------------------------------------
  // The whole run
  // -------------------------------------------------------------------------

  lemma MarketStays(d: Deployment, base: Base, r: Level3Report, v: bytes)
    requires TryOnReport(base, true, r).Ok? && TrySubmit(d, TryOnReport(base, true, r).value, v).Ok?
    ensures TrySubmit(d, TryOnReport(base, true, r).value, v).value.winningOutcome == base.winningOutcome
  {
    hide TrySubmit, TryPut;
    StoreLeavesMarket(d, TryOnReport(base, true, r).value, v);
  }

  /** A LIVE RUN COMPLETES: without a crash, with replicas that are up to date, ticks enough, a provider
      quorum and an open market of the fixture, the run against fresh contracts ends with the fixture
      DualFinalized on chain under one id and one outcome, the market settled with its result, both state
      files saying so, and the room showing all six steps done, that id announced and no failure. */
  lemma LiveRunCompletes(cfg: Config, base: Base, env: nat -> Moment, dispatch: nat -> TickInput,
                         attestor: nat -> TickInput, executor: nat -> TickInput,
                         maxDispatch: nat, maxAttestor: nat, maxExecutor: nat)
    requires CanGoLive(cfg, base, executor(1).vaaSource) && Current(env)
    requires cfg.settleMarket && cfg.d.marketFixture == Report(cfg).fixtureId && base.winningOutcome == None
    requires maxDispatch >= 1 && maxDispatch >= 1 + ReadyAfter(cfg) && maxAttestor >= 1 && maxExecutor >= 1
    requires forall t: nat :: dispatch(t).tick == t
    requires |set k | 0 <= k < |attestor(1).providers| && attestor(1).providers[k].agreed| >= cfg.quorum
    ensures var r := Report(cfg);
            var w := Rehearse(cfg, base, env, dispatch, attestor, executor, maxDispatch, maxAttestor, maxExecutor);
            var room := R.Fold(R.InitialState(), w.stream);
            && FinalWith(w.base, r) && w.base.winningOutcome == Some(r.result) && w.accepted == [r]
            && w.base.winningOutcome.Some?
            && Payload.NamesWinner(w.base.winningOutcome.value, Final(cfg.fixture).participant1Score,
                                   Final(cfg.fixture).participant2Score)
            && w.dispatch == Staged && w.attestor == Reported(r.attestationId)
            && w.executor == Submitted(r.attestationId, true, Some(executor(1).settleTxHash))
            && room.steps == R.Checklist(6) && room.failure == None && room.finality == R.DualFinalized
            && room.attestationId == Some(r.attestationId) && room.settledTxHash.Some?
  {
    hide *;
    var source := executor(1).vaaSource;
    AgreedCountIs(attestor(1).providers);
    GoLive(cfg, base, source);
    var h, r := HandoffOf(cfg), Report(cfg);
    LiveFacts(cfg, base, source);
    Blank(base);
    var w1, t1 := DispatchRun(cfg, Beginning(base).w, dispatch, env, 0, 1, maxDispatch);
    StartsWith(base);
    var w2, t2 := LiveAttestorRun(cfg, w1, h, attestor, env, t1, maxAttestor, 2);
    MarketStays(cfg.d, base, r, Delivered(cfg, source).vaaBytes);
    var w3, t3 := LiveExecutorRun(cfg, w2, r, executor, env, t2, maxExecutor);
    Composed(cfg, base, env, dispatch, attestor, executor, maxDispatch, maxAttestor, maxExecutor, w1, t1, w2, t2, w3,
             t3);
    SettledRow(TrySubmit(cfg.d, w2.base, Delivered(cfg, source).vaaBytes).value, r);
    RoomOf(w3.stream, r.attestationId);
    ReportSays(cfg, base, source);
  }

  /** The report is about the final record's scores and its winner. */
  lemma ReportSays(cfg: Config, base: Base, source: VaaSource)
    requires CanGoLive(cfg, base, source)
    ensures Payload.NamesWinner(Report(cfg).result, Final(cfg.fixture).participant1Score,
                                Final(cfg.fixture).participant2Score)
  {
    hide Level3, Level4, Final, Writable, HandoffOf, Payload.NamesWinner, Untouched, WellAddressed;
    var _, _ := Deliveries.Level3Says(cfg.setup, cfg.fixture, HandoffOf(cfg), true);
  }

  lemma StartsWith(base: Base)
    ensures var w := Beginning(base).w; w.base == base && w.past == [] && w.sent == [] && w.accepted == []
  {
  }

  lemma SettledRow(base: Base, r: Level3Report)
    requires FinalWith(base, r)
    ensures FinalWith(base.(winningOutcome := Some(r.result)), r)
  {
  }

  /** The same run as moves of the protocol. */
  lemma RehearsalIsRun(cfg: Config, base: Base, env: nat -> Moment, dispatch: nat -> TickInput,
                       attestor: nat -> TickInput, executor: nat -> TickInput,
                       maxDispatch: nat, maxAttestor: nat, maxExecutor: nat, prompt: bool)
    returns (moves: seq<Move>, t: System)
    requires prompt ==> Current(env)
    ensures Reaches(cfg, Beginning(base), moves, t, prompt)
    ensures t.w == Rehearse(cfg, base, env, dispatch, attestor, executor, maxDispatch, maxAttestor, maxExecutor)
    ensures t.dispatch.todo == [] && t.attestor.todo == [] && t.executor.todo == []
  {
    hide Reaches, Cron;
    var s := Beginning(base);
    var t1 := Cron(cfg, Dispatch, s.w, dispatch, env, 0, 1, maxDispatch).1;
    var m1, s1 := CronIsRun(cfg, s, Dispatch, dispatch, env, 0, 1, maxDispatch, prompt);
    assert s1.Of(Attestor) == s.Of(Attestor);
    var t2 := Cron(cfg, Attestor, s1.w, attestor, env, t1, 1, maxAttestor).1;
    var m2, s2 := CronIsRun(cfg, s1, Attestor, attestor, env, t1, 1, maxAttestor, prompt);
    assert s2.Of(Executor) == s.Of(Executor);
    var m3;
    m3, t := CronIsRun(cfg, s2, Executor, executor, env, t2, 1, maxExecutor, prompt);
    assert t.Of(Executor) == t.executor && s1.Of(Dispatch) == s1.dispatch && s2.Of(Attestor) == s2.attestor;
    Follow(cfg, s, m1, s1, m2, s2, prompt);
    Follow(cfg, s, m1 + m2, s2, m3, t, prompt);
    moves := m1 + m2 + m3;
  }

  // -------------------------------------------------------------------------
  // The windows lie on its way
  // -------------------------------------------------------------------------

  function Ticking(providers: seq<Answer>, source: VaaSource): nat -> TickInput
  {
    (t: nat) => QuietInput(providers).(tick := t, vaaSource := source)
  }

  function Now(): nat -> Moment { (k: nat) => Moment(0, 0) }

  /** A live run up to the handoff. */
  lemma UpToHandoff(cfg: Config, base: Base, source: VaaSource) returns (moves: seq<Move>, t: System)
    requires CanGoLive(cfg, base, source)
    ensures Reaches(cfg, Beginning(base), moves, t, true)
    ensures t.attestor.todo == [] && t.executor.todo == [] && t.w.handoff == Some(HandoffOf(cfg))
    ensures t.w.attestor.NotReported? && t.w.executor.NotSubmitted?
    ensures t.w.base == base && t.w.past == [] && t.w.accepted == []
    ensures Shows(t.w.stream, 2, None, false)
  {
    hide *;
    GoLive(cfg, base, source);
    LiveFacts(cfg, base, source);
    Blank(base);
    StartsIdle(base);
    NowIsCurrent();
    TickingTicks([], source);
    var max := TicksToStage(cfg);
    var w, clock := DispatchRun(cfg, Beginning(base).w, Ticking([], source), Now(), 0, 1, max);
    StartsWith(base);
    moves, t := CronIsRun(cfg, Beginning(base), Dispatch, Ticking([], source), Now(), 0, 1, max, true);
    WithWorld(Beginning(base), Dispatch, w, t.Of(Dispatch));
    OnlyDispatch(Beginning(base), t);
  }

  lemma StartsIdle(base: Base)
    ensures var s := Beginning(base); s.Of(Dispatch).todo == [] && s.attestor.todo == [] && s.executor.todo == []
  {
  }

  lemma OnlyDispatch(s: System, t: System)
    requires t == s.With(Dispatch, t.w, t.Of(Dispatch))
    ensures t.attestor == s.attestor && t.executor == s.executor
  {
  }

  lemma NowIsCurrent()
    ensures Current(Now())
  {
  }

  lemma TickingTicks(providers: seq<Answer>, source: VaaSource)
    ensures forall t: nat :: Ticking(providers, source)(t).tick == t
    ensures Ticking(providers, source)(1).providers == providers
  {
  }

  function TicksToStage(cfg: Config): (n: nat)
    ensures n >= 1 && n >= 1 + ReadyAfter(cfg)
  {
    if ReadyAfter(cfg) > 0 then 1 + ReadyAfter(cfg) else 1
  }

  /** ... and on until the attestor said "reported". */
  lemma UpToReported(cfg: Config, base: Base, source: VaaSource) returns (moves: seq<Move>, t: System)
    requires CanGoLive(cfg, base, source)
    ensures Reaches(cfg, Beginning(base), moves, t, true) && TryOnReport(base, true, Report(cfg)).Ok?
    ensures t.executor.todo == [] && t.w.handoff == Some(HandoffOf(cfg)) && t.w.executor.NotSubmitted?
    ensures t.w.base == TryOnReport(base, true, Report(cfg)).value && t.w.attestor.Reported?
  {
    hide *;
    var m1, s1 := UpToHandoff(cfg, base, source);
    GoLive(cfg, base, source);
    LiveFacts(cfg, base, source);
    var inputs := Ticking(Agreeing(cfg.quorum), source);
    NowIsCurrent();
    TickingTicks(Agreeing(cfg.quorum), source);
    AgreeingCount(cfg.quorum);
    var w, clock := LiveAttestorRun(cfg, s1.w, HandoffOf(cfg), inputs, Now(), 0, 1, 2);
    IdleAttestor(s1);
    var m2;
    m2, t := CronIsRun(cfg, s1, Attestor, inputs, Now(), 0, 1, 1, true);
    WithWorld(s1, Attestor, w, t.Of(Attestor));
    OnlyAttestor(s1, t);
    Follow(cfg, Beginning(base), m1, s1, m2, t, true);
    moves := m1 + m2;
  }

  lemma WithWorld(s: System, who: Who, w: World, p: Proc)
    ensures s.With(who, w, p).w == w
  {
  }

  lemma IdleAttestor(s: System)
    requires s.attestor.todo == []
    ensures s.Of(Attestor).todo == []
  {
  }

  lemma OnlyAttestor(s: System, t: System)
    requires t == s.With(Attestor, t.w, t.Of(Attestor))
    ensures t.executor == s.executor
  {
  }

  /** The receiver has the report, the attestor does not say so and nothing it still does could. */
  ghost predicate ReportLost(cfg: Config, s: System)
    requires FindFinal(cfg.fixture.records).Some? && Level3(cfg.setup, cfg.fixture, HandoffOf(cfg), true).Ok?
  {
    s.w.accepted == [Report(cfg)] && s.w.attestor.NotReported? && !Holds(SaveRule, s.attestor.todo)
  }

  /** Base refuses every message, the executor does not say "submitted" and nothing it still does could. */
  ghost predicate SubmissionLost(cfg: Config, s: System) {
    Denied(cfg, s.w) && s.w.executor.NotSubmitted? && !Holds(SubmitRule, s.executor.todo)
  }

  /** The last event announces dual finality, live, with the zero id. */
  predicate EndsInZeroId(s: System) {
    && s.w.stream != [] && LiveDual(s.w.stream[|s.w.stream| - 1])
    && s.w.stream[|s.w.stream| - 1].event.attestationId == seq(32, k => 0)
  }

  lemma CrashIsFree(cfg: Config, s: System, who: Who)
    ensures Allowed(Crash(who)) && Prompt(s, Crash(who))
  {
  }

  lemma QuietSource(source: VaaSource) returns (i: TickInput)
    ensures i.vaaSource == source
  {
    i := QuietInput([]).(vaaSource := source);
  }

  /** THE WINDOWS HAPPEN, wherever the lanes can go live. A prompt run from the beginning ends right after
      the receiver took the report, with the attestor crashed before it said so. */
  lemma ReportWindow(cfg: Config, base: Base, source: VaaSource) returns (moves: seq<Move>, t: System)
    requires CanGoLive(cfg, base, source)
    ensures FindFinal(cfg.fixture.records).Some? && Level3(cfg.setup, cfg.fixture, HandoffOf(cfg), true).Ok?
    ensures Reaches(cfg, Beginning(base), moves, t, true) && ReportLost(cfg, t)
  {
    hide *;
    GoLive(cfg, base, source);
    LiveFacts(cfg, base, source);
    var m1, s1 := UpToHandoff(cfg, base, source);
    var i := QuietInput(Agreeing(cfg.quorum));
    EnoughAgree(cfg, i);
    var m2, s2 := AcceptedBeforeSaved(cfg, s1, i, Report(cfg));
    Follow(cfg, Beginning(base), m1, s1, m2, s2, true);
    CrashIsFree(cfg, s2, Attestor);
    OneMove(cfg, s2, Crash(Attestor), true);
    t := Next(cfg, s2, Crash(Attestor));
    Follow(cfg, Beginning(base), m1 + m2, s2, [Crash(Attestor)], t, true);
    moves := m1 + m2 + [Crash(Attestor)];
    IsReportLost(cfg, t);
  }

  lemma IsReportLost(cfg: Config, s: System)
    requires FindFinal(cfg.fixture.records).Some? && Level3(cfg.setup, cfg.fixture, HandoffOf(cfg), true).Ok?
    requires s.w.accepted == [Report(cfg)] && s.w.attestor.NotReported? && !Holds(SaveRule, s.attestor.todo)
    ensures ReportLost(cfg, s)
  {
    hide Level3, HandoffOf, Holds, FindFinal, Report;
  }

  /** Another one ends right after Base took the message, with the executor crashed before it said so. */
  lemma SubmitWindow(cfg: Config, base: Base, source: VaaSource) returns (moves: seq<Move>, t: System)
    requires CanGoLive(cfg, base, source)
    ensures Reaches(cfg, Beginning(base), moves, t, true) && SubmissionLost(cfg, t)
  {
    hide *;
    GoLive(cfg, base, source);
    LiveFacts(cfg, base, source);
    var m1, s1 := UpToHandoff(cfg, base, source);
    var i := QuietSource(source);
    var m2, s2 := AcceptedBeforeSubmitted(cfg, s1, i);
    Follow(cfg, Beginning(base), m1, s1, m2, s2, true);
    CrashIsFree(cfg, s2, Executor);
    OneMove(cfg, s2, Crash(Executor), true);
    t := Next(cfg, s2, Crash(Executor));
    Follow(cfg, Beginning(base), m1 + m2, s2, [Crash(Executor)], t, true);
    moves := m1 + m2 + [Crash(Executor)];
    IsSubmissionLost(cfg, t);
  }

  lemma IsSubmissionLost(cfg: Config, s: System)
    requires Denied(cfg, s.w) && s.w.executor.NotSubmitted? && !Holds(SubmitRule, s.executor.todo)
    ensures SubmissionLost(cfg, s)
  {
    hide Denied, Holds;
  }

  /** A third one announces the zero id: with both lanes delivered, the replica of the last read was one
      transaction behind. */
  lemma ZeroWindow(cfg: Config, base: Base, source: VaaSource) returns (moves: seq<Move>, t: System)
    requires CanGoLive(cfg, base, source)
    ensures Reaches(cfg, Beginning(base), moves, t, true) && EndsInZeroId(t)
  {
    hide *;
    GoLive(cfg, base, source);
    LiveFacts(cfg, base, source);
    var m1, s1 := UpToReported(cfg, base, source);
    var i := QuietSource(source);
    FinalStatus(TrySubmit(cfg.d, s1.w.base, Delivered(cfg, source).vaaBytes).value, Report(cfg));
    var m2;
    m2, t := ZeroIdAnnounced(cfg, s1, i);
    Follow(cfg, Beginning(base), m1, s1, m2, t, true);
    moves := m1 + m2;
    IsZeroId(t);
  }

  lemma IsZeroId(s: System)
    requires s.w.stream != [] && LiveDual(s.w.stream[|s.w.stream| - 1])
    requires s.w.stream[|s.w.stream| - 1].event.attestationId == seq(32, k => 0)
    ensures EndsInZeroId(s)
  {
  }

  lemma FinalStatus(base: Base, r: Level3Report)
    requires FinalWith(base, r)
    ensures RowOf(base.registry, r.fixtureId).status == DualFinalized
  {
    hide RowOf;
  }
}
