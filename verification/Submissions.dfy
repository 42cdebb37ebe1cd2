/** The executor's side of a crash between a transaction and its state file: after Base took the message,
    whether the workflow still gets to "submitted" and announces (workflows/cre-vaa-executor/main.ts). */
module Submissions {
  import opened Bytes
  import opened BaseContracts
  import opened Lanes
  import opened Progress
  import opened Restarts
  import opened WorkflowRuns
  import opened WorkflowSafety
  import opened Workflows
  import PB = ProofBuffer
  import Payload
  import Quorum
  import R = Reducer
  import Vaas

  /** The market to settle, if there is one, is the fixture's. */
  predicate MarketMatches(cfg: Config) { cfg.settleMarket ==> FixtureNumber(cfg) == Some(cfg.d.marketFixture) }

  /** A message the executor accepts for this fixture and its handoff, whichever source it came from. */
  ghost predicate IsVaa(cfg: Config, vaaBytes: bytes) {
    && FindFinal(cfg.fixture.records).Some?
    && exists source: VaaSource ::
      && Level4(cfg.setup, cfg.fixture, HandoffOf(cfg), source).Ok?
      && Level4(cfg.setup, cfg.fixture, HandoffOf(cfg), source).value.vaaBytes == vaaBytes
  }

  // -------------------------------------------------------------------------
  // What a live executor's tick looks like on the way
  // -------------------------------------------------------------------------

  /** The message is behind it, and it ends by saving "submitted". */
  predicate Ready(todo: seq<Action>) {
    && todo != [] && todo[|todo| - 1].SaveExecutor? && todo[|todo| - 1].executor.Submitted?
    && forall a <- todo :: !a.SendVaa?
  }

  predicate Shaped(todo: seq<Action>)
    decreases |todo|
  {
    todo == [] || Ready(todo) ||
    (!Needs(SubmitRule, todo[0]) && if todo[0].SendVaa? then Ready(todo[1..]) else Shaped(todo[1..]))
  }

  predicate MarketDual(cfg: Config, w: World) { IsDual(w, cfg.d.marketFixture) }

  /** Some state of Base, current or earlier, that the market could be settled in. */
  ghost predicate SettlesSomewhere(d: Deployment, w: World) { exists b <- w.past + [w.base] :: TrySettle(d, b).Ok? }

  ghost predicate ExecFits(cfg: Config, w: World, a: Action) {
    match a
    case SendVaa(v) => IsVaa(cfg, v)
    case SaveExecutor(s) => s.Submitted? && s.settleTxHash == None
    case PollRegistry(_, f, _) => FixtureNumber(cfg) == Some(f)
    case CheckMarket(_) => MarketDual(cfg, w)
    case SendSettle(_) => SettlesSomewhere(cfg.d, w)
    case Reconcile(_, _, _) => false
    case _ => true
  }

  /** A market that is settled now and was not once was settled in between. */
  ghost predicate SettleHistory(d: Deployment, w: World) {
    w.base.winningOutcome.Some? && (exists b <- w.past :: b.winningOutcome == None) ==>
      exists b <- w.past :: TrySettle(d, b).Ok?
  }

  ghost predicate AllExecFit(cfg: Config, w: World, todo: seq<Action>) { forall a <- todo :: ExecFits(cfg, w, a) }

  ghost predicate ExecInv(cfg: Config, s: System) {
    SettleHistory(cfg.d, s.w) && AllExecFit(cfg, s.w, s.executor.todo) && Shaped(s.executor.todo)
  }

  // -------------------------------------------------------------------------
  // One transaction
  // -------------------------------------------------------------------------

  /** Base as it was, or one transaction further. */
  ghost predicate OneTx(d: Deployment, w: World, next: World) {
    || (next.base == w.base && next.past == w.past)
    || (next.past == w.past + [w.base] && exists tx :: next.base == AfterTx(d, w.base, tx))
  }

  lemma OnlySettleSettles(d: Deployment, b: Base, tx: Tx)
    ensures AfterTx(d, b, tx).winningOutcome != b.winningOutcome ==> TrySettle(d, b).Ok?
  {
    hide TryPut, RowOf, TryStore;
    if tx.SubmitVaa? { SubmitConsumes(d, b, tx.vaaBytes); StoreLeavesMarket(d, b, tx.vaaBytes); }
  }

  lemma StoreLeavesMarket(d: Deployment, b: Base, vaaBytes: bytes)
    ensures TrySubmit(d, b, vaaBytes).Ok? ==> TrySubmit(d, b, vaaBytes).value.winningOutcome == b.winningOutcome
  {
    hide TryPut, TrySubmit, WellAddressed, FixtureOf, StoredAs;
    SubmitConsumes(d, b, vaaBytes);
  }

  lemma TxKeepsHistory(d: Deployment, w: World, next: World)
    requires SettleHistory(d, w) && OneTx(d, w, next)
    ensures SettleHistory(d, next)
    ensures SettlesSomewhere(d, w) ==> SettlesSomewhere(d, next)
  {
    hide TrySettle, AfterTx;
    if next.past == w.past + [w.base] {
      var tx :| next.base == AfterTx(d, w.base, tx);
      OnlySettleSettles(d, w.base, tx);
      assert w.base in next.past && forall b <- w.past :: b in next.past;
    }
    if SettlesSomewhere(d, w) {
      var b :| b in w.past + [w.base] && TrySettle(d, b).Ok?;
      assert b in next.past + [next.base];
    }
  }

  lemma DoIsOneTx(cfg: Config, w: World, p: Proc, m: Moment)
    requires p.todo != []
    ensures OneTx(cfg.d, w, Do(cfg, w, p, m).0)
  {
    hide TryOnReport, TrySubmit, TrySettle, RowOf, Seen, PB.AfterInit, PB.TryAppend, PB.TrySeal, ReadLevel4Id;
    var next := Do(cfg, w, p, m).0;
    match p.todo[0]
    case SendReport(r) =>
      if TryOnReport(w.base, true, r).Ok? { AcceptedIs(cfg.d, w.base, r); }
    case SendVaa(v) => SubmittedIs(cfg.d, w.base, v);
    case SendSettle(_) =>
      assert AfterTx(cfg.d, w.base, Settle) == match TrySettle(cfg.d, w.base) case Ok(b) => b case Err(_) => w.base;
    case _ =>
  }

  lemma ExecFitsLater(cfg: Config, w: World, next: World, todo: seq<Action>)
    requires SettleHistory(cfg.d, w) && OneTx(cfg.d, w, next) && Evolves(w, next) && AllExecFit(cfg, w, todo)
    ensures SettleHistory(cfg.d, next) && AllExecFit(cfg, next, todo)
  {
    hide SettleHistory, OneTx, IsVaa, IsDual, SettlesSomewhere, FixtureNumber, Evolves;
    TxKeepsHistory(cfg.d, w, next);
    forall a <- todo
      ensures ExecFits(cfg, next, a)
    {
      assert ExecFits(cfg, w, a);
      if a.CheckMarket? { DualStays(w, next, cfg.d.marketFixture); }
    }
  }

  // -------------------------------------------------------------------------
  // One action of the executor
  // -------------------------------------------------------------------------

  lemma ShapedPrefix(a: seq<Action>, b: seq<Action>)
    requires (forall x <- a :: !Needs(SubmitRule, x) && !x.SendVaa?) && Shaped(b)
    ensures Shaped(a + b)
    decreases |a|
  {
    if a == [] { assert a + b == b; } else { assert (a + b)[1..] == a[1..] + b; ShapedPrefix(a[1..], b); }
  }

  lemma ReadyRest(todo: seq<Action>)
    requires Ready(todo)
    ensures |todo| == 1 ==> todo[0].SaveExecutor?
    ensures |todo| > 1 ==> Ready(todo[1..])
  {
  }

  /** A market found open can be settled in some state. */
  lemma OpenSettles(cfg: Config, w: World, m: Moment)
    requires SettleHistory(cfg.d, w) && MarketDual(cfg, w) && Seen(w, m).winningOutcome == None
    ensures SettlesSomewhere(cfg.d, w)
  {
    if w.base.winningOutcome == None {
      assert w.base in w.past + [w.base] && TrySettle(cfg.d, w.base).Ok?;
    } else {
      assert Seen(w, m) in w.past;
      var b :| b in w.past && TrySettle(cfg.d, b).Ok?;
      assert b in w.past + [w.base];
    }
  }

  lemma DoKeepsShape(cfg: Config, w: World, p: Proc, m: Moment)
    requires p.todo != [] && Shaped(p.todo) && !p.todo[0].Reconcile?
    ensures Shaped(Do(cfg, w, p, m).1.todo)
    ensures Ready(p.todo) && Do(cfg, w, p, m).1.todo != [] ==> Ready(Do(cfg, w, p, m).1.todo)
  {
    hide TryOnReport, TrySubmit, TrySettle, RowOf, Seen, PB.AfterInit, PB.TryAppend, PB.TrySeal, ReadLevel4Id, Ready,
         Append;
    var a, rest := p.todo[0], p.todo[1..];
    if Ready(p.todo) {
      ReadyRest(p.todo);
      if |p.todo| > 1 {
        DoShape(cfg, w, p, m);
      }
    }
  }

  /** What one action leaves: the rest, nothing, or a few actions that send no message and the rest. */
  lemma DoShape(cfg: Config, w: World, p: Proc, m: Moment)
    requires |p.todo| > 1 && !p.todo[0].Reconcile? && Ready(p.todo[1..])
    ensures var todo := Do(cfg, w, p, m).1.todo; todo == [] || Ready(todo)
  {
    hide TryOnReport, TrySubmit, TrySettle, RowOf, Seen, PB.AfterInit, PB.TryAppend, PB.TrySeal, ReadLevel4Id, Append;
  }

  lemma DoKeepsExecFit(cfg: Config, w: World, p: Proc, m: Moment)
    requires p.todo != [] && History(cfg.d, w) && SettleHistory(cfg.d, w)
    requires AllExecFit(cfg, w, p.todo) && MarketMatches(cfg)
    requires Evolves(w, Do(cfg, w, p, m).0)
    ensures SettleHistory(cfg.d, Do(cfg, w, p, m).0) && AllExecFit(cfg, Do(cfg, w, p, m).0, Do(cfg, w, p, m).1.todo)
  {
    hide TryOnReport, TrySubmit, TrySettle, RowOf, Seen, PB.AfterInit, PB.TryAppend, PB.TrySeal, ReadLevel4Id, Append,
         History, SettleHistory, SettlesSomewhere, IsVaa, FixtureNumber, Evolves, OneTx, IsDual;
    var a, rest, next := p.todo[0], p.todo[1..], Do(cfg, w, p, m).0;
    assert ExecFits(cfg, w, a);
    DoIsOneTx(cfg, w, p, m);
    ExecFitsLater(cfg, w, next, rest);
    match a
    case PollRegistry(_, f, hash) =>
      if RowOf(Seen(w, m).registry, f).status == DualFinalized { PolledDual(cfg, w, m, f); }
    case CheckMarket(_) =>
      if Seen(w, m).winningOutcome == None { OpenSettles(cfg, w, m); }
    case _ =>
  }

  // -------------------------------------------------------------------------
  // One tick
  // -------------------------------------------------------------------------

  lemma Level4Of(cfg: Config, h: Handoff, r: ScoreRecord, built: Built, source: VaaSource, res: Level4Result)
    requires IsHandoff(cfg, h) && Level4Checked(cfg.setup, cfg.fixture, h) == Ok(r)
    requires Level4Build(cfg.setup, cfg.fixture, h, r) == Ok(built) && FetchVaa(cfg.setup, source, built).Ok?
    requires Level4Accept(cfg.setup, built, FetchVaa(cfg.setup, source, built).value) == Ok(res)
    ensures IsVaa(cfg, res.vaaBytes)
  {
    hide Level4Checked, Level4Build, FetchVaa, HandoffOf, FindFinal, Level4Accept;
    assert Level4(cfg.setup, cfg.fixture, HandoffOf(cfg), source) == Ok(res);
  }

  lemma FailureShaped(cfg: Config, w: World, stage: string, e: LaneError, i: TickInput)
    ensures AllExecFit(cfg, w, Failure(stage, e, i)) && Shaped(Failure(stage, e, i))
  {
    hide Announced;
    ShapedPrefix(Failure(stage, e, i), []);
    assert Failure(stage, e, i) + [] == Failure(stage, e, i);
  }

  lemma SubmitShaped(cfg: Config, w: World, built: Built, res: Level4Result, i: TickInput)
    requires cfg.executorLive && IsVaa(cfg, res.vaaBytes) && FixtureNumber(cfg) == Some(built.outcome.fixtureId)
    ensures AllExecFit(cfg, w, Submit(cfg, built, res, i)) && Shaped(Submit(cfg, built, res, i))
  {
    hide IsVaa, FixtureNumber;
    assert Ready(Submit(cfg, built, res, i)[1..]);
  }

  lemma Prefixed(cfg: Config, w: World, e: R.Event, simulated: bool, rest: seq<Action>)
    requires AllExecFit(cfg, w, rest) && Shaped(rest)
    ensures AllExecFit(cfg, w, [Emit(e, simulated)] + rest) && Shaped([Emit(e, simulated)] + rest)
  {
    hide ExecFits;
    ShapedPrefix([Emit(e, simulated)], rest);
    assert ExecFits(cfg, w, Emit(e, simulated)) by { EmitFits(cfg, w, e, simulated); }
  }

  lemma EmitFits(cfg: Config, w: World, e: R.Event, simulated: bool)
    ensures ExecFits(cfg, w, Emit(e, simulated))
  {
  }

  lemma NothingShaped(cfg: Config, w: World)
    ensures AllExecFit(cfg, w, []) && Shaped([])
  {
  }

  lemma PublishedShaped(cfg: Config, w: World, h: Handoff, r: ScoreRecord, built: Built, i: TickInput)
    requires cfg.executorLive && IsHandoff(cfg, h) && h.wormhole.Some?
    requires Level4Checked(cfg.setup, cfg.fixture, h) == Ok(r) && Level4Build(cfg.setup, cfg.fixture, h, r) == Ok(built)
    ensures AllExecFit(cfg, w, Published(cfg, h, built, i)) && Shaped(Published(cfg, h, built, i))
  {
    hide Level4Checked, Level4Build, FetchVaa, Level4Accept, IsHandoff, Submit, Failure, AllExecFit, Shaped,
         SignerIndices, IsVaa;
    NothingShaped(cfg, w);
    BuiltFixture(cfg, h, r);
    var fetched := FetchVaa(cfg.setup, i.vaaSource, built);
    if fetched.Ok? {
      var accept := Level4Accept(cfg.setup, built, fetched.value);
      if accept.Ok? {
        Level4Of(cfg, h, r, built, i.vaaSource, accept.value);
        SubmitShaped(cfg, w, built, accept.value, i);
        var ready := R.VaaReady(cfg.setup.c.keccak(fetched.value), SignerIndices(accept.value.vaa.signatures));
        Prefixed(cfg, w, ready, true, Submit(cfg, built, accept.value, i));
      } else {
        FailureShaped(cfg, w, EXECUTOR_STAGE, accept.error, i);
      }
    }
    Prefixed(cfg, w, R.WormholeMessagePublished(h.wormhole.value.emitterBase58, h.wormhole.value.sequence), true,
             Published(cfg, h, built, i)[1..]);
    assert Published(cfg, h, built, i) ==
           [Emit(R.WormholeMessagePublished(h.wormhole.value.emitterBase58, h.wormhole.value.sequence), true)] +
           Published(cfg, h, built, i)[1..];
  }

  lemma ExecuteShaped(cfg: Config, w: World, h: Handoff, i: TickInput)
    requires cfg.executorLive && IsHandoff(cfg, h)
    ensures AllExecFit(cfg, w, Execute(cfg, h, i)) && Shaped(Execute(cfg, h, i))
  {
    hide Level4Checked, Level4Build, IsHandoff, Published, Failure, AllExecFit, Shaped;
    NothingShaped(cfg, w);
    var checked := Level4Checked(cfg.setup, cfg.fixture, h);
    if checked.Err? {
      FailureShaped(cfg, w, EXECUTOR_STAGE, checked.error, i);
    } else {
      if h.wormhole.Some? {
        var built := Level4Build(cfg.setup, cfg.fixture, h, checked.value);
        if built.Ok? { PublishedShaped(cfg, w, h, checked.value, built.value, i); }
        else { FailureShaped(cfg, w, EXECUTOR_STAGE, built.error, i); }
      }
      Prefixed(cfg, w, R.TxlineCpiVerified(i.slot), true, Execute(cfg, h, i)[1..]);
      assert Execute(cfg, h, i) == [Emit(R.TxlineCpiVerified(i.slot), true)] + Execute(cfg, h, i)[1..];
    }
  }

  lemma ResumeShaped(cfg: Config, w: World, i: TickInput)
    requires w.executor.Submitted? && w.handoff.Some? && IsHandoff(cfg, w.handoff.value)
    ensures AllExecFit(cfg, w, Resume(cfg, w, i)) && Shaped(Resume(cfg, w, i))
  {
    HandoffFixture(cfg, w.handoff.value);
    hide IsVaa, IsHandoff;
    if Resume(cfg, w, i) != [] { assert Ready(Resume(cfg, w, i)); }
  }

  lemma TickShaped(cfg: Config, w: World, i: TickInput)
    requires cfg.executorLive && WorldInv(cfg, w)
    ensures AllExecFit(cfg, w, ExecutorTick(cfg, w, i)) && Shaped(ExecutorTick(cfg, w, i))
  {
    hide Execute, Resume, History, Reports, Truthful, Derived, DerivedId, IsHandoff, AllExecFit, Shaped;
    NothingShaped(cfg, w);
    if w.executor.Submitted? { ResumeShaped(cfg, w, i); }
    else if w.handoff.Some? { ExecuteShaped(cfg, w, w.handoff.value, i); }
    Prefixed(cfg, w, R.Event.Heartbeat(i.now, i.nextAt), false, ExecutorTick(cfg, w, i)[1..]);
    assert ExecutorTick(cfg, w, i) == [Emit(R.Event.Heartbeat(i.now, i.nextAt), false)] + ExecutorTick(cfg, w, i)[1..];
  }

  // -------------------------------------------------------------------------
  // Every run
  // -------------------------------------------------------------------------

  lemma NextIsOneTx(cfg: Config, s: System, m: Move)
    ensures OneTx(cfg.d, s.w, Next(cfg, s, m).w)
  {
    hide Do, Tick, AfterTx, OneTx;
    if m.Advance? && s.Of(m.who).todo != [] { DoIsOneTx(cfg, s.w, s.Of(m.who), m.moment); }
    else if m.Outside? { MinedIsOneTx(cfg.d, s.w, m.tx); }
    else { SameIsOneTx(cfg.d, s.w); }
  }

  lemma MinedIsOneTx(d: Deployment, w: World, tx: Tx)
    ensures OneTx(d, w, Mined(w, AfterTx(d, w.base, tx)))
  {
    hide AfterTx;
  }

  lemma SameIsOneTx(d: Deployment, w: World)
    ensures OneTx(d, w, w)
  {
  }

  lemma NextKeepsExec(cfg: Config, s: System, m: Move)
    requires cfg.executorLive && MarketMatches(cfg) && SafetyInv(cfg, s)
    requires ExecInv(cfg, s) && Allowed(m)
    ensures ExecInv(cfg, Next(cfg, s, m))
  {
    hide WorldInv, Tick, Do, AfterTx, Evolves, Guarded, Allowed, Mined, Shaped, AllExecFit, SettleHistory, OneTx,
         AllFit;
    var next := Next(cfg, s, m);
    NextKeepsSafety(cfg, s, m);
    NextIsOneTx(cfg, s, m);
    WorldHistory(cfg, s.w);
    NothingShaped(cfg, next.w);
    ExecFitsLater(cfg, s.w, next.w, s.executor.todo);
    if !m.Outside? && m.who == Executor {
      assert s.Of(Executor) == s.executor;
      if m.Start? {
        TickShaped(cfg, s.w, m.input);
        assert Tick(cfg, Executor, s.w, m.input) == ExecutorTick(cfg, s.w, m.input) by { TickOf(cfg, s.w, m.input); }
      } else if m.Advance? && s.executor.todo != [] {
        DoKeepsExecFit(cfg, s.w, s.executor, m.moment);
        NoReconcile(cfg, s.w, s.executor.todo);
        DoKeepsShape(cfg, s.w, s.executor, m.moment);
      }
    }
  }

  lemma TickOf(cfg: Config, w: World, i: TickInput)
    ensures Tick(cfg, Executor, w, i) == ExecutorTick(cfg, w, i)
  {
    hide ExecutorTick;
  }

  lemma NoReconcile(cfg: Config, w: World, todo: seq<Action>)
    requires todo != [] && AllExecFit(cfg, w, todo)
    ensures !todo[0].Reconcile?
  {
    assert ExecFits(cfg, w, todo[0]);
  }

  lemma {:induction false} RunKeepsExec(cfg: Config, s: System, moves: seq<Move>)
    requires cfg.executorLive && MarketMatches(cfg) && SafetyInv(cfg, s) && ExecInv(cfg, s)
    requires AllAllowed(moves)
    ensures SafetyInv(cfg, Run(cfg, s, moves)) && ExecInv(cfg, Run(cfg, s, moves))
    decreases |moves|
  {
    hide SafetyInv, ExecInv, Next, Allowed;
    if moves != [] {
      var init := moves[..|moves| - 1];
      assert forall m <- init :: m in moves;
      RunKeepsExec(cfg, s, init);
      NextKeepsSafety(cfg, Run(cfg, s, init), moves[|moves| - 1]);
      NextKeepsExec(cfg, Run(cfg, s, init), moves[|moves| - 1]);
    }
  }

  lemma BeginningExec(cfg: Config, base: Base)
    ensures ExecInv(cfg, Beginning(base))
  {
  }

  // -------------------------------------------------------------------------
  // Once the message is refused
  // -------------------------------------------------------------------------

  /** Base takes this fixture's message no more: it has it, from whoever sent it, or the fixture is
      frozen or final. */
  ghost predicate Denied(cfg: Config, w: World) { forall v :: IsVaa(cfg, v) ==> TrySubmit(cfg.d, w.base, v).Err? }

  lemma DeniedStays(cfg: Config, w: World, next: World)
    requires Denied(cfg, w) && Evolves(w, next)
    ensures Denied(cfg, next)
  {
    hide TrySubmit, IsVaa, Advances;
    forall v | IsVaa(cfg, v)
      ensures TrySubmit(cfg.d, next.base, v).Err?
    {
      MessageRefusedLater(cfg.d, w.base, next.base, v);
    }
  }

  ghost predicate Lost(cfg: Config, s: System) {
    && cfg.executorLive && MarketMatches(cfg) && SafetyInv(cfg, s) && ExecInv(cfg, s) && Denied(cfg, s.w)
    && s.w.executor.NotSubmitted? && Guarded(SubmitRule, false, s.executor.todo)
  }

  lemma LostAdvance(cfg: Config, s: System, m: Moment)
    requires s.executor.todo != [] && AllExecFit(cfg, s.w, s.executor.todo) && Denied(cfg, s.w)
    requires s.w.executor.NotSubmitted? && Guarded(SubmitRule, false, s.executor.todo)
    requires s.executor.todo[0].SendVaa? ==> m.lag == 0
    ensures var (w', p') := Do(cfg, s.w, s.executor, m);
            w'.executor.NotSubmitted? && Guarded(SubmitRule, false, p'.todo)
  {
    hide TryOnReport, TrySubmit, TrySettle, RowOf, IsVaa, FixtureNumber, PB.AfterInit, PB.TryAppend, PB.TrySeal,
         MarketDual,
         SettlesSomewhere, ReadLevel4Id;
    assert ExecFits(cfg, s.w, s.executor.todo[0]);
  }

  lemma OthersDoNotSubmit(cfg: Config, s: System, who: Who, m: Moment)
    requires SafetyInv(cfg, s) && who != Executor && s.Of(who).todo != []
    ensures Do(cfg, s.w, s.Of(who), m).0.executor == s.w.executor
  {
    hide TryOnReport, TrySubmit, TrySettle, RowOf, Derived, DerivedId, FixtureNumber, IsHandoff, WorldInv, Seen,
         PB.AfterInit, PB.TryAppend, PB.TrySeal, ReadLevel4Id;
    assert AllFit(cfg, s.w, who, s.Of(who).todo);
    assert Fits(cfg, s.w, who, s.Of(who).todo[0]);
  }

  /** A live executor that says nothing yet has to send before it saves. */
  lemma TickGuarded(cfg: Config, w: World, i: TickInput)
    requires cfg.executorLive && w.executor.NotSubmitted?
    ensures Guarded(SubmitRule, false, ExecutorTick(cfg, w, i))
  {
    hide Execute;
    assert Guarded(SubmitRule, false, []);
    if w.handoff.Some? { ExecuteGuarded(cfg, w.handoff.value, i); }
    var rest := ExecutorTick(cfg, w, i)[1..];
    assert ExecutorTick(cfg, w, i) == Heartbeat(i) + rest;
    GuardedFree(SubmitRule, false, Heartbeat(i), rest);
  }

  lemma ExecuteGuarded(cfg: Config, h: Handoff, i: TickInput)
    requires cfg.executorLive
    ensures Guarded(SubmitRule, false, Execute(cfg, h, i))
  {
    hide Level4Checked, Level4Build, Published, Announced;
    var todo := Execute(cfg, h, i);
    var checked := Level4Checked(cfg.setup, cfg.fixture, h);
    if checked.Ok? && h.wormhole.Some? && Level4Build(cfg.setup, cfg.fixture, h, checked.value).Ok? {
      var built := Level4Build(cfg.setup, cfg.fixture, h, checked.value).value;
      PublishedGuarded(cfg, h, built, i);
      GuardedFree(SubmitRule, false, [todo[0]], Published(cfg, h, built, i));
    } else {
      GuardedWhole(SubmitRule, false, todo);
    }
  }

  lemma PublishedGuarded(cfg: Config, h: Handoff, built: Built, i: TickInput)
    requires cfg.executorLive && h.wormhole.Some?
    ensures Guarded(SubmitRule, false, Published(cfg, h, built, i))
  {
    hide FetchVaa, Level4Accept, Announced, SignerIndices;
    var todo := Published(cfg, h, built, i);
    var fetched := FetchVaa(cfg.setup, i.vaaSource, built);
    if fetched.Ok? && Level4Accept(cfg.setup, built, fetched.value).Ok? {
      var res := Level4Accept(cfg.setup, built, fetched.value).value;
      var submit := Submit(cfg, built, res, i);
      assert submit[0].SendVaa?;
      OpenIsGuarded(SubmitRule, submit[1..]);
      GuardedFree(SubmitRule, false, todo[..2], submit);
      assert todo == todo[..2] + submit;
    } else {
      GuardedWhole(SubmitRule, false, todo);
    }
  }

  /** One more move: still not submitted, and nothing announced. */
  lemma LostNext(cfg: Config, s: System, m: Move)
    requires Lost(cfg, s) && Allowed(m) && Prompt(s, m)
    ensures Lost(cfg, Next(cfg, s, m))
    ensures |Next(cfg, s, m).w.stream| > |s.w.stream| ==> !LiveDual(Next(cfg, s, m).w.stream[|s.w.stream|])
  {
    hide SafetyInv, ExecInv, Tick, Do, AfterTx, Guarded, Evolves, Denied, LiveDual;
    NextKeepsSafety(cfg, s, m);
    NextKeepsExec(cfg, s, m);
    DeniedStays(cfg, s.w, Next(cfg, s, m).w);
    StreamStep(cfg, s, m);
    if |Next(cfg, s, m).w.stream| > |s.w.stream| && LiveDual(Next(cfg, s, m).w.stream[|s.w.stream|]) {
      AnnounceStep(cfg, s, m);
      NotGuarded(s.executor.todo);
    }
    assert Guarded(SubmitRule, false, []) by { GuardedWhole(SubmitRule, false, []); }
    if m.Advance? && s.Of(m.who).todo != [] {
      if m.who == Executor {
        ExecParts(cfg, s);
        LostAdvance(cfg, s, m.moment);
      } else {
        OthersDoNotSubmit(cfg, s, m.who, m.moment);
      }
    } else if m.Start? && m.who == Executor {
      TickOf(cfg, s.w, m.input);
      TickGuarded(cfg, s.w, m.input);
    }
  }

  lemma NotGuarded(todo: seq<Action>)
    requires todo != [] && todo[0].AnnounceDual?
    ensures !Guarded(SubmitRule, false, todo)
  {
  }

  lemma ExecParts(cfg: Config, s: System)
    requires ExecInv(cfg, s)
    ensures AllExecFit(cfg, s.w, s.executor.todo) && Shaped(s.executor.todo)
  {
  }

  lemma {:induction false} LostForever(cfg: Config, s: System, moves: seq<Move>)
    requires Lost(cfg, s) && AllAllowed(moves) && PromptRun(cfg, s, moves)
    ensures Lost(cfg, Run(cfg, s, moves)) && s.w.stream <= Run(cfg, s, moves).w.stream
    ensures forall k | |s.w.stream| <= k < |Run(cfg, s, moves).w.stream| :: !LiveDual(Run(cfg, s, moves).w.stream[k])
    decreases |moves|
  {
    hide Lost, Next, Allowed, Prompt, LiveDual;
    if moves != [] {
      var init := moves[..|moves| - 1];
      assert forall m <- init :: m in moves;
      LostForever(cfg, s, init);
      LostNext(cfg, Run(cfg, s, init), moves[|moves| - 1]);
      StreamStep(cfg, Run(cfg, s, init), moves[|moves| - 1]);
    }
  }

  // -------------------------------------------------------------------------
  // Getting there
  // -------------------------------------------------------------------------

  /** A moment in which this action does not throw. */
  lemma GoodMoment(cfg: Config, w: World, a: Action) returns (m: Moment)
    requires ExecFits(cfg, w, a)
    ensures a.SendSettle? ==> TrySettle(cfg.d, Seen(w, m)).Ok?
    ensures a.SendVaa? || a.SendReport? ==> m.lag == 0
  {
    hide TrySettle;
    m := Moment(0, 0);
    if a.SendSettle? {
      var b :| b in w.past + [w.base] && TrySettle(cfg.d, b).Ok?;
      if b in w.past { m := SeesPast(w, b); }
    }
  }

  lemma ReadyStep(cfg: Config, w: World, p: Proc, m: Moment)
    requires Ready(p.todo) && ExecFits(cfg, w, p.todo[0]) && Fits(cfg, w, Executor, p.todo[0])
    requires p.todo[0].SendSettle? ==> TrySettle(cfg.d, Seen(w, m)).Ok?
    ensures p.todo[0].SaveExecutor? ==> Do(cfg, w, p, m).0.executor.Submitted?
    ensures !p.todo[0].SaveExecutor? ==> Ready(Do(cfg, w, p, m).1.todo)
  {
    hide TryOnReport, TrySubmit, TrySettle, RowOf, Seen, PB.AfterInit, PB.TryAppend, PB.TrySeal, ReadLevel4Id, Append,
         IsVaa,
         FixtureNumber, IsDual, SettlesSomewhere, Derived, DerivedId, IsHandoff;
    var a := p.todo[0];
    ReadyRest(p.todo);
    assert !a.SendVaa?;
  }

  lemma {:induction false} ReachSubmitted(cfg: Config, s: System) returns (moves: seq<Move>, t: System)
    requires cfg.executorLive && MarketMatches(cfg) && SafetyInv(cfg, s) && ExecInv(cfg, s) && Ready(s.executor.todo)
    ensures Reaches(cfg, s, moves, t, true) && t.w.executor.Submitted?
    decreases Weight(s.executor.todo)
  {
    hide Reaches, SafetyInv, ExecInv, Do, Weight, Ready;
    ReadyNotEmpty(s.executor.todo);
    var a := s.executor.todo[0];
    ExecParts(cfg, s);
    HeadParts(cfg, s);
    var m := GoodMoment(cfg, s.w, a);
    var next := StepAt(cfg, s, m);
    ReadyStep(cfg, s.w, s.executor, m);
    if a.SaveExecutor? {
      moves, t := [Advance(Executor, m)], next;
    } else {
      DoDecreases(cfg, s.w, s.executor, m);
      NextKeepsSafety(cfg, s, Advance(Executor, m));
      NextKeepsExec(cfg, s, Advance(Executor, m));
      var rest;
      rest, t := ReachSubmitted(cfg, next);
      moves := [Advance(Executor, m)] + rest;
      Follow(cfg, s, [Advance(Executor, m)], next, rest, t, true);
    }
  }

  lemma ReadyNotEmpty(todo: seq<Action>)
    requires Ready(todo)
    ensures todo != []
  {
  }

  lemma HeadParts(cfg: Config, s: System)
    requires SafetyInv(cfg, s) && ExecInv(cfg, s) && s.executor.todo != []
    ensures ExecFits(cfg, s.w, s.executor.todo[0]) && Fits(cfg, s.w, Executor, s.executor.todo[0])
  {
    hide WorldInv, SettleHistory, Shaped, ExecFits, Fits;
    assert AllFit(cfg, s.w, Executor, s.Of(Executor).todo);
  }

  /** The next action, estimated on the current state if it sends something. */
  lemma StepAt(cfg: Config, s: System, m: Moment) returns (t: System)
    requires s.executor.todo != [] && (s.executor.todo[0].SendVaa? || s.executor.todo[0].SendReport? ==> m.lag == 0)
    ensures var (w', p') := Do(cfg, s.w, s.executor, m);
            t == s.(w := w', executor := p') && t == Next(cfg, s, Advance(Executor, m))
    ensures Reaches(cfg, s, [Advance(Executor, m)], t, true)
  {
    hide Do;
    t := Next(cfg, s, Advance(Executor, m));
    OneMove(cfg, s, Advance(Executor, m), true);
  }

  lemma UnguardedIsReady(todo: seq<Action>)
    requires Shaped(todo) && !Guarded(SubmitRule, false, todo)
    ensures Ready(todo)
    decreases |todo|
  {
    if todo != [] && !Ready(todo) {
      OpenIsGuarded(SubmitRule, todo[1..]);
      UnguardedIsReady(todo[1..]);
    }
  }

  /** Some continuation with prompt sends ends with "submitted". */
  ghost predicate CanSubmit(cfg: Config, s: System) {
    exists after ::
      && AllAllowed(after) && PromptRun(cfg, s, after)
      && Run(cfg, s, after).w.executor.Submitted?
  }

  /** Some continuation with prompt sends announces dual finality live. */
  ghost predicate CanAnnounce(cfg: Config, s: System) {
    exists after, k | |s.w.stream| <= k < |Run(cfg, s, after).w.stream| ::
      AllAllowed(after) && PromptRun(cfg, s, after) && LiveDual(Run(cfg, s, after).w.stream[k])
  }

  /** AFTER THE MESSAGE GOT IN, from this executor or from anyone who had the public bytes: a live
      executor that has not said "submitted" ever says so exactly if its running tick sent already and
      still holds its save; otherwise it never announces dual finality either. */
  lemma SubmittedReachableIff(cfg: Config, base: Base, before: seq<Move>)
    requires BaseContracts.Inv(cfg.d, base) && AllAllowed(before)
    requires cfg.executorLive && MarketMatches(cfg)
    requires var w := Run(cfg, Beginning(base), before).w; w.executor.NotSubmitted? && Denied(cfg, w)
    ensures var s := Run(cfg, Beginning(base), before);
            && (CanSubmit(cfg, s) <==> Holds(SubmitRule, s.executor.todo))
            && (!Holds(SubmitRule, s.executor.todo) ==> !CanAnnounce(cfg, s))
  {
    hide Run, SafetyInv, ExecInv, Guarded, Denied, Holds, PromptRun, Allowed, LiveDual, MarketMatches,
         Ready;
    BeginningIsSafe(cfg, base);
    BeginningExec(cfg, base);
    RunKeepsExec(cfg, Beginning(base), before);
    var s := Run(cfg, Beginning(base), before);
    HoldsIff(SubmitRule, s.executor.todo);
    if Holds(SubmitRule, s.executor.todo) {
      ExecParts(cfg, s);
      UnguardedIsReady(s.executor.todo);
      var after, t := ReachSubmitted(cfg, s);
      assert AllAllowed(after) && PromptRun(cfg, s, after);
      assert Run(cfg, s, after).w.executor.Submitted?;
    } else {
      forall after | AllAllowed(after) && PromptRun(cfg, s, after)
        ensures Run(cfg, s, after).w.executor.NotSubmitted?
        ensures forall k | |s.w.stream| <= k < |Run(cfg, s, after).w.stream| ::
                  !LiveDual(Run(cfg, s, after).w.stream[k])
      {
        LostForever(cfg, s, after);
      }
    }
  }

  // -------------------------------------------------------------------------
  // The windows are there
  // -------------------------------------------------------------------------

  predicate CanDeliver(cfg: Config, source: VaaSource) {
    FindFinal(cfg.fixture.records).Some? && Level4(cfg.setup, cfg.fixture, HandoffOf(cfg), source).Ok?
  }

  /** The id and bytes of the message this source answers with. */
  function Delivered(cfg: Config, source: VaaSource): Level4Result
    requires CanDeliver(cfg, source)
  {
    Level4(cfg.setup, cfg.fixture, HandoffOf(cfg), source).value
  }

  lemma DeliveredIsVaa(cfg: Config, source: VaaSource)
    requires CanDeliver(cfg, source)
    ensures IsVaa(cfg, Delivered(cfg, source).vaaBytes)
  {
    hide Level4, HandoffOf, FindFinal;
  }

  /** What a live tick that delivers still has to do from the send on. */
  predicate FromSend(cfg: Config, f: int, i: TickInput, todo: seq<Action>)
    requires CanDeliver(cfg, i.vaaSource)
  {
    && |todo| == 5 && todo[0] == SendVaa(Delivered(cfg, i.vaaSource).vaaBytes) && todo[1].Emit? && todo[2].Emit?
    && todo[3] == PollRegistry(POLL_ATTEMPTS, f, i.settleTxHash)
    && todo[4] == SaveExecutor(Submitted(Delivered(cfg, i.vaaSource).attestationId, false, None))
  }

  lemma LiveList(cfg: Config, w: World, i: TickInput) returns (f: int)
    requires cfg.executorLive && CanDeliver(cfg, i.vaaSource)
    requires w.executor.NotSubmitted? && w.handoff == Some(HandoffOf(cfg))
    ensures FixtureNumber(cfg) == Some(f)
    ensures var todo := ExecutorTick(cfg, w, i);
            |todo| == 9 && (forall k | 0 <= k < 4 :: todo[k].Emit?) && FromSend(cfg, f, i, todo[4..])
  {
    hide Level4, Level4Checked, Level4Build, FetchVaa, Level4Accept, Announced, HandoffOf, FindFinal, SignerIndices,
         FixtureNumber;
    var h := HandoffOf(cfg);
    Level4Steps(cfg.setup, cfg.fixture, h, i.vaaSource);
    BuiltFixture(cfg, h, Final(cfg.fixture));
    f := Level4Build(cfg.setup, cfg.fixture, h, Final(cfg.fixture)).value.outcome.fixtureId;
  }

  /** An idle live executor up to its send. */
  lemma UpToSubmit(cfg: Config, s: System, i: TickInput) returns (moves: seq<Move>, t: System, f: int)
    requires cfg.executorLive && CanDeliver(cfg, i.vaaSource)
    requires s.executor.todo == [] && s.w.executor.NotSubmitted? && s.w.handoff == Some(HandoffOf(cfg))
    ensures Reaches(cfg, s, moves, t, true) && FixtureNumber(cfg) == Some(f)
    ensures t == s.(w := s.w.(stream := t.w.stream), executor := Started(t.executor.todo))
    ensures FromSend(cfg, f, i, t.executor.todo)
  {
    hide Reaches, ExecutorTick, CanDeliver, FromSend, HandoffOf, FixtureNumber;
    var begun := Next(cfg, s, Start(Executor, i));
    OneMove(cfg, s, Start(Executor, i), true);
    f := LiveList(cfg, s.w, i);
    assert begun.Of(Executor) == Started(ExecutorTick(cfg, s.w, i));
    var events;
    events, t := PerformEvents(cfg, begun, Executor, 4, Moment(0, 0));
    Follow(cfg, s, [Start(Executor, i)], begun, events, t, true);
    moves := [Start(Executor, i)] + events;
  }

  /** Whatever the source, an accepted message carries the payload that was built. */
  lemma CarriesBuilt(cfg: Config, v: bytes) returns (payload: bytes)
    requires IsVaa(cfg, v)
    ensures Vaas.Decode(v).Ok? && Vaas.Decode(v).value.body.payload == payload && payload == BuiltPayload(cfg)
  {
    hide Level4, Level4Build, FetchVaa, Level4Checked, HandoffOf, FindFinal, Vaas.Decode, Payload.Decode,
         Quorum.HasQuorum;
    var source: VaaSource :|
      && Level4(cfg.setup, cfg.fixture, HandoffOf(cfg), source).Ok?
      && Level4(cfg.setup, cfg.fixture, HandoffOf(cfg), source).value.vaaBytes == v;
    Level4Steps(cfg.setup, cfg.fixture, HandoffOf(cfg), source);
    payload := BuiltPayload(cfg);
  }

  /** The payload the executor built from the fixture and its handoff. */
  function BuiltPayload(cfg: Config): bytes
    requires FindFinal(cfg.fixture.records).Some?
  {
    var h := HandoffOf(cfg);
    if h.wormhole.Some? && Level4Build(cfg.setup, cfg.fixture, h, Final(cfg.fixture)).Ok?
    then Level4Build(cfg.setup, cfg.fixture, h, Final(cfg.fixture)).value.payload else []
  }

  /** ONE MESSAGE PER FIXTURE: once Base took one message the executor can accept for this fixture, it
      refuses every other one from then on, whatever the sources answer. */
  lemma TakenIsDenied(cfg: Config, w: World, next: World, v: bytes)
    requires IsVaa(cfg, v) && TrySubmit(cfg.d, w.base, v).Ok?
    requires Advances(TrySubmit(cfg.d, w.base, v).value, next.base)
    ensures Denied(cfg, next)
  {
    hide TrySubmit, IsVaa, Advances, Vaas.Decode;
    var payload := CarriesBuilt(cfg, v);
    forall other | IsVaa(cfg, other)
      ensures TrySubmit(cfg.d, next.base, other).Err?
    {
      var same := CarriesBuilt(cfg, other);
      SamePayloadRefused(cfg.d, w.base, next.base, v, other);
    }
  }

  /** Whenever the lane can deliver there is a state in which Base has the message, the state file does
      not say "submitted", and a crash leaves no tick that could say so. */
  lemma AcceptedBeforeSubmitted(cfg: Config, s: System, i: TickInput) returns (moves: seq<Move>, t: System)
    requires cfg.executorLive && CanDeliver(cfg, i.vaaSource)
    requires s.executor.todo == [] && s.w.executor.NotSubmitted? && s.w.handoff == Some(HandoffOf(cfg))
    requires TrySubmit(cfg.d, s.w.base, Delivered(cfg, i.vaaSource).vaaBytes).Ok?
    ensures Reaches(cfg, s, moves, t, true)
    ensures Denied(cfg, t.w) && t.w.executor.NotSubmitted? && Holds(SubmitRule, t.executor.todo)
    ensures var crashed := Next(cfg, t, Crash(Executor));
            Denied(cfg, crashed.w) && crashed.w.executor.NotSubmitted? && !Holds(SubmitRule, crashed.executor.todo)
  {
    hide TrySubmit, Reaches, CanDeliver, Delivered, HandoffOf, Denied, Holds, FixtureNumber, IsVaa, Advances;
    var ready, f;
    moves, ready, f := UpToSubmit(cfg, s, i);
    var m := Moment(0, 0);
    t := StepAt(cfg, ready, m);
    Follow(cfg, s, moves, ready, [Advance(Executor, m)], t, true);
    moves := moves + [Advance(Executor, m)];
    DeliveredIsVaa(cfg, i.vaaSource);
    BaseContracts.Stays(t.w.base);
    TakenIsDenied(cfg, s.w, t.w, Delivered(cfg, i.vaaSource).vaaBytes);
    AfterSend(t.executor.todo);
    TakenIsDenied(cfg, s.w, Next(cfg, t, Crash(Executor)).w, Delivered(cfg, i.vaaSource).vaaBytes);
    HoldsIff(SubmitRule, []);
  }

  lemma AfterSend(todo: seq<Action>)
    requires |todo| == 4 && todo[0].Emit? && todo[1].Emit? && todo[2].PollRegistry? && todo[3].SaveExecutor?
    ensures Holds(SubmitRule, todo)
  {
    assert Needs(SubmitRule, todo[2]) && NoneOpens(SubmitRule, todo, 2);
  }

  /** No crash is needed either: anyone may deliver the public bytes first. */
  lemma SubmittedByAnother(cfg: Config, s: System, v: bytes)
    requires s.executor.todo == [] && s.w.executor.NotSubmitted? && IsVaa(cfg, v)
    requires TrySubmit(cfg.d, s.w.base, v).Ok?
    ensures var t := Next(cfg, s, Outside(SubmitVaa(v)));
            Denied(cfg, t.w) && t.w.executor.NotSubmitted? && !Holds(SubmitRule, t.executor.todo)
  {
    hide TrySubmit, IsVaa, Denied, Holds, AfterTx;
    SubmittedIs(cfg.d, s.w.base, v);
    var t := Next(cfg, s, Outside(SubmitVaa(v)));
    BaseContracts.Stays(t.w.base);
    TakenIsDenied(cfg, s.w, t.w, v);
    HoldsIff(SubmitRule, []);
  }

  /** PROMPTNESS IS NEEDED HERE TOO: while some replica still shows a state that takes the message, its
      estimate lets a second send through; it is mined, reverts unnoticed, and the tick goes on. */
  lemma StaleSubmit(cfg: Config, base: Base, before: seq<Move>, was: Base, source: VaaSource) returns (after: seq<Move>)
    requires BaseContracts.Inv(cfg.d, base) && AllAllowed(before)
    requires cfg.executorLive && MarketMatches(cfg) && CanDeliver(cfg, source)
    requires var w := Run(cfg, Beginning(base), before).w;
             && w.executor.NotSubmitted? && w.handoff == Some(HandoffOf(cfg)) && Denied(cfg, w)
             && was in w.past && TrySubmit(cfg.d, was, Delivered(cfg, source).vaaBytes).Ok?
    ensures AllAllowed(after) && Run(cfg, Run(cfg, Beginning(base), before), after).w.executor.Submitted?
  {
    hide Run, SafetyInv, ExecInv, Reaches, PromptRun, MarketMatches, CanDeliver, Delivered, HandoffOf, TrySubmit,
         Denied,
         FixtureNumber;
    BeginningIsSafe(cfg, base);
    BeginningExec(cfg, base);
    RunKeepsExec(cfg, Beginning(base), before);
    var s := Run(cfg, Beginning(base), before);
    var idle := Next(cfg, s, Crash(Executor));
    OneMove(cfg, s, Crash(Executor), true);
    NextKeepsSafety(cfg, s, Crash(Executor));
    NextKeepsExec(cfg, s, Crash(Executor));
    var rest, t := ResendStale(cfg, idle, was, source);
    Relax(cfg, s, [Crash(Executor)], idle);
    Follow(cfg, s, [Crash(Executor)], idle, rest, t, false);
    after := [Crash(Executor)] + rest;
    Unpack(cfg, s, after, t);
  }

  lemma ResendStale(cfg: Config, s: System, was: Base, source: VaaSource) returns (moves: seq<Move>, t: System)
    requires cfg.executorLive && MarketMatches(cfg) && CanDeliver(cfg, source) && SafetyInv(cfg, s) && ExecInv(cfg, s)
    requires s.executor.todo == [] && s.w.executor.NotSubmitted? && s.w.handoff == Some(HandoffOf(cfg))
    requires was in s.w.past && TrySubmit(cfg.d, was, Delivered(cfg, source).vaaBytes).Ok?
    ensures Reaches(cfg, s, moves, t, false) && t.w.executor.Submitted?
  {
    hide Run, SafetyInv, ExecInv, Reaches, PromptRun, MarketMatches, CanDeliver, Delivered, HandoffOf, TrySubmit, Seen,
         FixtureNumber, Ready, Allowed;
    var ready, f;
    moves, ready, f := UpToSubmit(cfg, s, QuietInput([]).(vaaSource := source));
    UnpackPrompt(cfg, s, moves, ready);
    RunKeepsExec(cfg, s, moves);
    Relax(cfg, s, moves, ready);
    var m := SeesPast(s.w, was);
    SameView(s.w, ready.w, m);
    var send := Advance(Executor, m);
    var sent := Step(cfg, ready, Executor, m, false);
    assert sent == Next(cfg, ready, send) by { AdvanceIs(cfg, ready, m); }
    AdvanceIsFree(m);
    NextKeepsSafety(cfg, ready, send);
    NextKeepsExec(cfg, ready, send);
    Follow(cfg, s, moves, ready, [send], sent, false);
    assert sent.executor.todo == ready.executor.todo[1..];
    assert Ready(sent.executor.todo) by { SavesLast(sent.executor.todo); }
    var rest;
    rest, t := ReachSubmitted(cfg, sent);
    Relax(cfg, sent, rest, t);
    Follow(cfg, s, moves + [send], sent, rest, t, false);
    moves := moves + [send] + rest;
  }

  lemma SavesLast(todo: seq<Action>)
    requires |todo| == 4 && todo[0].Emit? && todo[1].Emit? && todo[2].PollRegistry?
    requires todo[3].SaveExecutor? && todo[3].executor.Submitted?
    ensures Ready(todo)
  {
  }

  lemma UnpackPrompt(cfg: Config, s: System, moves: seq<Move>, t: System)
    requires Reaches(cfg, s, moves, t, true)
    ensures AllAllowed(moves) && Run(cfg, s, moves) == t && PromptRun(cfg, s, moves)
  {
  }

  lemma AdvanceIs(cfg: Config, s: System, m: Moment)
    requires s.executor.todo != []
    ensures var (w', p') := Do(cfg, s.w, s.executor, m); Next(cfg, s, Advance(Executor, m)) == s.With(Executor, w', p')
    ensures s.Of(Executor) == s.executor
  {
    hide Do;
  }

  lemma AdvanceIsFree(m: Moment)
    ensures Allowed(Advance(Executor, m))
  {
  }

  // -------------------------------------------------------------------------
  // An announcement without an id
  // -------------------------------------------------------------------------

  /** The send and the events after it, up to the poll. */
  lemma SendThenPoll(cfg: Config, s: System, f: int, i: TickInput) returns (moves: seq<Move>, t: System)
    requires CanDeliver(cfg, i.vaaSource) && FromSend(cfg, f, i, s.executor.todo)
    requires TrySubmit(cfg.d, s.w.base, Delivered(cfg, i.vaaSource).vaaBytes).Ok?
    ensures Reaches(cfg, s, moves, t, true)
    ensures t.w.base == TrySubmit(cfg.d, s.w.base, Delivered(cfg, i.vaaSource).vaaBytes).value
    ensures t.w.past == s.w.past + [s.w.base]
    ensures |t.executor.todo| == 2 && t.executor.todo[0] == PollRegistry(POLL_ATTEMPTS, f, i.settleTxHash)
  {
    hide TrySubmit, Reaches, CanDeliver, Delivered;
    var now := Moment(0, 0);
    var sent := StepAt(cfg, s, now);
    assert sent.Of(Executor) == sent.executor && sent.executor.todo == s.executor.todo[1..];
    var events;
    events, t := PerformEvents(cfg, sent, Executor, 2, now);
    Follow(cfg, s, [Advance(Executor, now)], sent, events, t, true);
    moves := [Advance(Executor, now)] + events;
    assert t.executor.todo == sent.executor.todo[2..] && t.executor.todo[0] == s.executor.todo[3];
  }

  /** The poll sees dual finality, the read after it asks a replica one transaction behind. */
  lemma PollThenAnnounce(cfg: Config, s: System, f: int, hash: string, before: Base)
    returns (moves: seq<Move>, t: System)
    requires s.executor.todo != [] && s.executor.todo[0] == PollRegistry(POLL_ATTEMPTS, f, hash)
    requires RowOf(s.w.base.registry, f).status == DualFinalized && RowOf(before.registry, f).level4 == None
    requires s.w.past != [] && s.w.past[|s.w.past| - 1] == before
    ensures Reaches(cfg, s, moves, t, true) && t.w.base == s.w.base
    ensures t.w.stream != [] && LiveDual(t.w.stream[|t.w.stream| - 1])
    ensures t.w.stream[|t.w.stream| - 1].event.attestationId == seq(32, k => 0)
  {
    hide Reaches, RowOf;
    var now, behind := Moment(0, 0), Moment(0, 1);
    var polled := StepAt(cfg, s, now);
    assert polled.executor.todo[0] == AnnounceDual(f) && polled.w == s.w;
    assert Seen(polled.w, behind) == before;
    t := StepAt(cfg, polled, behind);
    Follow(cfg, s, [Advance(Executor, now)], polled, [Advance(Executor, behind)], t, true);
    moves := [Advance(Executor, now)] + [Advance(Executor, behind)];
  }

  /** A live run that announces the zero id: the executor's own message makes the fixture final, the
      poll sees it, and the replica of the second read is one transaction behind. */
  lemma ZeroIdAnnounced(cfg: Config, s: System, i: TickInput) returns (moves: seq<Move>, t: System)
    requires cfg.executorLive && CanDeliver(cfg, i.vaaSource)
    requires s.executor.todo == [] && s.w.executor.NotSubmitted? && s.w.handoff == Some(HandoffOf(cfg))
    requires TrySubmit(cfg.d, s.w.base, Delivered(cfg, i.vaaSource).vaaBytes).Ok? && FixtureNumber(cfg).Some?
    requires var f, v := FixtureNumber(cfg).value, Delivered(cfg, i.vaaSource).vaaBytes;
             var next := TrySubmit(cfg.d, s.w.base, v).value;
             RowOf(s.w.base.registry, f).level4 == None && RowOf(next.registry, f).status == DualFinalized
    ensures Reaches(cfg, s, moves, t, true)
    ensures t.w.base == TrySubmit(cfg.d, s.w.base, Delivered(cfg, i.vaaSource).vaaBytes).value
    ensures t.w.stream != [] && LiveDual(t.w.stream[|t.w.stream| - 1])
    ensures t.w.stream[|t.w.stream| - 1].event.attestationId == seq(32, k => 0)
  {
    hide TrySubmit, Reaches, CanDeliver, Delivered, HandoffOf, RowOf, FixtureNumber, FromSend, LiveDual;
    var ready, f;
    moves, ready, f := UpToSubmit(cfg, s, i);
    var m1, polling := SendThenPoll(cfg, ready, f, i);
    Follow(cfg, s, moves, ready, m1, polling, true);
    moves := moves + m1;
    var m2;
    m2, t := PollThenAnnounce(cfg, polling, f, i.settleTxHash, s.w.base);
    Follow(cfg, s, moves, polling, m2, t, true);
    moves := moves + m2;
  }
}
