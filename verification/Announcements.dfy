/** Whether a live executor still announces dual finality after Base took the message, in terms of the
    registry's row of the fixture (workflows/cre-vaa-executor/main.ts). */
module Announcements {
  import opened Bytes
  import opened BaseContracts
  import opened DualFinality
  import opened Lanes
  import opened Restarts
  import opened Submissions
  import opened WorkflowRuns
  import opened WorkflowSafety
  import opened Workflows
  import PB = ProofBuffer
  import R = Reducer

  // -------------------------------------------------------------------------
  // Before and after the poll
  // -------------------------------------------------------------------------

  /** Dual finality was not seen yet; the poll, if it is still to come, is followed by the save alone. */
  predicate Fresh(todo: seq<Action>) {
    forall k | 0 <= k < |todo| ::
      && !todo[k].AnnounceDual? && !todo[k].CheckMarket? && !todo[k].SendSettle?
      && (todo[k].PollRegistry? ==> k == |todo| - 2)
  }

  /** It was seen: no further poll, and the announcement is the next thing or done. */
  predicate Polled(todo: seq<Action>) {
    forall k | 0 <= k < |todo| :: !todo[k].PollRegistry? && (todo[k].AnnounceDual? ==> k == 0)
  }

  /** What the executor's local tells about what it has left to do. */
  predicate Local(p: Proc) { if p.dualFinalized then Polled(p.todo) else p.settleTxHash == None && Fresh(p.todo) }

  lemma FreshAfter(a: seq<Action>, b: seq<Action>)
    requires (forall x <- a :: x.Emit? || x.SendVaa?) && Fresh(b)
    ensures Fresh(a + b)
  {
    forall k | 0 <= k < |a + b|
      ensures var x := (a + b)[k];
              && !x.AnnounceDual? && !x.CheckMarket? && !x.SendSettle?
              && (x.PollRegistry? ==> k == |a + b| - 2)
    {
      if k < |a| { assert (a + b)[k] in a; } else { assert (a + b)[k] == b[k - |a|]; }
    }
  }

  lemma FailureFresh(stage: string, e: LaneError, i: TickInput)
    ensures Fresh(Failure(stage, e, i))
  {
    hide Announced;
  }

  lemma PublishedFresh(cfg: Config, h: Handoff, built: Built, i: TickInput)
    requires cfg.executorLive && h.wormhole.Some?
    ensures Fresh(Published(cfg, h, built, i))
  {
    hide FetchVaa, Level4Accept, Announced, SignerIndices;
  }

  lemma ExecuteFresh(cfg: Config, h: Handoff, i: TickInput)
    requires cfg.executorLive
    ensures Fresh(Execute(cfg, h, i))
  {
    hide Level4Checked, Level4Build, Published, Failure, Fresh;
    var todo, checked := Execute(cfg, h, i), Level4Checked(cfg.setup, cfg.fixture, h);
    NothingFresh();
    if checked.Err? {
      FailureFresh(EXECUTOR_STAGE, checked.error, i);
    } else {
      if h.wormhole.Some? {
        var built := Level4Build(cfg.setup, cfg.fixture, h, checked.value);
        if built.Ok? { PublishedFresh(cfg, h, built.value, i); } else { FailureFresh(EXECUTOR_STAGE, built.error, i); }
      }
      FreshAfter(todo[..1], todo[1..]);
      assert todo == todo[..1] + todo[1..];
    }
  }

  lemma NothingFresh()
    ensures Fresh([])
  {
  }

  lemma ResumeFresh(cfg: Config, w: World, i: TickInput)
    ensures Fresh(Resume(cfg, w, i))
  {
  }

  lemma TickFresh(cfg: Config, w: World, i: TickInput)
    requires cfg.executorLive
    ensures Fresh(ExecutorTick(cfg, w, i))
  {
    hide Execute, Resume, Fresh;
    NothingFresh();
    ResumeFresh(cfg, w, i);
    if w.handoff.Some? { ExecuteFresh(cfg, w.handoff.value, i); }
    var rest := ExecutorTick(cfg, w, i)[1..];
    FreshAfter(Heartbeat(i), rest);
    assert ExecutorTick(cfg, w, i) == Heartbeat(i) + rest;
  }

  lemma DoKeepsLocal(cfg: Config, w: World, p: Proc, m: Moment)
    requires p.todo != [] && Local(p) && !p.todo[0].Reconcile?
    ensures Local(Do(cfg, w, p, m).1)
    ensures p.dualFinalized && Do(cfg, w, p, m).1.todo != [] ==> Do(cfg, w, p, m).1.dualFinalized
  {
    hide TryOnReport, TrySubmit, TrySettle, RowOf, Seen, PB.AfterInit, PB.TryAppend, PB.TrySeal, ReadLevel4Id, Append;
  }

  lemma LocalNext(cfg: Config, s: System, m: Move)
    requires cfg.executorLive && ExecInv(cfg, s) && Local(s.executor)
    ensures Local(Next(cfg, s, m).executor)
  {
    hide Do, ExecutorTick, AfterTx, Local, ExecInv;
    assert Local(IDLE) by { IdleIsLocal(); }
    if !m.Outside? && m.who == Executor {
      assert s.Of(Executor) == s.executor;
      if m.Start? && s.executor.todo == [] {
        TickOf(cfg, s.w, m.input);
        StartedIsLocal(cfg, s.w, m.input);
      } else if m.Advance? && s.executor.todo != [] {
        ExecParts(cfg, s);
        NoReconcile(cfg, s.w, s.executor.todo);
        DoKeepsLocal(cfg, s.w, s.executor, m.moment);
      }
    } else {
      OthersKeepProc(cfg, s, m);
    }
  }

  lemma OthersKeepProc(cfg: Config, s: System, m: Move)
    requires m.Outside? || m.who != Executor
    ensures Next(cfg, s, m).executor == s.executor
  {
    hide Do, Tick, AfterTx;
  }

  lemma IdleIsLocal()
    ensures Local(IDLE)
  {
  }

  lemma StartedIsLocal(cfg: Config, w: World, i: TickInput)
    requires cfg.executorLive
    ensures Local(Started(ExecutorTick(cfg, w, i)))
  {
    hide ExecutorTick;
    TickFresh(cfg, w, i);
  }

  lemma {:induction false} RunKeepsLocal(cfg: Config, s: System, moves: seq<Move>)
    requires cfg.executorLive && MarketMatches(cfg) && SafetyInv(cfg, s) && ExecInv(cfg, s)
    requires AllAllowed(moves) && Local(s.executor)
    ensures Local(Run(cfg, s, moves).executor)
    decreases |moves|
  {
    hide SafetyInv, ExecInv, Next, Allowed, Local;
    if moves != [] {
      var init := moves[..|moves| - 1];
      assert forall m <- init :: m in moves;
      RunKeepsLocal(cfg, s, init);
      RunKeepsExec(cfg, s, init);
      LocalNext(cfg, Run(cfg, s, init), moves[|moves| - 1]);
    }
  }

  // -------------------------------------------------------------------------
  // Once it was announced
  // -------------------------------------------------------------------------

  /** The running tick announced already, or the one that saved "submitted" did. */
  ghost predicate Said(cfg: Config, s: System) {
    && cfg.executorLive && MarketMatches(cfg) && SafetyInv(cfg, s) && ExecInv(cfg, s) && Denied(cfg, s.w)
    && Mute(s.executor.todo)
    && if s.w.executor.Submitted?
       then s.w.executor.dualFinalized && (s.executor.dualFinalized || Unsaving(s.executor.todo))
       else s.executor.dualFinalized && s.executor.todo != []
  }

  predicate Mute(todo: seq<Action>) { forall a <- todo :: !a.PollRegistry? && !a.AnnounceDual? }

  predicate Unsaving(todo: seq<Action>) { forall a <- todo :: !a.SaveExecutor? }

  lemma SaidAdvance(cfg: Config, s: System, m: Moment)
    requires s.executor.todo != [] && Said(cfg, s) && (s.executor.todo[0].SendVaa? ==> m.lag == 0)
    ensures var (w', p') := Do(cfg, s.w, s.executor, m);
            && Mute(p'.todo)
            && if w'.executor.Submitted? then w'.executor.dualFinalized && (p'.dualFinalized || Unsaving(p'.todo))
               else p'.todo == [] || p'.dualFinalized
  {
    hide TryOnReport, TrySubmit, TrySettle, RowOf, IsVaa, FixtureNumber, PB.AfterInit, PB.TryAppend, PB.TrySeal,
         MarketDual, SettlesSomewhere, ReadLevel4Id, SafetyInv, SettleHistory, MarketMatches, Seen;
    var a, rest := s.executor.todo[0], s.executor.todo[1..];
    assert a in s.executor.todo && forall x <- rest :: x in s.executor.todo;
    assert ExecFits(cfg, s.w, a);
  }

  lemma NotMute(todo: seq<Action>)
    requires todo != [] && todo[0].AnnounceDual?
    ensures !Mute(todo)
  {
    assert todo[0] in todo;
  }

  lemma SaidTick(cfg: Config, w: World, i: TickInput)
    requires w.executor.Submitted? && w.executor.dualFinalized
    ensures Mute(ExecutorTick(cfg, w, i)) && Unsaving(ExecutorTick(cfg, w, i))
  {
  }

  lemma SaidNext(cfg: Config, s: System, m: Move)
    requires Said(cfg, s) && Allowed(m) && Prompt(s, m)
    ensures Said(cfg, Next(cfg, s, m)) || Lost(cfg, Next(cfg, s, m))
    ensures |Next(cfg, s, m).w.stream| > |s.w.stream| ==> !LiveDual(Next(cfg, s, m).w.stream[|s.w.stream|])
  {
    hide SafetyInv, ExecInv, Do, AfterTx, Guarded, Evolves, Denied, LiveDual, ExecutorTick, MarketMatches;
    var next := Next(cfg, s, m);
    NextKeepsSafety(cfg, s, m);
    NextKeepsExec(cfg, s, m);
    DeniedStays(cfg, s.w, next.w);
    StreamStep(cfg, s, m);
    if |next.w.stream| > |s.w.stream| && LiveDual(next.w.stream[|s.w.stream|]) {
      AnnounceStep(cfg, s, m);
      NotMute(s.executor.todo);
    }
    GuardedWhole(SubmitRule, false, []);
    if m.Outside? || m.who != Executor {
      OthersKeepProc(cfg, s, m);
      OthersKeepFile(cfg, s, m);
    } else if m.Advance? && s.executor.todo != [] {
      assert s.Of(Executor) == s.executor;
      SaidAdvance(cfg, s, m.moment);
    } else if m.Start? {
      TickOf(cfg, s.w, m.input);
      if s.w.executor.Submitted? { SaidTick(cfg, s.w, m.input); }
    }
  }

  lemma OthersKeepFile(cfg: Config, s: System, m: Move)
    requires SafetyInv(cfg, s) && (m.Outside? || m.who != Executor)
    ensures Next(cfg, s, m).w.executor == s.w.executor
  {
    hide SafetyInv, Do, Tick, AfterTx;
    if m.Advance? && s.Of(m.who).todo != [] { OthersDoNotSubmit(cfg, s, m.who, m.moment); }
  }

  lemma {:induction false} SaidForever(cfg: Config, s: System, moves: seq<Move>)
    requires (Said(cfg, s) || Lost(cfg, s)) && AllAllowed(moves) && PromptRun(cfg, s, moves)
    ensures Said(cfg, Run(cfg, s, moves)) || Lost(cfg, Run(cfg, s, moves))
    ensures s.w.stream <= Run(cfg, s, moves).w.stream
    ensures forall k | |s.w.stream| <= k < |Run(cfg, s, moves).w.stream| :: !LiveDual(Run(cfg, s, moves).w.stream[k])
    decreases |moves|
  {
    hide Said, Lost, Next, Allowed, Prompt, LiveDual;
    if moves != [] {
      var init := moves[..|moves| - 1];
      var before, m := Run(cfg, s, init), moves[|moves| - 1];
      assert forall x <- init :: x in moves;
      SaidForever(cfg, s, init);
      if Said(cfg, before) { SaidNext(cfg, before, m); } else { LostNext(cfg, before, m); }
      StreamStep(cfg, before, m);
    }
  }

  // -------------------------------------------------------------------------
  // An announcement follows a final row
  // -------------------------------------------------------------------------

  /** Some continuation with prompt sends makes the registry's row of the fixture DualFinalized. */
  ghost predicate CanBeFinal(cfg: Config, s: System) {
    exists after ::
      && AllAllowed(after) && PromptRun(cfg, s, after)
      && FixtureNumber(cfg).Some? && IsDual(Run(cfg, s, after).w, FixtureNumber(cfg).value)
  }

  lemma {:induction false} FinalBefore(cfg: Config, s: System, moves: seq<Move>, k: nat)
    requires SafetyInv(cfg, s) && AllAllowed(moves) && PromptRun(cfg, s, moves)
    requires |s.w.stream| <= k < |Run(cfg, s, moves).w.stream| && LiveDual(Run(cfg, s, moves).w.stream[k])
    ensures CanBeFinal(cfg, s)
    decreases |moves|
  {
    hide SafetyInv, Next, Allowed, Prompt, LiveDual, RowOf;
    var init := moves[..|moves| - 1];
    var before, m := Run(cfg, s, init), moves[|moves| - 1];
    assert forall x <- init :: x in moves;
    StreamStep(cfg, before, m);
    if k < |before.w.stream| {
      FinalBefore(cfg, s, init, k);
    } else {
      RunIsSafe(cfg, s, init);
      AnnounceStep(cfg, before, m);
    }
  }

  // -------------------------------------------------------------------------
  // The same run without the executor
  // -------------------------------------------------------------------------

  predicate Others(m: Move) { m.Outside? || m.who != Executor }

  function WithoutExecutor(moves: seq<Move>): seq<Move>
  {
    if moves == [] then []
    else
      WithoutExecutor(moves[..|moves| - 1]) +
      (if Others(moves[|moves| - 1]) then [moves[|moves| - 1]] else [])
  }

  /** Equal but for the executor, the stream, the market and what replicas may show. */
  predicate Twins(a: System, b: System) {
    && a.dispatch == b.dispatch && a.attestor == b.attestor && a.w.buffers == b.w.buffers
    && a.w.dispatch == b.w.dispatch && a.w.handoff == b.w.handoff && a.w.attestor == b.w.attestor
    && a.w.level3Report == b.w.level3Report && SameButMarket(a.w.base, b.w.base)
  }

  predicate SameButMarket(a: Base, b: Base) { a == b.(winningOutcome := a.winningOutcome) }

  lemma ReportIgnoresMarket(a: Base, b: Base, fromForwarder: bool, r: Level3Report)
    requires SameButMarket(a, b)
    ensures TryOnReport(a, fromForwarder, r).Ok? <==> TryOnReport(b, fromForwarder, r).Ok?
    ensures TryOnReport(a, fromForwarder, r).Ok? ==>
              SameButMarket(TryOnReport(a, fromForwarder, r).value, TryOnReport(b, fromForwarder, r).value)
  {
    hide TryPut;
  }

  lemma SubmitIgnoresMarket(d: Deployment, a: Base, b: Base, v: bytes)
    requires SameButMarket(a, b)
    ensures TrySubmit(d, a, v).Ok? <==> TrySubmit(d, b, v).Ok?
    ensures TrySubmit(d, a, v).Ok? ==> SameButMarket(TrySubmit(d, a, v).value, TrySubmit(d, b, v).value)
  {
    hide TrySubmit, TryPut, WellAddressed, FixtureOf, StoredAs;
    SubmitConsumes(d, a, v);
    SubmitConsumes(d, b, v);
  }

  lemma SettleIsMarket(d: Deployment, b: Base)
    ensures TrySettle(d, b).Ok? ==> SameButMarket(b, TrySettle(d, b).value)
  {
    hide RowOf;
  }

  lemma TxIgnoresMarket(d: Deployment, a: Base, b: Base, tx: Tx)
    requires SameButMarket(a, b)
    ensures SameButMarket(AfterTx(d, a, tx), AfterTx(d, b, tx))
  {
    hide TryOnReport, TrySubmit, TrySettle;
    match tx
    case OnReport(fromForwarder, r) => ReportIgnoresMarket(a, b, fromForwarder, r);
    case SubmitVaa(v) => SubmitIgnoresMarket(d, a, b, v);
    case Settle =>
      SettleIsMarket(d, a);
      SettleIsMarket(d, b);
  }

  lemma TwinsTick(cfg: Config, who: Who, a: World, b: World, i: TickInput)
    requires who != Executor && a.dispatch == b.dispatch && a.handoff == b.handoff && a.attestor == b.attestor
    ensures Tick(cfg, who, a, i) == Tick(cfg, who, b, i)
  {
    hide Stage, Attest, FindFinal, ExecutorTick;
  }

  /** An action of the dispatch workflow or the attestor does the same in both worlds. */
  lemma TwinsDo(cfg: Config, a: World, b: World, p: Proc, m: Moment, who: Who)
    requires p.todo != [] && who != Executor && Fits(cfg, a, who, p.todo[0]) && (p.todo[0].SendReport? ==> m.lag == 0)
    requires a.buffers == b.buffers && SameButMarket(a.base, b.base)
    requires a.dispatch == b.dispatch && a.handoff == b.handoff && a.attestor == b.attestor
    requires a.level3Report == b.level3Report
    ensures var (a', p') := Do(cfg, a, p, m);
            var (b', q') := Do(cfg, b, p, m);
            && p' == q' && a'.buffers == b'.buffers && SameButMarket(a'.base, b'.base)
            && a'.dispatch == b'.dispatch && a'.handoff == b'.handoff && a'.attestor == b'.attestor
            && a'.level3Report == b'.level3Report && b'.executor == b.executor
  {
    hide TryOnReport, TrySubmit, TrySettle, RowOf, PB.AfterInit, PB.TryAppend, PB.TrySeal, ReadLevel4Id, Append,
         SameButMarket, Derived, DerivedId, IsHandoff, FixtureNumber, IsDual, ReportedId;
    if p.todo[0].SendReport? { ReportIgnoresMarket(a.base, b.base, true, p.todo[0].report); }
    if p.todo[0].Emit? { AppendOnlyStream(a, p.todo[0].event, p.todo[0].simulated, m); }
    if p.todo[0].Emit? { AppendOnlyStream(b, p.todo[0].event, p.todo[0].simulated, m); }
  }

  lemma AppendOnlyStream(w: World, e: R.Event, simulated: bool, m: Moment)
    ensures Append(w, e, simulated, m) == w.(stream := Append(w, e, simulated, m).stream)
  {
  }

  lemma TwinsNext(cfg: Config, a: System, b: System, m: Move)
    requires SafetyInv(cfg, a) && Twins(a, b) && Others(m) && Prompt(a, m)
    ensures Twins(Next(cfg, a, m), Next(cfg, b, m)) && Prompt(b, m)
    ensures Next(cfg, b, m).executor == b.executor && Next(cfg, b, m).w.executor == b.w.executor
  {
    hide SafetyInv, Do, Tick, AfterTx, SameButMarket;
    if m.Outside? {
      TxIgnoresMarket(cfg.d, a.w.base, b.w.base, m.tx);
    } else if m.Start? {
      TwinsTick(cfg, m.who, a.w, b.w, m.input);
    } else if m.Advance? && a.Of(m.who).todo != [] {
      HeadFits(cfg, a, m.who);
      TwinsDo(cfg, a.w, b.w, a.Of(m.who), m.moment, m.who);
    }
  }

  /** With Base refusing the message, the executor changes nothing its twin has. */
  lemma ExecutorDo(cfg: Config, w: World, p: Proc, m: Moment)
    requires p.todo != [] && Fits(cfg, w, Executor, p.todo[0]) && ExecFits(cfg, w, p.todo[0]) && Denied(cfg, w)
    requires p.todo[0].SendVaa? ==> m.lag == 0
    ensures var next := Do(cfg, w, p, m).0;
            && next.buffers == w.buffers && SameButMarket(next.base, w.base) && next.dispatch == w.dispatch
            && next.handoff == w.handoff && next.attestor == w.attestor && next.level3Report == w.level3Report
  {
    hide TryOnReport, TrySubmit, TrySettle, RowOf, PB.AfterInit, PB.TryAppend, PB.TrySeal, ReadLevel4Id, Derived,
         DerivedId, IsHandoff, FixtureNumber, IsDual, ReportedId, IsVaa, MarketDual, SettlesSomewhere;
    SettleIsMarket(cfg.d, w.base);
  }

  lemma ExecutorMove(cfg: Config, a: System, b: System, m: Move)
    requires SafetyInv(cfg, a) && ExecInv(cfg, a) && Denied(cfg, a.w) && Twins(a, b) && !Others(m) && Prompt(a, m)
    ensures Twins(Next(cfg, a, m), b)
  {
    hide SafetyInv, ExecInv, Do, Tick, Denied, ExecFits, Fits;
    if m.Advance? && a.executor.todo != [] {
      assert a.Of(Executor) == a.executor;
      HeadParts(cfg, a);
      ExecutorDo(cfg, a.w, a.executor, m.moment);
    }
  }

  lemma {:induction false} RunKeepsDenied(cfg: Config, s: System, moves: seq<Move>)
    requires SafetyInv(cfg, s) && Denied(cfg, s.w) && AllAllowed(moves)
    ensures Denied(cfg, Run(cfg, s, moves).w)
    decreases |moves|
  {
    hide SafetyInv, Next, Allowed, Denied, Evolves;
    if moves != [] {
      var init := moves[..|moves| - 1];
      assert forall m <- init :: m in moves;
      RunKeepsDenied(cfg, s, init);
      RunIsSafe(cfg, s, init);
      NextKeepsSafety(cfg, Run(cfg, s, init), moves[|moves| - 1]);
      DeniedStays(cfg, Run(cfg, s, init).w, Run(cfg, s, moves).w);
    }
  }

  lemma {:induction false} RunWithout(cfg: Config, s: System, moves: seq<Move>)
    requires cfg.executorLive && MarketMatches(cfg) && SafetyInv(cfg, s) && ExecInv(cfg, s) && Denied(cfg, s.w)
    requires AllAllowed(moves) && PromptRun(cfg, s, moves)
    ensures AllAllowed(WithoutExecutor(moves)) && PromptRun(cfg, s, WithoutExecutor(moves))
    ensures var t := Run(cfg, s, WithoutExecutor(moves));
            Twins(Run(cfg, s, moves), t) && t.executor == s.executor && t.w.executor == s.w.executor
    decreases |moves|
  {
    hide SafetyInv, ExecInv, Next, Denied, Allowed, Prompt, MarketMatches, Twins;
    if moves == [] {
      assert Twins(s, s) by { SelfTwins(s); }
    } else {
      var init, m := moves[..|moves| - 1], moves[|moves| - 1];
      var kept := WithoutExecutor(init);
      assert forall x <- init :: x in moves;
      RunWithout(cfg, s, init);
      RunKeepsExec(cfg, s, init);
      RunKeepsDenied(cfg, s, init);
      if Others(m) {
        TwinsNext(cfg, Run(cfg, s, init), Run(cfg, s, kept), m);
        assert (kept + [m])[..|kept|] == kept;
      } else {
        ExecutorMove(cfg, Run(cfg, s, init), Run(cfg, s, kept), m);
        assert WithoutExecutor(moves) == kept;
      }
    }
  }

  lemma SelfTwins(s: System)
    ensures Twins(s, s)
  {
  }

  // -------------------------------------------------------------------------
  // Announcing
  // -------------------------------------------------------------------------

  ghost predicate Announces(s: System, t: System) {
    && s.w.stream <= t.w.stream && |s.w.stream| < |t.w.stream|
    && LiveDual(t.w.stream[|t.w.stream| - 1])
  }

  lemma AnnounceHead(cfg: Config, s: System) returns (moves: seq<Move>, t: System)
    requires s.executor.todo != [] && s.executor.todo[0].AnnounceDual?
    ensures Reaches(cfg, s, moves, t, true) && Announces(s, t)
  {
    hide Reaches, RowOf, ReadLevel4Id, Seen;
    var m := Moment(0, 0);
    t := StepAt(cfg, s, m);
    moves := [Advance(Executor, m)];
  }

  /** The poll sees a final row, and the next action announces it. */
  lemma PollHead(cfg: Config, s: System) returns (moves: seq<Move>, t: System)
    requires s.executor.todo != [] && s.executor.todo[0].PollRegistry? && s.executor.todo[0].attempts > 0
    requires IsDual(s.w, s.executor.todo[0].fixtureId)
    ensures Reaches(cfg, s, moves, t, true) && Announces(s, t)
  {
    hide Reaches, RowOf;
    var m := Moment(0, 0);
    var seen := StepAt(cfg, s, m);
    var rest;
    rest, t := AnnounceHead(cfg, seen);
    Follow(cfg, s, [Advance(Executor, m)], seen, rest, t, true);
    moves := [Advance(Executor, m)] + rest;
  }

  /** A tick that finds "submitted" without dual finality polls again. */
  lemma ResumeAnnounces(cfg: Config, s: System, f: int) returns (moves: seq<Move>, t: System)
    requires cfg.executorLive && SafetyInv(cfg, s) && s.executor.todo == [] && s.w.executor.Submitted?
    requires s.w.executor.settleTxHash == None && !s.w.executor.dualFinalized
    requires FixtureNumber(cfg) == Some(f) && IsDual(s.w, f)
    ensures Reaches(cfg, s, moves, t, true) && Announces(s, t)
  {
    hide Reaches, IsDual, SafetyInv, Announces;
    var i := QuietInput([]);
    ResumePolls(cfg, s, i, f);
    var begun := Next(cfg, s, Start(Executor, i));
    OneMove(cfg, s, Start(Executor, i), true);
    TickOf(cfg, s.w, i);
    assert begun.Of(Executor) == begun.executor && begun.executor.todo == ExecutorTick(cfg, s.w, i);
    var events, polling := PerformEvents(cfg, begun, Executor, 1, Moment(0, 0));
    assert polling.executor.todo == begun.executor.todo[1..];
    Follow(cfg, s, [Start(Executor, i)], begun, events, polling, true);
    assert IsDual(polling.w, f) by { SameRow(begun.w, polling.w, f); }
    var rest;
    rest, t := PollHead(cfg, polling);
    Follow(cfg, s, [Start(Executor, i)] + events, polling, rest, t, true);
    moves := [Start(Executor, i)] + events + rest;
    StreamGrows(cfg, s, [Start(Executor, i)] + events, polling);
    Later(s, polling, t);
  }

  lemma SameRow(w: World, next: World, f: int)
    requires next.base == w.base && IsDual(w, f)
    ensures IsDual(next, f)
  {
  }

  lemma ResumePolls(cfg: Config, s: System, i: TickInput, f: int)
    requires cfg.executorLive && SafetyInv(cfg, s) && s.w.executor.Submitted?
    requires s.w.executor.settleTxHash == None && !s.w.executor.dualFinalized && FixtureNumber(cfg) == Some(f)
    ensures var todo := ExecutorTick(cfg, s.w, i);
            |todo| == 3 && todo[0].Emit? && todo[1] == PollRegistry(POLL_ATTEMPTS, f, i.settleTxHash)
  {
    hide SafetyInv;
    SafeWorld(cfg, s);
    HandoffThere(cfg, s.w);
    HandoffFixture(cfg, s.w.handoff.value);
  }

  lemma HandoffThere(cfg: Config, w: World)
    requires WorldInv(cfg, w) && w.executor.Submitted?
    ensures w.handoff.Some? && IsHandoff(cfg, w.handoff.value)
  {
    hide History, Reports, Truthful, Derived, DerivedId, IsHandoff;
  }

  lemma StreamGrows(cfg: Config, s: System, moves: seq<Move>, t: System)
    requires Reaches(cfg, s, moves, t, true)
    ensures s.w.stream <= t.w.stream
  {
    hide Run, PromptRun, Allowed;
    StreamOfRun(cfg, s, moves);
  }

  lemma {:induction false} StreamOfRun(cfg: Config, s: System, moves: seq<Move>)
    ensures s.w.stream <= Run(cfg, s, moves).w.stream
    decreases |moves|
  {
    hide Next;
    if moves != [] {
      StreamOfRun(cfg, s, moves[..|moves| - 1]);
      StreamStep(cfg, Run(cfg, s, moves[..|moves| - 1]), moves[|moves| - 1]);
    }
  }

  lemma Later(s: System, mid: System, t: System)
    requires s.w.stream <= mid.w.stream && Announces(mid, t)
    ensures Announces(s, t)
  {
  }

  /** What a tick that has not seen dual finality may have next, once its message is behind it. */
  lemma FreshHead(cfg: Config, s: System)
    requires Ready(s.executor.todo) && Fresh(s.executor.todo) && SafetyInv(cfg, s) && ExecInv(cfg, s)
    ensures s.executor.todo != []
    ensures var a := s.executor.todo[0]; a.Emit? || a.PollRegistry? || a.SaveExecutor?
    ensures s.executor.todo[0].PollRegistry? ==> FixtureNumber(cfg) == Some(s.executor.todo[0].fixtureId)
    ensures s.executor.todo[0].SaveExecutor? ==>
              s.executor.todo[0].executor.Submitted? && s.executor.todo[0].executor.settleTxHash == None
  {
    hide SafetyInv, ExecInv, Derived, DerivedId, IsHandoff, IsDual, FixtureNumber, SettlesSomewhere, MarketDual, IsVaa;
    HeadParts(cfg, s);
  }

  lemma FreshStep(cfg: Config, w: World, p: Proc, m: Moment)
    requires Ready(p.todo) && Fresh(p.todo) && !p.dualFinalized && p.settleTxHash == None && m.lag == 0
    requires p.todo[0].Emit? || p.todo[0].SaveExecutor?
             || (p.todo[0].PollRegistry? && p.todo[0].attempts == 0)
    ensures var (w', p') := Do(cfg, w, p, m);
            && w'.base == w.base && w.stream <= w'.stream && p' == p.(todo := p.todo[1..]) && Fresh(p'.todo)
            && (p.todo[0].SaveExecutor? && p.todo[0].executor.Submitted? && p.todo[0].executor.settleTxHash == None ==>
                  w'.executor.Submitted? && !w'.executor.dualFinalized && w'.executor.settleTxHash == None)
            && (!p.todo[0].SaveExecutor? ==> Ready(p'.todo))
  {
  }

  lemma {:induction false} AnnounceSoon(cfg: Config, s: System, f: int) returns (moves: seq<Move>, t: System)
    requires cfg.executorLive && MarketMatches(cfg) && SafetyInv(cfg, s) && ExecInv(cfg, s)
    requires Ready(s.executor.todo) && Local(s.executor) && !s.executor.dualFinalized
    requires FixtureNumber(cfg) == Some(f) && IsDual(s.w, f)
    ensures Reaches(cfg, s, moves, t, true) && Announces(s, t)
    decreases |s.executor.todo|
  {
    hide Reaches, SafetyInv, ExecInv, Do, Ready, IsDual, Announces, Fresh, MarketMatches;
    FreshHead(cfg, s);
    var a, m := s.executor.todo[0], Moment(0, 0);
    if a.PollRegistry? && a.attempts > 0 {
      moves, t := PollHead(cfg, s);
    } else {
      var next := StepAt(cfg, s, m);
      FreshStep(cfg, s.w, s.executor, m);
      NextKeepsSafety(cfg, s, Advance(Executor, m));
      NextKeepsExec(cfg, s, Advance(Executor, m));
      SameRow(s.w, next.w, f);
      var first, rest, mid := [Advance(Executor, m)], [], next;
      if a.SaveExecutor? {
        mid := Next(cfg, next, Crash(Executor));
        OneMove(cfg, next, Crash(Executor), true);
        NextKeepsSafety(cfg, next, Crash(Executor));
        SameRow(next.w, mid.w, f);
        Follow(cfg, s, first, next, [Crash(Executor)], mid, true);
        first := first + [Crash(Executor)];
        rest, t := ResumeAnnounces(cfg, mid, f);
      } else {
        rest, t := AnnounceSoon(cfg, next, f);
      }
      Follow(cfg, s, first, mid, rest, t, true);
      moves := first + rest;
      Later(s, mid, t);
    }
  }

  lemma AnnouncesMeansCan(cfg: Config, s: System, moves: seq<Move>, t: System)
    requires Reaches(cfg, s, moves, t, true) && Announces(s, t)
    ensures CanAnnounce(cfg, s)
  {
    hide Run, PromptRun, Allowed, LiveDual;
    var k := |t.w.stream| - 1;
    assert |s.w.stream| <= k < |Run(cfg, s, moves).w.stream|;
    assert AllAllowed(moves) && PromptRun(cfg, s, moves) && LiveDual(Run(cfg, s, moves).w.stream[k]);
  }

  // -------------------------------------------------------------------------
  // When it still announces
  // -------------------------------------------------------------------------

  /** The announcement itself is still to be made. */
  predicate Announcing(todo: seq<Action>) { exists a <- todo :: a.AnnounceDual? }

  /** AND THE ANNOUNCEMENT, under the same conditions: a live executor still announces exactly if its
      running tick sent already, still holds its save, and either has the announcement next, or has not
      seen dual finality yet and the registry's row of the fixture can still become final. */
  lemma AnnouncedReachableIff(cfg: Config, base: Base, before: seq<Move>)
    requires BaseContracts.Inv(cfg.d, base) && AllAllowed(before)
    requires cfg.executorLive && MarketMatches(cfg)
    requires var w := Run(cfg, Beginning(base), before).w; w.executor.NotSubmitted? && Denied(cfg, w)
    ensures var s := Run(cfg, Beginning(base), before);
            CanAnnounce(cfg, s) <==>
            && Holds(SubmitRule, s.executor.todo)
            && (Announcing(s.executor.todo) || (!s.executor.dualFinalized && CanBeFinal(cfg, s)))
  {
    hide Run, SafetyInv, ExecInv, Denied, Holds, CanAnnounce, CanBeFinal, Local, MarketMatches, Allowed, Ready,
         Announcing;
    BeginningIsSafe(cfg, base);
    BeginningExec(cfg, base);
    RunKeepsExec(cfg, Beginning(base), before);
    IdleIsLocal();
    RunKeepsLocal(cfg, Beginning(base), before);
    SubmittedReachableIff(cfg, base, before);
    var s := Run(cfg, Beginning(base), before);
    if Holds(SubmitRule, s.executor.todo) {
      HoldsIff(SubmitRule, s.executor.todo);
      ExecParts(cfg, s);
      UnguardedIsReady(s.executor.todo);
      if Announcing(s.executor.todo) {
        AnnouncingIsNext(s.executor);
        var moves, t := AnnounceHead(cfg, s);
        AnnouncesMeansCan(cfg, s, moves, t);
      } else if s.executor.dualFinalized {
        SaidAlready(cfg, s);
      } else {
        AnnouncesIfFinal(cfg, s);
      }
    }
  }

  lemma AnnouncingIsNext(p: Proc)
    requires Local(p) && Announcing(p.todo)
    ensures p.todo != [] && p.todo[0].AnnounceDual?
  {
    var k :| 0 <= k < |p.todo| && p.todo[k].AnnounceDual?;
  }

  lemma SaidAlready(cfg: Config, s: System)
    requires cfg.executorLive && MarketMatches(cfg) && SafetyInv(cfg, s) && ExecInv(cfg, s) && Denied(cfg, s.w)
    requires s.w.executor.NotSubmitted? && s.executor.todo != [] && s.executor.dualFinalized && Local(s.executor)
    requires !Announcing(s.executor.todo)
    ensures !CanAnnounce(cfg, s)
  {
    hide Run, SafetyInv, ExecInv, Denied, MarketMatches, Allowed, PromptRun, LiveDual;
    assert Said(cfg, s);
    forall after | AllAllowed(after) && PromptRun(cfg, s, after)
      ensures forall k | |s.w.stream| <= k < |Run(cfg, s, after).w.stream| :: !LiveDual(Run(cfg, s, after).w.stream[k])
    {
      SaidForever(cfg, s, after);
    }
  }

  lemma AnnouncesIfFinal(cfg: Config, s: System)
    requires cfg.executorLive && MarketMatches(cfg) && SafetyInv(cfg, s) && ExecInv(cfg, s) && Denied(cfg, s.w)
    requires Ready(s.executor.todo) && Local(s.executor) && !s.executor.dualFinalized
    ensures CanAnnounce(cfg, s) <==> CanBeFinal(cfg, s)
  {
    hide Run, SafetyInv, ExecInv, Denied, MarketMatches, Allowed, PromptRun, LiveDual, Local, Ready, IsDual,
         Announces, Twins;
    if CanAnnounce(cfg, s) {
      var after, k: nat :|
        && |s.w.stream| <= k < |Run(cfg, s, after).w.stream|
        && AllAllowed(after) && PromptRun(cfg, s, after) && LiveDual(Run(cfg, s, after).w.stream[k]);
      FinalBefore(cfg, s, after, k);
    } else if CanBeFinal(cfg, s) {
      var after :|
        && AllAllowed(after) && PromptRun(cfg, s, after)
        && FixtureNumber(cfg).Some? && IsDual(Run(cfg, s, after).w, FixtureNumber(cfg).value);
      var kept, f := WithoutExecutor(after), FixtureNumber(cfg).value;
      var mid := Run(cfg, s, kept);
      RunWithout(cfg, s, after);
      TwinRow(Run(cfg, s, after), mid, f);
      RunKeepsExec(cfg, s, kept);
      var rest, t := AnnounceSoon(cfg, mid, f);
      Follow(cfg, s, kept, mid, rest, t, true);
      StreamOfRun(cfg, s, kept);
      Later(s, mid, t);
      AnnouncesMeansCan(cfg, s, kept + rest, t);
    }
  }

  lemma TwinRow(a: System, b: System, f: int)
    requires Twins(a, b) && IsDual(a.w, f)
    ensures IsDual(b.w, f)
  {
  }

  /** By the row as it is: a final one can be announced, a frozen one never will be. */
  lemma FinalByRow(cfg: Config, s: System, f: int)
    requires SafetyInv(cfg, s) && FixtureNumber(cfg) == Some(f)
    ensures IsDual(s.w, f) ==> CanBeFinal(cfg, s)
    ensures RowOf(s.w.base.registry, f).status == Conflict ==>
              !CanBeFinal(cfg, s) && !Announcing(s.executor.todo)
  {
    hide Run, SafetyInv, Allowed, PromptRun, RowOf, Fits;
    if IsDual(s.w, f) { StaysFinal(cfg, s, f); }
    if RowOf(s.w.base.registry, f).status == Conflict {
      forall after | AllAllowed(after) && PromptRun(cfg, s, after)
        ensures !IsDual(Run(cfg, s, after).w, f)
      {
        FrozenForever(cfg, s, after, f);
      }
      if Announcing(s.executor.todo) { AnnouncingIsFinal(cfg, s, f); }
    }
  }

  /** And one that has the proof lane's record alone can become final as long as the receiver would take
      the derived report of the same id and the attestor has not said "reported". */
  lemma FinalOnceReported(cfg: Config, s: System, f: int, r: Level3Report)
    requires cfg.attestorLive && Derived(cfg, r) && FixtureNumber(cfg) == Some(f)
    requires s.w.handoff == Some(HandoffOf(cfg)) && s.w.attestor.NotReported?
    requires RowOf(s.w.base.registry, f).level4.Some?
    requires RowOf(s.w.base.registry, f).level4.value.attestationId == r.attestationId
    requires RowOf(s.w.base.registry, f).level3 == None && TryOnReport(s.w.base, true, r).Ok?
    ensures CanBeFinal(cfg, s)
  {
    hide Reaches, Derived, HandoffOf, TryOnReport, RowOf, FindFinal, Deliver;
    DerivedNumber(cfg, r);
    var m, i := Moment(0, 0), QuietInput(Agreeing(cfg.quorum));
    EnoughAgree(cfg, i);
    var idle := Next(cfg, s, Crash(Attestor));
    OneMove(cfg, s, Crash(Attestor), true);
    var m1, ready := UpToSend(cfg, idle, i, r);
    DeliverShape(cfg, r, i);
    assert ready.Of(Attestor) == ready.attestor;
    var t := Step(cfg, ready, Attestor, m, true);
    MeetsRecord(s.w.base, f, r);
    Follow(cfg, s, [Crash(Attestor)], idle, m1, ready, true);
    Follow(cfg, s, [Crash(Attestor)] + m1, ready, [Advance(Attestor, m)], t, true);
    FinalReached(cfg, s, [Crash(Attestor)] + m1 + [Advance(Attestor, m)], t, f);
  }

  lemma DerivedNumber(cfg: Config, r: Level3Report)
    requires Derived(cfg, r)
    ensures FixtureNumber(cfg) == Some(r.fixtureId)
  {
    hide Level3, HandoffOf, FindFinal;
    ReportNumber(cfg.setup, cfg.fixture, HandoffOf(cfg), true);
  }

  lemma MeetsRecord(base: Base, f: int, r: Level3Report)
    requires TryOnReport(base, true, r).Ok? && r.fixtureId == f && RowOf(base.registry, f).level4.Some?
    requires RowOf(base.registry, f).level4.value.attestationId == r.attestationId
    requires RowOf(base.registry, f).level3 == None
    ensures RowOf(TryOnReport(base, true, r).value.registry, f).status == DualFinalized
  {
  }

  lemma FinalReached(cfg: Config, s: System, moves: seq<Move>, t: System, f: int)
    requires Reaches(cfg, s, moves, t, true) && FixtureNumber(cfg) == Some(f) && IsDual(t.w, f)
    ensures CanBeFinal(cfg, s)
  {
    hide Run, PromptRun, Allowed, IsDual;
    assert AllAllowed(moves) && PromptRun(cfg, s, moves) && IsDual(Run(cfg, s, moves).w, FixtureNumber(cfg).value);
  }

  lemma StaysFinal(cfg: Config, s: System, f: int)
    requires FixtureNumber(cfg) == Some(f) && IsDual(s.w, f)
    ensures CanBeFinal(cfg, s)
  {
    hide RowOf;
    assert AllAllowed([]) && PromptRun(cfg, s, []) && Run(cfg, s, []) == s;
  }

  lemma AnnouncingIsFinal(cfg: Config, s: System, f: int)
    requires SafetyInv(cfg, s) && FixtureNumber(cfg) == Some(f) && Announcing(s.executor.todo)
    ensures IsDual(s.w, f)
  {
    hide WorldInv, RowOf, FixtureNumber, Derived, DerivedId, IsHandoff;
    var a :| a in s.executor.todo && a.AnnounceDual?;
    assert AllFit(cfg, s.w, Executor, s.Of(Executor).todo);
    assert Fits(cfg, s.w, Executor, a);
  }

  lemma {:induction false} FrozenForever(cfg: Config, s: System, moves: seq<Move>, f: int)
    requires SafetyInv(cfg, s) && AllAllowed(moves) && RowOf(s.w.base.registry, f).status == Conflict
    ensures RowOf(Run(cfg, s, moves).w.base.registry, f).status == Conflict
    decreases |moves|
  {
    hide SafetyInv, Next, Allowed, RowOf;
    if moves != [] {
      var init := moves[..|moves| - 1];
      assert forall m <- init :: m in moves;
      FrozenForever(cfg, s, init, f);
      RunIsSafe(cfg, s, init);
      var was, now := Run(cfg, s, init).w, Run(cfg, s, moves).w;
      NextKeepsSafety(cfg, Run(cfg, s, init), moves[|moves| - 1]);
      assert RowAdvances(RowOf(was.base.registry, f), RowOf(now.base.registry, f));
    }
  }
}
