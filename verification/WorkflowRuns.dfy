/** What holds in every run of the three workflows, whatever interleaves with whatever and wherever
    they crash. */
module WorkflowRuns {
  import opened Bytes
  import opened BaseContracts
  import opened Lanes
  import opened Workflows
  import PB = ProofBuffer
  import R = Reducer

  lemma {:induction false} RunAppend(cfg: Config, s: System, a: seq<Move>, b: seq<Move>)
    ensures Run(cfg, s, a + b) == Run(cfg, Run(cfg, s, a), b)
    decreases |b|
  {
    hide Next;
    if b == [] {
      assert a + b == a;
    } else {
      assert (a + b)[..|a + b| - 1] == a + b[..|b| - 1];
      RunAppend(cfg, s, a, b[..|b| - 1]);
    }
  }

  // -------------------------------------------------------------------------
  // Orders within a tick
  // -------------------------------------------------------------------------

  /** Settlement waits for dual finality, "reported" for the report to be mined, what a live executor does
      after sending its message for the message to be mined, and "staged" for the buffer's seal. */
  datatype Rule = SettleRule | SaveRule | SubmitRule | StageRule

  predicate Opens(rule: Rule, a: Action) {
    match rule
    case SettleRule => a.AnnounceDual? || (a.Emit? && a.event.DualFinalityReached?)
    case SaveRule => a.SendReport?
    case SubmitRule => a.SendVaa?
    case StageRule => a.SealBuffer?
  }

  predicate Needs(rule: Rule, a: Action) {
    match rule
    case SettleRule => a.CheckMarket? || a.SendSettle? || (a.Emit? && a.event.ConsumerSettled?)
    case SaveRule => a.SaveAttestor?
    case SubmitRule => a.SaveExecutor? || a.PollRegistry? || a.AnnounceDual? || a.CheckMarket? || a.SendSettle?
    case StageRule => a.SaveDispatch? && a.dispatch == Staged
  }

  /** Every action that needs the opening comes after it, or it has already happened. */
  predicate Guarded(rule: Rule, open: bool, todo: seq<Action>)
    decreases |todo|
  {
    todo == [] ||
    if Opens(rule, todo[0]) then Guarded(rule, true, todo[1..])
    else (Needs(rule, todo[0]) ==> open) && Guarded(rule, open, todo[1..])
  }

  lemma {:induction false} GuardedMore(rule: Rule, open: bool, todo: seq<Action>)
    requires Guarded(rule, open, todo)
    ensures Guarded(rule, true, todo)
    decreases |todo|
  {
    if todo != [] && !Opens(rule, todo[0]) { GuardedMore(rule, open, todo[1..]); }
  }

  lemma GuardedAs(rule: Rule, open: bool, now: bool, todo: seq<Action>)
    requires Guarded(rule, open, todo) && (open ==> now)
    ensures Guarded(rule, now, todo)
  {
    if now { GuardedMore(rule, open, todo); }
  }

  lemma {:induction false} GuardedFree(rule: Rule, open: bool, a: seq<Action>, b: seq<Action>)
    requires forall x <- a :: !Needs(rule, x)
    requires Guarded(rule, open, b)
    ensures Guarded(rule, open, a + b)
    decreases |a|
  {
    if a == [] {
      assert a + b == b;
    } else {
      assert (a + b)[1..] == a[1..] + b;
      var now := open || Opens(rule, a[0]);
      GuardedAs(rule, open, now, b);
      GuardedFree(rule, now, a[1..], b);
    }
  }

  lemma GuardedWhole(rule: Rule, open: bool, todo: seq<Action>)
    requires forall x <- todo :: !Needs(rule, x)
    ensures Guarded(rule, open, todo)
  {
    GuardedFree(rule, open, todo, []);
    assert todo + [] == todo;
  }

  predicate DualSeen(stream: seq<R.RunEvent>) { exists e <- stream :: e.event.DualFinalityReached? }

  ghost predicate OrderInv(s: System) {
    && R.SettlesAfterDual(s.w.stream)
    && forall who :: Guarded(SettleRule, DualSeen(s.w.stream), s.Of(who).todo)
  }

  lemma {:induction false} ProviderEventsOnly(i: TickInput, k: nat)
    requires k <= |i.providers|
    ensures forall a <- ProviderEvents(i, k) :: a.Emit? && a.event.Level3RpcResult?
    decreases |i.providers| - k
  {
    if k < |i.providers| { ProviderEventsOnly(i, k + 1); }
  }

  const STAGES: set<string> := {DISPATCH_STAGE, ATTESTOR_STAGE, EXECUTOR_STAGE}

  /** Announces no finality and no settlement, and a failure only under a workflow's own name. */
  predicate Ordinary(a: Action) {
    if a.Emit?
    then !a.event.DualFinalityReached? && !a.event.ConsumerSettled? && (a.event.RunFailed? ==> a.event.stage in STAGES)
    else !a.AnnounceDual? && !a.CheckMarket? && !a.SendSettle?
  }

  lemma StageIsOrdinary(cfg: Config, i: TickInput)
    requires FindFinal(cfg.fixture.records).Some?
    ensures forall a <- Stage(cfg, i) :: Ordinary(a)
  {
    hide DailyRootFor, HandoffOf, CanonicalBytes, BufferAddress, PB.Chunks, FindFinal, Upload;
    if cfg.chunkSize > 0 { UploadIsOrdinary(cfg, i); }
  }

  lemma UploadIsOrdinary(cfg: Config, i: TickInput)
    requires FindFinal(cfg.fixture.records).Some? && cfg.chunkSize > 0
    ensures forall a <- Upload(cfg, i) :: Ordinary(a)
  {
    hide HandoffOf, BufferAddress, BufferChunks, FindFinal;
    var appends := Appends(BufferAddress(cfg), BufferChunks(cfg));
    assert forall a <- appends :: Ordinary(a);
  }

  /** No tick starts out with a settlement to announce: those come from what it reads on the way. */
  lemma TickIsOrdinary(cfg: Config, who: Who, w: World, i: TickInput)
    ensures forall a <- Tick(cfg, who, w, i) :: Ordinary(a)
  {
    hide Stage, Attest, Execute, FindFinal, Final;
    match who
    case Dispatch => if FindFinal(cfg.fixture.records).Some? { StageIsOrdinary(cfg, i); }
    case Attestor => if w.handoff.Some? { AttestIsOrdinary(cfg, w.handoff.value, i); }
    case Executor => if w.handoff.Some? { ExecuteIsOrdinary(cfg, w.handoff.value, i); }
  }

  lemma AttestIsOrdinary(cfg: Config, h: Handoff, i: TickInput)
    ensures forall a <- Attest(cfg, h, i) :: Ordinary(a)
  {
    hide CheckedTx, Level3Derive, FindFinal, Final, Announced, AgreedCount, Failure, Deliver, ProviderEvents;
    ProviderEventsOnly(i, 0);
    forall e ensures forall a <- Failure(ATTESTOR_STAGE, e, i) :: Ordinary(a) {
      FailureIsOrdinary(ATTESTOR_STAGE, e, i);
    }
    forall r ensures forall a <- Deliver(cfg, r, i) :: Ordinary(a) { DeliverIsOrdinary(cfg, r, i); }
  }

  lemma FailureIsOrdinary(stage: string, e: LaneError, i: TickInput)
    requires stage in STAGES
    ensures forall a <- Failure(stage, e, i) :: Ordinary(a)
  {
    hide Announced;
  }

  lemma DeliverIsOrdinary(cfg: Config, r: Level3Report, i: TickInput)
    ensures forall a <- Deliver(cfg, r, i) :: Ordinary(a)
  {
  }

  lemma ExecuteIsOrdinary(cfg: Config, h: Handoff, i: TickInput)
    ensures forall a <- Execute(cfg, h, i) :: Ordinary(a)
  {
    hide Level4Checked, Level4Build, Published, Announced;
    var checked := Level4Checked(cfg.setup, cfg.fixture, h);
    if checked.Ok? && h.wormhole.Some? && Level4Build(cfg.setup, cfg.fixture, h, checked.value).Ok? {
      PublishedIsOrdinary(cfg, h, Level4Build(cfg.setup, cfg.fixture, h, checked.value).value, i);
    }
  }

  lemma PublishedIsOrdinary(cfg: Config, h: Handoff, built: Built, i: TickInput)
    requires h.wormhole.Some?
    ensures forall a <- Published(cfg, h, built, i) :: Ordinary(a)
  {
    hide FetchVaa, Level4Accept, Announced, SignerIndices;
  }

  lemma DoKeepsOrder(cfg: Config, w: World, p: Proc, m: Moment)
    requires p.todo != [] && R.SettlesAfterDual(w.stream) && Guarded(SettleRule, DualSeen(w.stream), p.todo)
    ensures var (w', p') := Do(cfg, w, p, m);
            && R.SettlesAfterDual(w'.stream) && (DualSeen(w.stream) ==> DualSeen(w'.stream))
            && Guarded(SettleRule, DualSeen(w'.stream), p'.todo)
  {
    hide TryOnReport, TrySubmit, TrySettle, RowOf, Seen, PB.AfterInit, PB.TryAppend, PB.TrySeal, R.SettlesAfterDual,
         DualSeen;
    var (w', p') := Do(cfg, w, p, m);
    var rest := p.todo[1..];
    assert Guarded(SettleRule, DualSeen(w.stream) || Opens(SettleRule, p.todo[0]), rest);
    if |w'.stream| > |w.stream| {
      StreamGrows(w.stream, w'.stream[|w.stream|]);
      GuardedAs(SettleRule, DualSeen(w.stream) || Opens(SettleRule, p.todo[0]), DualSeen(w'.stream), rest);
    } else {
      QuietKeepsGuard(cfg, w, p, m);
    }
  }

  /** Actions that announce nothing themselves: what they put in front is in order too. */
  lemma QuietKeepsGuard(cfg: Config, w: World, p: Proc, m: Moment)
    requires p.todo != [] && Guarded(SettleRule, DualSeen(w.stream), p.todo)
    requires !p.todo[0].Emit? && !p.todo[0].AnnounceDual?
    ensures Guarded(SettleRule, DualSeen(w.stream), Do(cfg, w, p, m).1.todo) && Do(cfg, w, p, m).0.stream == w.stream
  {
    hide TryOnReport, TrySubmit, TrySettle, RowOf, Seen, PB.AfterInit, PB.TryAppend, PB.TrySeal, DualSeen;
    var rest := p.todo[1..];
    match p.todo[0]
    case PollRegistry(attempts, f, hash) => PollKeepsGuard(cfg, w, p, m);
    case CheckMarket(hash) => assert ([SendSettle(hash)] + rest)[1..] == rest;
    case SendSettle(hash) => assert ([Emit(R.ConsumerSettled(hash), false)] + rest)[1..] == rest;
    case Reconcile(id, hash, reason) => ReconcileKeepsGuard(cfg, w, p, m);
    case _ =>
  }

  lemma PollKeepsGuard(cfg: Config, w: World, p: Proc, m: Moment)
    requires p.todo != [] && Guarded(SettleRule, DualSeen(w.stream), p.todo) && p.todo[0].PollRegistry?
    ensures Guarded(SettleRule, DualSeen(w.stream), Do(cfg, w, p, m).1.todo) && Do(cfg, w, p, m).0.stream == w.stream
  {
    hide RowOf, Seen, DualSeen;
    var a, rest := p.todo[0], p.todo[1..];
    GuardedMore(SettleRule, DualSeen(w.stream), rest);
    Unroll2(DualSeen(w.stream), AnnounceDual(a.fixtureId), CheckMarket(a.hash), rest);
    if a.attempts > 1 { assert ([PollRegistry(a.attempts - 1, a.fixtureId, a.hash)] + rest)[1..] == rest; }
  }

  lemma ReconcileKeepsGuard(cfg: Config, w: World, p: Proc, m: Moment)
    requires p.todo != [] && Guarded(SettleRule, DualSeen(w.stream), p.todo) && p.todo[0].Reconcile?
    ensures Guarded(SettleRule, DualSeen(w.stream), Do(cfg, w, p, m).1.todo) && Do(cfg, w, p, m).0.stream == w.stream
  {
    hide DualSeen;
    var a, rest := p.todo[0], p.todo[1..];
    GuardedMore(SettleRule, DualSeen(w.stream), rest);
    Unroll2(DualSeen(w.stream), Emit(R.DualFinalityReached(a.attestationId), true),
            Emit(R.ConsumerSettled(a.hash), true), rest);
    assert [Emit(R.RunFailed(EXECUTOR_STAGE, a.reason), true)][1..] == [];
  }

  lemma Unroll2(open: bool, a: Action, b: Action, rest: seq<Action>)
    requires Opens(SettleRule, a) && !Opens(SettleRule, b) && Guarded(SettleRule, true, rest)
    ensures Guarded(SettleRule, open, [a, b] + rest) && Guarded(SettleRule, open, [a] + rest)
    ensures [a] + [b] + rest == [a, b] + rest && [a] + [] + rest == [a] + rest
  {
    assert ([a, b] + rest)[1..] == [b] + rest && ([b] + rest)[1..] == rest && ([a] + rest)[1..] == rest;
  }

  lemma StreamGrows(stream: seq<R.RunEvent>, e: R.RunEvent)
    requires R.SettlesAfterDual(stream) && (e.event.ConsumerSettled? ==> DualSeen(stream))
    ensures R.SettlesAfterDual(stream + [e])
    ensures DualSeen(stream + [e]) <==> DualSeen(stream) || e.event.DualFinalityReached?
  {
    var longer := stream + [e];
    if DualSeen(stream) {
      var d :| d in stream && d.event.DualFinalityReached?;
      var j :| 0 <= j < |stream| && stream[j] == d;
      assert longer[j] == d;
    }
    forall i | 0 <= i < |longer| && longer[i].event.ConsumerSettled?
      ensures exists j | 0 <= j < i :: longer[j].event.DualFinalityReached?
    {
      if i < |stream| {
        var j :| 0 <= j < i && stream[j].event.DualFinalityReached?;
        assert longer[j] == stream[j];
      } else {
        var d :| d in stream && d.event.DualFinalityReached?;
        var j :| 0 <= j < |stream| && stream[j] == d;
        assert longer[j] == d;
      }
    }
  }

  lemma NextKeepsOrder(cfg: Config, s: System, m: Move)
    requires OrderInv(s)
    ensures OrderInv(Next(cfg, s, m))
  {
    hide Tick, Do, AfterTx, R.SettlesAfterDual, DualSeen;
    var next := Next(cfg, s, m);
    if m.Start? {
      TickIsOrdinary(cfg, m.who, s.w, m.input);
      GuardedWhole(SettleRule, DualSeen(s.w.stream), Tick(cfg, m.who, s.w, m.input));
    } else if m.Advance? && s.Of(m.who).todo != [] {
      DoKeepsOrder(cfg, s.w, s.Of(m.who), m.moment);
    }
    forall other
      ensures Guarded(SettleRule, DualSeen(next.w.stream), next.Of(other).todo)
    {
      if m.Outside? || other != m.who {
        assert next.Of(other) == s.Of(other);
        GuardedAs(SettleRule, DualSeen(s.w.stream), DualSeen(next.w.stream), s.Of(other).todo);
      }
    }
  }

  /** In every stream the workflows ever produce, settlement is announced after dual finality only. */
  lemma {:induction false} EveryStreamSettlesAfterDual(cfg: Config, base: Base, moves: seq<Move>)
    ensures OrderInv(Run(cfg, Beginning(base), moves))
    decreases |moves|
  {
    hide Next;
    if moves != [] {
      EveryStreamSettlesAfterDual(cfg, base, moves[..|moves| - 1]);
      NextKeepsOrder(cfg, Run(cfg, Beginning(base), moves[..|moves| - 1]), moves[|moves| - 1]);
    }
  }

  /** So no control room ever shows a settled market without dual finality, nor dual finality without
      an announced id. */
  lemma EveryRoomIsConsistent(cfg: Config, base: Base, moves: seq<Move>)
    ensures var room := R.Fold(R.InitialState(), Run(cfg, Beginning(base), moves).w.stream);
            && (room.settledTxHash.Some? ==> room.finality == R.DualFinalized)
            && R.IdIffDual(room)
  {
    hide R.Fold, Run, R.SettlesAfterDual;
    EveryStreamSettlesAfterDual(cfg, base, moves);
    R.SettledImpliesDual(Run(cfg, Beginning(base), moves).w.stream);
    R.DualIsAnnounced(Run(cfg, Beginning(base), moves).w.stream);
  }

  // -------------------------------------------------------------------------
  // Failures
  // -------------------------------------------------------------------------

  predicate OwnStage(e: R.Event) { e.RunFailed? ==> e.stage in STAGES }

  predicate OwnStages(todo: seq<Action>) { forall a <- todo :: a.Emit? ==> OwnStage(a.event) }

  ghost predicate FailureInv(s: System) {
    (forall re <- s.w.stream :: OwnStage(re.event)) && forall who :: OwnStages(s.Of(who).todo)
  }

  lemma DoKeepsStages(cfg: Config, w: World, p: Proc, m: Moment)
    requires p.todo != [] && OwnStages(p.todo) && forall re <- w.stream :: OwnStage(re.event)
    ensures var (w', p') := Do(cfg, w, p, m); OwnStages(p'.todo) && forall re <- w'.stream :: OwnStage(re.event)
  {
    hide TryOnReport, TrySubmit, TrySettle, RowOf, Seen, ReadLevel4Id, PB.AfterInit, PB.TryAppend, PB.TrySeal;
  }

  lemma NextKeepsStages(cfg: Config, s: System, m: Move)
    requires FailureInv(s)
    ensures FailureInv(Next(cfg, s, m))
  {
    hide Tick, Do, AfterTx, OwnStage;
    var next := Next(cfg, s, m);
    if m.Start? {
      TickOwnsStages(cfg, m.who, s.w, m.input);
    } else if m.Advance? && s.Of(m.who).todo != [] {
      DoKeepsStages(cfg, s.w, s.Of(m.who), m.moment);
    }
    forall who
      ensures OwnStages(next.Of(who).todo)
    {
      if m.Outside? || who != m.who { assert next.Of(who) == s.Of(who); }
    }
  }

  lemma TickOwnsStages(cfg: Config, who: Who, w: World, i: TickInput)
    ensures OwnStages(Tick(cfg, who, w, i))
  {
    hide Tick;
    TickIsOrdinary(cfg, who, w, i);
  }

  lemma {:induction false} EveryFailureHasItsStage(cfg: Config, base: Base, moves: seq<Move>)
    ensures FailureInv(Run(cfg, Beginning(base), moves))
    decreases |moves|
  {
    hide Next;
    if moves != [] {
      EveryFailureHasItsStage(cfg, base, moves[..|moves| - 1]);
      NextKeepsStages(cfg, Run(cfg, Beginning(base), moves[..|moves| - 1]), moves[|moves| - 1]);
    }
  }

  lemma PrefixLetters(s: string)
    ensures R.StartsWith(s, "level4") ==> |s| >= 6 && s[0] == 'l' && s[5] == '4'
  {
    if R.StartsWith(s, "level4") { assert s[0] == s[..6][0] && s[5] == s[..6][5]; }
  }

  lemma StagesAreNotLevel4(stage: string)
    requires stage in STAGES
    ensures !R.StartsWith(stage, "level4")
  {
    hide R.StartsWith;
    PrefixLetters(stage);
    assert DISPATCH_STAGE[0] == 's' && EXECUTOR_STAGE[0] == 'v' && ATTESTOR_STAGE[5] == '3';
  }

  /** No run of the workflows ever shows the Level 4 lane failed, whatever the executor reports: its
      stage name is not one the reducer looks for. */
  lemma Level4NeverShownFailed(cfg: Config, base: Base, moves: seq<Move>)
    ensures R.Fold(R.InitialState(), Run(cfg, Beginning(base), moves).w.stream).level4.status != R.LaneFailed
  {
    hide Run, R.Fold, R.StartsWith;
    EveryFailureHasItsStage(cfg, base, moves);
    var stream := Run(cfg, Beginning(base), moves).w.stream;
    forall e <- stream | e.event.RunFailed?
      ensures !R.StartsWith(e.event.stage, "level4")
    {
      assert OwnStage(e.event);
      StagesAreNotLevel4(e.event.stage);
    }
    R.Level4FailsOnlyByName(stream);
  }
}
