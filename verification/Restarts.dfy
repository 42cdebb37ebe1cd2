/** What a workflow can still reach after a crash between a transaction and the state file that should
    remember it (workflows/cre-level3-attestor/main.ts, workflows/cre-vaa-executor/main.ts). */
module Restarts {
  import opened Bytes
  import opened BaseContracts
  import opened Lanes
  import opened WorkflowRuns
  import opened WorkflowSafety
  import opened Workflows
  import PB = ProofBuffer

  // -------------------------------------------------------------------------
  // Building runs
  // -------------------------------------------------------------------------

  /** These moves lead from one system to the other, every transaction estimated on the current state
      if prompt. */
  ghost predicate Reaches(cfg: Config, s: System, moves: seq<Move>, t: System, prompt: bool) {
    AllAllowed(moves) && Run(cfg, s, moves) == t && (prompt ==> PromptRun(cfg, s, moves))
  }

  lemma {:induction false} PromptAppend(cfg: Config, s: System, a: seq<Move>, b: seq<Move>)
    ensures PromptRun(cfg, s, a + b) <==> PromptRun(cfg, s, a) && PromptRun(cfg, Run(cfg, s, a), b)
    decreases |b|
  {
    hide Run, Prompt;
    if b == [] {
      assert a + b == a;
    } else {
      var init := b[..|b| - 1];
      assert (a + b)[..|a + b| - 1] == a + init;
      PromptAppend(cfg, s, a, init);
      RunAppend(cfg, s, a, init);
    }
  }

  lemma Follow(cfg: Config, s: System, a: seq<Move>, t: System, b: seq<Move>, u: System, prompt: bool)
    requires Reaches(cfg, s, a, t, prompt) && Reaches(cfg, t, b, u, prompt)
    ensures Reaches(cfg, s, a + b, u, prompt)
  {
    hide Run, PromptRun;
    RunAppend(cfg, s, a, b);
    PromptAppend(cfg, s, a, b);
  }

  lemma Nowhere(cfg: Config, s: System, prompt: bool)
    ensures Reaches(cfg, s, [], s, prompt)
  {
  }

  lemma OneMove(cfg: Config, s: System, m: Move, prompt: bool)
    requires Allowed(m) && (prompt ==> Prompt(s, m))
    ensures Reaches(cfg, s, [m], Next(cfg, s, m), prompt)
  {
    hide Next, Prompt;
    assert [m][..0] == [];
    assert Run(cfg, s, []) == s && PromptRun(cfg, s, []);
  }

  /** The next action of a running tick. */
  lemma Step(cfg: Config, s: System, who: Who, m: Moment, prompt: bool) returns (t: System)
    requires s.Of(who).todo != []
    requires prompt ==> m.lag == 0
    ensures var (w', p') := Do(cfg, s.w, s.Of(who), m); t == s.With(who, w', p') && t.w == w' && t.Of(who) == p'
    ensures Reaches(cfg, s, [Advance(who, m)], t, prompt)
  {
    hide Do;
    t := Next(cfg, s, Advance(who, m));
    OneMove(cfg, s, Advance(who, m), prompt);
  }

  /** Performing events. */
  lemma {:induction false} PerformEvents(cfg: Config, s: System, who: Who, n: nat, m: Moment)
    returns (moves: seq<Move>, t: System)
    requires n <= |s.Of(who).todo| && m.lag == 0 && forall k | 0 <= k < n :: s.Of(who).todo[k].Emit?
    ensures Reaches(cfg, s, moves, t, true) && forall x <- moves :: !x.Start?
    ensures t == s.With(who, s.w.(stream := t.w.stream), s.Of(who).(todo := s.Of(who).todo[n..]))
    decreases n
  {
    hide Reaches;
    if n == 0 {
      moves, t := [], s;
      Nowhere(cfg, s, true);
      assert s.Of(who).todo[0..] == s.Of(who).todo;
    } else {
      var next := Step(cfg, s, who, m, true);
      var rest;
      assert next.Of(who).todo == s.Of(who).todo[1..];
      rest, t := PerformEvents(cfg, next, who, n - 1, m);
      assert s.Of(who).todo[1..][n - 1..] == s.Of(who).todo[n..];
      moves := [Advance(who, m)] + rest;
      Follow(cfg, s, [Advance(who, m)], next, rest, t, true);
    }
  }

  // -------------------------------------------------------------------------
  // What is still to do, on the right side of a send
  // -------------------------------------------------------------------------

  /** The running tick still holds an action that waits for a send, and that send is behind it. */
  predicate Holds(rule: Rule, todo: seq<Action>) {
    exists k | 0 <= k < |todo| :: Needs(rule, todo[k]) && NoneOpens(rule, todo, k)
  }

  predicate NoneOpens(rule: Rule, todo: seq<Action>, k: nat)
    requires k <= |todo|
  {
    forall j | 0 <= j < k :: !Opens(rule, todo[j])
  }

  lemma OpenIsGuarded(rule: Rule, todo: seq<Action>)
    ensures Guarded(rule, true, todo)
    decreases |todo|
  {
    if todo != [] { OpenIsGuarded(rule, todo[1..]); }
  }

  lemma {:induction false} HoldsIff(rule: Rule, todo: seq<Action>)
    ensures Holds(rule, todo) <==> !Guarded(rule, false, todo)
    decreases |todo|
  {
    if todo != [] {
      var rest := todo[1..];
      HoldsIff(rule, rest);
      OpenIsGuarded(rule, rest);
      if Holds(rule, rest) && !Opens(rule, todo[0]) {
        var k :| 0 <= k < |rest| && Needs(rule, rest[k]) && NoneOpens(rule, rest, k);
        assert todo[k + 1] == rest[k];
        assert NoneOpens(rule, todo, k + 1);
      }
      if Holds(rule, todo) {
        var k :| 0 <= k < |todo| && Needs(rule, todo[k]) && NoneOpens(rule, todo, k);
        if k > 0 {
          assert rest[k - 1] == todo[k] && NoneOpens(rule, rest, k - 1);
        } else {
          assert !Opens(rule, todo[0]);
        }
      }
    }
  }

  // -------------------------------------------------------------------------
  // The attestor
  // -------------------------------------------------------------------------

  /** Base takes no report of this fixture any more. */
  ghost predicate Refused(cfg: Config, w: World) { forall r :: Derived(cfg, r) ==> TryOnReport(w.base, true, r).Err? }

  lemma AcceptedIsRefused(cfg: Config, w: World)
    requires WorldInv(cfg, w) && w.accepted != []
    ensures Refused(cfg, w)
  {
    hide WorldInv, TryOnReport;
    forall r | Derived(cfg, r)
      ensures TryOnReport(w.base, true, r).Err?
    {
      SecondReverts(cfg, w, r);
    }
  }

  lemma RefusedStays(cfg: Config, w: World, next: World)
    requires Refused(cfg, w) && Evolves(w, next)
    ensures Refused(cfg, next)
  {
    hide TryOnReport, Derived, Advances;
    forall r | Derived(cfg, r)
      ensures TryOnReport(next.base, true, r).Err?
    {
      ReportRefusedLater(w.base, next.base, r);
    }
  }

  /** No report gets in, the state file does not say "reported", and no running tick can still say so. */
  ghost predicate Stuck(cfg: Config, s: System) {
    && cfg.attestorLive && SafetyInv(cfg, s) && Refused(cfg, s.w) && s.w.attestor.NotReported?
    && Guarded(SaveRule, false, s.attestor.todo)
  }

  lemma StuckAdvance(cfg: Config, s: System, m: Moment)
    requires Stuck(cfg, s) && s.attestor.todo != [] && (s.attestor.todo[0].SendReport? ==> m.lag == 0)
    ensures var (w', p') := Do(cfg, s.w, s.attestor, m); w'.attestor.NotReported? && Guarded(SaveRule, false, p'.todo)
  {
    hide TryOnReport, RowOf, Derived, DerivedId, FixtureNumber, IsHandoff, WorldInv;
    assert AllFit(cfg, s.w, Attestor, s.Of(Attestor).todo);
    assert Fits(cfg, s.w, Attestor, s.attestor.todo[0]);
  }

  lemma OthersDoNotReport(cfg: Config, s: System, who: Who, m: Moment)
    requires SafetyInv(cfg, s) && who != Attestor && s.Of(who).todo != []
    ensures Do(cfg, s.w, s.Of(who), m).0.attestor == s.w.attestor
  {
    hide TryOnReport, TrySubmit, TrySettle, RowOf, Derived, DerivedId, FixtureNumber, IsHandoff, WorldInv, Seen,
         PB.AfterInit, PB.TryAppend, PB.TrySeal, ReadLevel4Id;
    assert AllFit(cfg, s.w, who, s.Of(who).todo);
    assert Fits(cfg, s.w, who, s.Of(who).todo[0]);
  }

  lemma SafeWorld(cfg: Config, s: System)
    requires SafetyInv(cfg, s)
    ensures WorldInv(cfg, s.w)
  {
  }

  lemma StuckNext(cfg: Config, s: System, m: Move)
    requires Stuck(cfg, s) && Allowed(m) && Prompt(s, m)
    ensures Stuck(cfg, Next(cfg, s, m))
  {
    hide SafetyInv, Tick, Do, AfterTx, Guarded, Evolves, Refused;
    NextKeepsSafety(cfg, s, m);
    RefusedStays(cfg, s.w, Next(cfg, s, m).w);
    NothingFits(cfg, s.w, Attestor);
    if m.Advance? && s.Of(m.who).todo != [] {
      if m.who == Attestor { StuckAdvance(cfg, s, m.moment); } else { OthersDoNotReport(cfg, s, m.who, m.moment); }
    } else if m.Start? {
      SafeWorld(cfg, s);
      TickFits(cfg, m.who, s.w, m.input);
    }
  }

  lemma {:induction false} StuckForever(cfg: Config, s: System, moves: seq<Move>)
    requires Stuck(cfg, s) && AllAllowed(moves) && PromptRun(cfg, s, moves)
    ensures Stuck(cfg, Run(cfg, s, moves))
    decreases |moves|
  {
    hide Stuck, Next, Allowed, Prompt;
    if moves != [] {
      var init := moves[..|moves| - 1];
      assert forall m <- init :: m in moves;
      StuckForever(cfg, s, init);
      StuckNext(cfg, Run(cfg, s, init), moves[|moves| - 1]);
    }
  }

  /** A tick that sent its report and still holds its save gets there. */
  lemma {:induction false} ReachSave(cfg: Config, s: System) returns (moves: seq<Move>, t: System)
    requires AllFit(cfg, s.w, Attestor, s.attestor.todo) && !Guarded(SaveRule, false, s.attestor.todo)
    ensures Reaches(cfg, s, moves, t, true) && t.w.attestor.Reported?
    ensures t.w.accepted == s.w.accepted && t.w.sent == s.w.sent
    decreases |s.attestor.todo|
  {
    hide Reaches, Derived, DerivedId, IsHandoff, FixtureNumber, IsDual, RowOf;
    var m := Moment(0, 0);
    var a := s.attestor.todo[0];
    assert Fits(cfg, s.w, Attestor, a);
    OpenIsGuarded(SaveRule, s.attestor.todo[1..]);
    assert !a.SendReport?;
    var next := Step(cfg, s, Attestor, m, true);
    if a.SaveAttestor? {
      moves, t := [Advance(Attestor, m)], next;
    } else {
      assert next.attestor.todo == s.attestor.todo[1..];
      StillFits(cfg, s, next.w);
      var rest;
      rest, t := ReachSave(cfg, next);
      moves := [Advance(Attestor, m)] + rest;
      Follow(cfg, s, [Advance(Attestor, m)], next, rest, t, true);
    }
  }

  lemma StillFits(cfg: Config, s: System, next: World)
    requires AllFit(cfg, s.w, Attestor, s.attestor.todo) && s.attestor.todo != []
    requires next.base == s.w.base && next.handoff == s.w.handoff
    ensures AllFit(cfg, next, Attestor, s.attestor.todo[1..])
  {
    hide Derived, DerivedId, IsHandoff, FixtureNumber, IsDual;
    forall a <- s.attestor.todo[1..]
      ensures Fits(cfg, next, Attestor, a)
    {
      assert Fits(cfg, s.w, Attestor, a);
    }
  }

  /** Some continuation with prompt sends ends with "reported". */
  ghost predicate CanReport(cfg: Config, s: System) {
    exists after :: AllAllowed(after) && PromptRun(cfg, s, after) && Run(cfg, s, after).w.attestor.Reported?
  }

  /** AFTER A REPORT GOT IN: once Base takes the report no more (it took it, or the fixture is frozen), a
      live attestor that has not said "reported" ever says so exactly if its running tick sent already
      and still holds its save. After a crash in between every later tick ends in the revert. */
  lemma ReportedReachableIff(cfg: Config, base: Base, before: seq<Move>)
    requires BaseContracts.Inv(cfg.d, base) && AllAllowed(before) && cfg.attestorLive
    requires var w := Run(cfg, Beginning(base), before).w;
             w.attestor.NotReported? && (w.accepted != [] || Refused(cfg, w))
    ensures var s := Run(cfg, Beginning(base), before); CanReport(cfg, s) <==> Holds(SaveRule, s.attestor.todo)
  {
    hide Run, SafetyInv, Guarded, Refused, Holds, PromptRun, Allowed;
    BeginningIsSafe(cfg, base);
    RunIsSafe(cfg, Beginning(base), before);
    var s := Run(cfg, Beginning(base), before);
    SafeWorld(cfg, s);
    if s.w.accepted != [] { AcceptedIsRefused(cfg, s.w); }
    HoldsIff(SaveRule, s.attestor.todo);
    if Holds(SaveRule, s.attestor.todo) {
      FitsOf(cfg, s, Attestor);
      var after, t := ReachSave(cfg, s);
      assert AllAllowed(after) && PromptRun(cfg, s, after) && Run(cfg, s, after).w.attestor.Reported?;
    } else {
      forall after | AllAllowed(after) && PromptRun(cfg, s, after)
        ensures Run(cfg, s, after).w.attestor.NotReported?
      {
        StuckForever(cfg, s, after);
      }
    }
  }

  lemma FitsOf(cfg: Config, s: System, who: Who)
    requires SafetyInv(cfg, s)
    ensures AllFit(cfg, s.w, who, s.Of(who).todo)
  {
  }

  /** The window is there whenever the lane can deliver: right after the receiver accepted the report
      the state file does not say so yet, and a crash then leaves nothing that could. */
  lemma AcceptedBeforeSaved(cfg: Config, s: System, i: TickInput, r: Level3Report) returns (moves: seq<Move>, t: System)
    requires cfg.attestorLive && s.attestor.todo == [] && s.w.attestor.NotReported? && s.w.accepted == []
    requires Derived(cfg, r) && s.w.handoff == Some(HandoffOf(cfg)) && TryOnReport(s.w.base, true, r).Ok?
    requires AgreedCount(i.providers) >= cfg.quorum
    ensures Reaches(cfg, s, moves, t, true)
    ensures t.w.accepted == [r] && t.w.attestor.NotReported? && Holds(SaveRule, t.attestor.todo)
    ensures var crashed := Next(cfg, t, Crash(Attestor));
            crashed.w.accepted == [r] && crashed.w.attestor.NotReported? && !Holds(SaveRule, crashed.attestor.todo)
  {
    hide TryOnReport, Reaches, Derived, HandoffOf, Deliver, Holds, FindFinal;
    var ready;
    moves, ready := UpToSend(cfg, s, i, r);
    var m := Moment(0, 0);
    DeliverShape(cfg, r, i);
    t := Step(cfg, ready, Attestor, m, true);
    Follow(cfg, s, moves, ready, [Advance(Attestor, m)], t, true);
    moves := moves + [Advance(Attestor, m)];
    assert t.attestor.todo == ready.attestor.todo[1..];
    HoldsIff(SaveRule, []);
  }

  lemma DeliverShape(cfg: Config, r: Level3Report, i: TickInput)
    requires cfg.attestorLive
    ensures var todo := Deliver(cfg, r, i);
            |todo| == 4 && todo[0] == SendReport(r) && Holds(SaveRule, todo[1..])
  {
    var rest := Deliver(cfg, r, i)[1..];
    assert Needs(SaveRule, rest[2]) && NoneOpens(SaveRule, rest, 2);
  }

  lemma UpToSend(cfg: Config, s: System, i: TickInput, r: Level3Report) returns (moves: seq<Move>, t: System)
    requires cfg.attestorLive && s.attestor.todo == [] && s.w.attestor.NotReported?
    requires Derived(cfg, r) && s.w.handoff == Some(HandoffOf(cfg)) && AgreedCount(i.providers) >= cfg.quorum
    ensures Reaches(cfg, s, moves, t, true)
    ensures t == s.(w := s.w.(stream := t.w.stream), attestor := Started(Deliver(cfg, r, i)))
  {
    hide Level3, HandoffOf, Attest, FindFinal, Reaches, ProviderEvents, AgreedCount, Deliver;
    var begun := Next(cfg, s, Start(Attestor, i));
    OneMove(cfg, s, Start(Attestor, i), true);
    AttestList(cfg, HandoffOf(cfg), i);
    ProviderEventsOnly(i, 0);
    var todo, n := begun.attestor.todo, 1 + |ProviderEvents(i, 0)|;
    assert todo == Heartbeat(i) + (ProviderEvents(i, 0) + Deliver(cfg, r, i));
    assert forall k | 1 <= k < n :: todo[k] == ProviderEvents(i, 0)[k - 1];
    assert todo[n..] == Deliver(cfg, r, i);
    assert begun.Of(Attestor) == begun.attestor;
    var events;
    events, t := PerformEvents(cfg, begun, Attestor, n, Moment(0, 0));
    Follow(cfg, s, [Start(Attestor, i)], begun, events, t, true);
    moves := [Start(Attestor, i)] + events;
  }

  function Agreeing(n: nat): seq<Answer> { seq(n, k => Answer("", true, true)) }

  lemma {:induction false} AgreeingCount(n: nat)
    ensures AgreedCount(Agreeing(n)) == n
  {
    if n > 0 {
      assert Agreeing(n)[..n - 1] == Agreeing(n - 1);
      AgreeingCount(n - 1);
    }
  }

  function QuietInput(providers: seq<Answer>): TickInput
  {
    TickInput(0, 0, 0, providers, DevGuardianFile, "", "", "", "", seq(32, i => 0), 0, 0, "")
  }

  /** A replica that shows this earlier state. */
  lemma SeesPast(w: World, b: Base) returns (m: Moment)
    requires b in w.past
    ensures Seen(w, m) == b
  {
    var k :| 0 <= k < |w.past| && w.past[k] == b;
    m := Moment(0, |w.past| - k);
  }

  lemma StaleMoment(cfg: Config, w: World) returns (r: Level3Report, m: Moment)
    requires WorldInv(cfg, w) && w.accepted != []
    ensures Derived(cfg, r) && w.handoff == Some(HandoffOf(cfg))
    ensures TryOnReport(Seen(w, m), true, r).Ok? && TryOnReport(w.base, true, r).Err?
  {
    hide TryOnReport, WorldInv, Seen, Derived, HandoffOf;
    r := w.accepted[0];
    HandoffIs(cfg, w);
    TakenIsDerived(cfg, w);
    SecondReverts(cfg, w, r);
    var b :| b in w.past && TryOnReport(b, true, r).Ok?;
    m := SeesPast(w, b);
  }

  lemma HandoffIs(cfg: Config, w: World)
    requires WorldInv(cfg, w) && w.accepted != []
    ensures FindFinal(cfg.fixture.records).Some? && w.handoff == Some(HandoffOf(cfg))
  {
    hide HandoffOf, History, Truthful, TryOnReport, Taken, Derived, FindFinal, DerivedId;
  }

  lemma TakenIsDerived(cfg: Config, w: World)
    requires WorldInv(cfg, w) && w.accepted != []
    ensures Derived(cfg, w.accepted[0]) && exists b <- w.past :: TryOnReport(b, true, w.accepted[0]).Ok?
  {
    hide HandoffOf, History, Truthful, TryOnReport, Derived, DerivedId, IsHandoff;
    assert Taken(cfg, w, w.accepted[0]);
  }

  /** The second report is mined and reverts; the tick goes on. */
  lemma StaleMined(cfg: Config, s: System, r: Level3Report, i: TickInput, m: Moment) returns (t: System)
    requires cfg.attestorLive && s.attestor == Started(Deliver(cfg, r, i))
    requires TryOnReport(Seen(s.w, m), true, r).Ok? && TryOnReport(s.w.base, true, r).Err?
    ensures Reaches(cfg, s, [Advance(Attestor, m)], t, false)
    ensures t.w == s.w.(sent := s.w.sent + [r]) && t.attestor.todo == Deliver(cfg, r, i)[1..]
  {
    hide TryOnReport, Reaches, Seen, Deliver, Holds;
    DeliverShape(cfg, r, i);
    assert s.Of(Attestor) == s.attestor;
    t := Step(cfg, s, Attestor, m, false);
  }

  lemma StaleSend(cfg: Config, s: System) returns (moves: seq<Move>, t: System)
    requires WorldInv(cfg, s.w) && cfg.attestorLive && s.attestor.todo == []
    requires s.w.attestor.NotReported? && s.w.accepted != []
    ensures Reaches(cfg, s, moves, t, false)
    ensures t.w.attestor.Reported? && t.w.accepted == s.w.accepted && |t.w.sent| == |s.w.sent| + 1
  {
    hide TryOnReport, WorldInv, Reaches, Derived, Seen, Deliver, HandoffOf, AllFit, Guarded, Agreeing, QuietInput;
    var r, m := StaleMoment(cfg, s.w);
    var i := QuietInput(Agreeing(cfg.quorum));
    EnoughAgree(cfg, i);
    var ready;
    moves, ready := UpToSend(cfg, s, i, r);
    Relax(cfg, s, moves, ready);
    SameView(s.w, ready.w, m);
    var mined := StaleMined(cfg, ready, r, i, m);
    Follow(cfg, s, moves, ready, [Advance(Attestor, m)], mined, false);
    moves := moves + [Advance(Attestor, m)];
    DeliverRest(cfg, mined, r, i);
    var rest;
    rest, t := ReachSave(cfg, mined);
    Relax(cfg, mined, rest, t);
    Follow(cfg, s, moves, mined, rest, t, false);
    moves := moves + rest;
  }

  lemma EnoughAgree(cfg: Config, i: TickInput)
    requires i == QuietInput(Agreeing(cfg.quorum))
    ensures AgreedCount(i.providers) >= cfg.quorum
  {
    AgreeingCount(cfg.quorum);
  }

  lemma Relax(cfg: Config, s: System, moves: seq<Move>, t: System)
    requires Reaches(cfg, s, moves, t, true)
    ensures Reaches(cfg, s, moves, t, false)
  {
  }

  lemma SameView(w: World, next: World, m: Moment)
    requires next.base == w.base && next.past == w.past
    ensures Seen(next, m) == Seen(w, m)
  {
  }

  lemma DeliverRest(cfg: Config, s: System, r: Level3Report, i: TickInput)
    requires cfg.attestorLive && Derived(cfg, r) && s.attestor.todo == Deliver(cfg, r, i)[1..]
    ensures AllFit(cfg, s.w, Attestor, s.attestor.todo) && !Guarded(SaveRule, false, s.attestor.todo)
  {
    hide Level3, HandoffOf;
    assert Needs(SaveRule, s.attestor.todo[2]) && NoneOpens(SaveRule, s.attestor.todo, 2);
    HoldsIff(SaveRule, s.attestor.todo);
  }

  /** PROMPTNESS IS NEEDED: if a replica still behind the accepted report answers the gas estimate, the
      second report is mined, reverts, and the attestor says "reported" after all, because it never
      looks at a receipt's status. From every state after an accepted report some run does this. */
  lemma StaleSendReports(cfg: Config, base: Base, before: seq<Move>) returns (after: seq<Move>)
    requires BaseContracts.Inv(cfg.d, base) && AllAllowed(before) && cfg.attestorLive
    requires var w := Run(cfg, Beginning(base), before).w; w.attestor.NotReported? && w.accepted != []
    ensures AllAllowed(after)
    ensures var s, t := Run(cfg, Beginning(base), before), Run(cfg, Run(cfg, Beginning(base), before), after);
            t.w.attestor.Reported? && t.w.accepted == s.w.accepted && |t.w.sent| == |s.w.sent| + 1
  {
    hide Run, SafetyInv, WorldInv, Reaches, PromptRun, BaseContracts.Inv;
    BeginningIsSafe(cfg, base);
    RunIsSafe(cfg, Beginning(base), before);
    var s := Run(cfg, Beginning(base), before);
    SafeWorld(cfg, s);
    var idle := Next(cfg, s, Crash(Attestor));
    OneMove(cfg, s, Crash(Attestor), false);
    var rest, t := StaleSend(cfg, idle);
    Follow(cfg, s, [Crash(Attestor)], idle, rest, t, false);
    after := [Crash(Attestor)] + rest;
    Unpack(cfg, s, after, t);
  }

  lemma Unpack(cfg: Config, s: System, moves: seq<Move>, t: System)
    requires Reaches(cfg, s, moves, t, false)
    ensures AllAllowed(moves) && Run(cfg, s, moves) == t
  {
  }
}
