/** What the workflows may have told Base and the control room, in every run of theirs. */
module WorkflowSafety {
  import opened Bytes
  import opened BaseContracts
  import opened Lanes
  import opened Workflows
  import opened WorkflowRuns
  import Digests
  import PB = ProofBuffer
  import Payload
  import Quorum
  import R = Reducer
  import SolanaTx
  import Vaas

  /** The one report this fixture and its handoff derive, if they derive one. */
  predicate Derived(cfg: Config, r: Level3Report) {
    FindFinal(cfg.fixture.records).Some? && Level3(cfg.setup, cfg.fixture, HandoffOf(cfg), true) == Ok(r)
  }

  predicate DerivedId(cfg: Config, id: bytes32) {
    && FindFinal(cfg.fixture.records).Some?
    && var l3 := Level3(cfg.setup, cfg.fixture, HandoffOf(cfg), true);
    l3.Ok? && l3.value.attestationId == id
  }

  predicate IsHandoff(cfg: Config, h: Handoff) { FindFinal(cfg.fixture.records).Some? && h == HandoffOf(cfg) }

  function FixtureNumber(cfg: Config): Option<int> { cfg.setup.bigInt(cfg.fixture.fixtureId) }

  predicate IsDual(w: World, f: int) { RowOf(w.base.registry, f).status == DualFinalized }

  predicate ReportedId(w: World, id: bytes32) { w.level3Report.Some? && w.level3Report.value.attestationId == id }

  /** What each process may still have to do. */
  predicate Fits(cfg: Config, w: World, who: Who, a: Action) {
    match a
    case Emit(e, simulated) =>
      && (e.DualFinalityReached? ==> who == Executor && simulated && ReportedId(w, e.attestationId))
      && (e.ConsumerSettled? ==> simulated || w.base.winningOutcome.Some?)
    case SaveDispatch(_) => who == Dispatch
    case InitBuffer(_) => who == Dispatch
    case AppendChunk(_, _) => who == Dispatch
    case SealBuffer(_, _) => who == Dispatch
    case WriteHandoff(h) => who == Dispatch && IsHandoff(cfg, h)
    case SendReport(r) => who == Attestor && cfg.attestorLive && Derived(cfg, r) && w.handoff.Some?
    case WriteLevel3Report(r) => who == Attestor && Derived(cfg, r)
    case SaveAttestor(s) => who == Attestor && s.Reported? && DerivedId(cfg, s.attestationId)
    case PollRegistry(_, f, _) => who == Executor && FixtureNumber(cfg) == Some(f)
    case AnnounceDual(f) => who == Executor && FixtureNumber(cfg) == Some(f) && IsDual(w, f)
    case SaveExecutor(_) => who == Executor && w.handoff.Some?
    case _ => who == Executor
  }

  predicate AllFit(cfg: Config, w: World, who: Who, todo: seq<Action>) { forall a <- todo :: Fits(cfg, w, who, a) }

  /** A simulated dual finality names the id in the Level 3 report file; a live one is the registry's
      verdict with the proof lane's id, or no id where the replica of the second read was behind. */
  predicate Truthful(cfg: Config, w: World, re: R.RunEvent) {
    match re.event
    case DualFinalityReached(id) =>
      if re.simulated then ReportedId(w, id)
      else
        && FixtureNumber(cfg).Some? && IsDual(w, FixtureNumber(cfg).value)
        && var level4 := RowOf(w.base.registry, FixtureNumber(cfg).value).level4;
        level4.Some? && id in [level4.value.attestationId, seq(32, i => 0)]
    case ConsumerSettled(_) => re.simulated || w.base.winningOutcome.Some?
    case _ => true
  }

  /** The receiver took this report and still shows it. */
  predicate Taken(cfg: Config, w: World, r: Level3Report) {
    Derived(cfg, r) && r.fixtureId in w.base.level3 && w.base.level3[r.fixtureId] == r &&
    r.attestationId in w.base.consumedAttestations
  }

  /** Every earlier state of Base was sound and has since only advanced. */
  ghost predicate History(d: Deployment, w: World) {
    BaseContracts.Inv(d, w.base) && forall b <- w.past :: BaseContracts.Inv(d, b) && Advances(b, w.base)
  }

  /** Only derived reports are ever mined; at most one was accepted, from a state before this one. */
  ghost predicate Reports(cfg: Config, w: World) {
    && (forall r <- w.sent :: Derived(cfg, r))
    && |w.accepted| <= 1 && (forall r <- w.accepted :: Taken(cfg, w, r))
    && (w.accepted != [] ==> w.sent != [])
    && (w.sent != [] ==> w.handoff.Some?)
    && (forall r <- w.accepted :: exists b <- w.past :: TryOnReport(b, true, r).Ok?)
  }

  ghost predicate WorldInv(cfg: Config, w: World) {
    && History(cfg.d, w) && Reports(cfg, w)
    && (w.handoff.Some? ==> IsHandoff(cfg, w.handoff.value))
    && (w.level3Report.Some? ==> Derived(cfg, w.level3Report.value))
    && (w.attestor.Reported? ==> DerivedId(cfg, w.attestor.attestationId) && (cfg.attestorLive ==> w.sent != []))
    && (w.executor.Submitted? ==> w.handoff.Some?)
    && (forall re <- w.stream :: Truthful(cfg, w, re))
  }

  ghost predicate SafetyInv(cfg: Config, s: System) {
    && WorldInv(cfg, s.w)
    && (forall who :: AllFit(cfg, s.w, who, s.Of(who).todo))
    && (cfg.attestorLive ==> Guarded(SaveRule, s.w.sent != [], s.attestor.todo))
  }

  /** What never goes away. */
  ghost predicate Evolves(w: World, next: World) {
    && Advances(w.base, next.base)
    && (w.handoff.Some? ==> next.handoff == w.handoff)
    && (w.level3Report.Some? ==> next.level3Report == w.level3Report)
    && w.accepted <= next.accepted && w.sent <= next.sent
  }

  lemma DualStays(w: World, next: World, f: int)
    requires Evolves(w, next) && IsDual(w, f)
    ensures IsDual(next, f) && RowOf(next.base.registry, f) == RowOf(w.base.registry, f)
  {
    hide RowOf;
    assert RowAdvances(RowOf(w.base.registry, f), RowOf(next.base.registry, f));
  }

  lemma FitsLater(cfg: Config, w: World, next: World, who: Who, todo: seq<Action>)
    requires Evolves(w, next) && AllFit(cfg, w, who, todo)
    ensures AllFit(cfg, next, who, todo)
  {
    hide IsDual, Derived, DerivedId, IsHandoff, FixtureNumber;
    forall a <- todo
      ensures Fits(cfg, next, who, a)
    {
      assert Fits(cfg, w, who, a);
      if a.AnnounceDual? { DualStays(w, next, a.fixtureId); }
    }
  }

  lemma TruthfulLater(cfg: Config, w: World, next: World)
    requires Evolves(w, next) && forall re <- w.stream :: Truthful(cfg, w, re)
    ensures forall re <- w.stream :: Truthful(cfg, next, re)
  {
    hide IsDual, FixtureNumber, RowOf;
    forall re <- w.stream
      ensures Truthful(cfg, next, re)
    {
      assert Truthful(cfg, w, re);
      if re.event.DualFinalityReached? && !re.simulated { DualStays(w, next, FixtureNumber(cfg).value); }
    }
  }

  // -------------------------------------------------------------------------
  // One action
  // -------------------------------------------------------------------------

  lemma SameWorldEvolves(w: World)
    ensures Evolves(w, w)
  {
    BaseContracts.Stays(w.base);
  }

  lemma AppendKeeps(cfg: Config, w: World, e: R.Event, simulated: bool, m: Moment)
    requires WorldInv(cfg, w) && Truthful(cfg, w, R.RunEvent(|w.stream|, m.now, simulated, e))
    ensures WorldInv(cfg, Append(w, e, simulated, m)) && Evolves(w, Append(w, e, simulated, m))
  {
    hide Derived, DerivedId, IsHandoff, BaseContracts.Inv, RowOf, TryOnReport, Advances;
    var next := Append(w, e, simulated, m);
    SameWorldEvolves(w);
    forall re <- next.stream
      ensures Truthful(cfg, next, re)
    {
      assert re in w.stream || re == R.RunEvent(|w.stream|, m.now, simulated, e);
      assert Truthful(cfg, w, re);
    }
  }

  lemma MinedHistory(d: Deployment, w: World, base: Base)
    requires History(d, w) && BaseContracts.Inv(d, base) && Advances(w.base, base)
    ensures History(d, Mined(w, base))
  {
    hide Advances, BaseContracts.Inv;
    forall b <- w.past
      ensures Advances(b, base)
    {
      AdvancesOn(b, w.base, base);
    }
  }

  /** A replica shows the current state or an earlier one. */
  lemma SeenAdvances(d: Deployment, w: World, m: Moment)
    requires History(d, w)
    ensures BaseContracts.Inv(d, Seen(w, m)) && Advances(Seen(w, m), w.base) && Seen(w, m) in w.past + [w.base]
  {
    hide Advances, BaseContracts.Inv;
    BaseContracts.Stays(w.base);
  }

  lemma SeenRow(d: Deployment, w: World, m: Moment, f: int)
    requires History(d, w)
    ensures RowAdvances(RowOf(Seen(w, m).registry, f), RowOf(w.base.registry, f))
    ensures Stored(Seen(w, m), f)
  {
    hide RowOf, Seen;
    SeenAdvances(d, w, m);
  }

  /** Someone else's transaction, or the executor's own. */
  lemma BaseKeeps(cfg: Config, w: World, tx: Tx)
    requires WorldInv(cfg, w) && Allowed(Outside(tx))
    ensures var next := Mined(w, AfterTx(cfg.d, w.base, tx)); WorldInv(cfg, next) && Evolves(w, next)
  {
    hide Truthful, Derived, DerivedId, IsHandoff, BaseContracts.Inv, AfterTx, Advances, TryOnReport, History;
    var next := Mined(w, AfterTx(cfg.d, w.base, tx));
    HistoryBase(cfg.d, w);
    TxKeeps(cfg.d, w.base, tx);
    MinedHistory(cfg.d, w, AfterTx(cfg.d, w.base, tx));
    ForwarderOnly(cfg.d, w.base, tx);
    TruthfulLater(cfg, w, next);
    ReportsLater(cfg, w, next);
  }

  lemma HistoryBase(d: Deployment, w: World)
    requires History(d, w)
    ensures BaseContracts.Inv(d, w.base)
  {
  }

  lemma ReportsLater(cfg: Config, w: World, next: World)
    requires Reports(cfg, w) && next.sent == w.sent && next.accepted == w.accepted && w.past <= next.past
    requires next.base.level3 == w.base.level3 && next.base.consumedAttestations == w.base.consumedAttestations
    requires w.handoff.Some? ==> next.handoff.Some?
    ensures Reports(cfg, next)
  {
    hide Derived, TryOnReport;
    forall r <- next.accepted
      ensures exists b <- next.past :: TryOnReport(b, true, r).Ok?
    {
      var b :| b in w.past && TryOnReport(b, true, r).Ok?;
      assert b in next.past;
    }
    assert forall r <- w.accepted :: Taken(cfg, w, r);
  }

  lemma ForwarderOnly(d: Deployment, b: Base, tx: Tx)
    requires Allowed(Outside(tx))
    ensures AfterTx(d, b, tx).level3 == b.level3 && AfterTx(d, b, tx).consumedAttestations == b.consumedAttestations
  {
    hide TryPut, Vaas.Decode, Payload.Decode, Quorum.HasQuorum, OnChainId, Digests.SigningDigest;
  }

  /** A report that was taken is refused the second time. */
  lemma SecondReverts(cfg: Config, w: World, r: Level3Report)
    requires WorldInv(cfg, w) && Derived(cfg, r) && w.accepted != []
    ensures TryOnReport(w.base, true, r) == Err(AlreadyConsumed)
  {
    hide BaseContracts.Inv, Truthful, HandoffOf, Level3, Advances;
    assert Taken(cfg, w, w.accepted[0]);
  }

  lemma ReportKeeps(cfg: Config, w: World, r: Level3Report)
    requires WorldInv(cfg, w) && Derived(cfg, r) && w.handoff.Some?
    requires w.accepted == [] && TryOnReport(w.base, true, r).Ok?
    ensures var next := Mined(w, TryOnReport(w.base, true, r).value).(sent := w.sent + [r],
                                                                      accepted := w.accepted + [r]);
            WorldInv(cfg, next) && Evolves(w, next)
  {
    hide Truthful, Derived, DerivedId, IsHandoff, BaseContracts.Inv, Advances, TryOnReport, AfterTx, History;
    var base := TryOnReport(w.base, true, r).value;
    var next := Mined(w, base).(sent := w.sent + [r], accepted := w.accepted + [r]);
    HistoryBase(cfg.d, w);
    TxKeeps(cfg.d, w.base, OnReport(true, r));
    AcceptedIs(cfg.d, w.base, r);
    MinedHistory(cfg.d, w, base);
    SameHistory(cfg.d, Mined(w, base), next);
    TruthfulLater(cfg, w, next);
    assert w.base in next.past;
    assert Taken(cfg, next, r);
  }

  lemma AcceptedIs(d: Deployment, b: Base, r: Level3Report)
    requires TryOnReport(b, true, r).Ok?
    ensures var next := TryOnReport(b, true, r).value;
            && AfterTx(d, b, OnReport(true, r)) == next && r.fixtureId in next.level3 && next.level3[r.fixtureId] == r
            && r.attestationId in next.consumedAttestations
  {
    hide TryPut;
  }

  lemma SameHistory(d: Deployment, w: World, next: World)
    requires History(d, w) && next.base == w.base && next.past == w.past
    ensures History(d, next)
  {
    hide Advances, BaseContracts.Inv;
  }

  /** A mined report that reverted. */
  lemma RevertKeeps(cfg: Config, w: World, r: Level3Report)
    requires WorldInv(cfg, w) && Derived(cfg, r) && w.handoff.Some?
    ensures var next := w.(sent := w.sent + [r]); WorldInv(cfg, next) && Evolves(w, next)
  {
    hide Truthful, Derived, DerivedId, IsHandoff, BaseContracts.Inv, Advances, TryOnReport, Taken;
    var next := w.(sent := w.sent + [r]);
    BaseContracts.Stays(w.base);
    TruthfulLater(cfg, w, next);
    assert forall x <- w.accepted :: Taken(cfg, w, x) ==> Taken(cfg, next, x) by { TakenSame(cfg, w, next); }
  }

  lemma TakenSame(cfg: Config, w: World, next: World)
    requires next.base == w.base
    ensures forall x :: Taken(cfg, w, x) <==> Taken(cfg, next, x)
  {
    hide Derived;
  }

  /** The actions that only write a file. */
  lemma SaveKeeps(cfg: Config, w: World, next: World)
    requires WorldInv(cfg, w)
    requires next ==
             w.(buffers := next.buffers, dispatch := next.dispatch, handoff := next.handoff, attestor := next.attestor,
                        level3Report := next.level3Report, executor := next.executor)
    requires next.handoff == w.handoff || (next.handoff.Some? && IsHandoff(cfg, next.handoff.value))
    requires next.level3Report == w.level3Report || (next.level3Report.Some? && Derived(cfg, next.level3Report.value))
    requires next.attestor.Reported? ==>
               DerivedId(cfg, next.attestor.attestationId) && (cfg.attestorLive ==> w.sent != [])
    requires next.executor.Submitted? ==> w.handoff.Some?
    ensures WorldInv(cfg, next) && Evolves(w, next)
  {
    hide Truthful, DerivedId, BaseContracts.Inv, HandoffOf, Level3, Advances, TryOnReport, Taken, Reports, History;
    BaseContracts.Stays(w.base);
    TruthfulLater(cfg, w, next);
    ReportsLater(cfg, w, next);
    SameHistory(cfg.d, w, next);
  }

  lemma AnnounceTruthful(cfg: Config, w: World, f: int, m: Moment)
    requires WorldInv(cfg, w) && FixtureNumber(cfg) == Some(f) && IsDual(w, f)
    ensures Truthful(cfg, w, R.RunEvent(|w.stream|, m.now, false, R.DualFinalityReached(ReadLevel4Id(Seen(w, m), f))))
  {
    hide Derived, DerivedId, IsHandoff, RowOf, Seen, History, Reports;
    SeenRow(cfg.d, w, m, f);
    HistoryRow(cfg.d, w, f);
  }

  lemma HistoryRow(d: Deployment, w: World, f: int)
    requires History(d, w)
    ensures Stored(w.base, f)
  {
    hide Advances;
  }

  /** A settlement that passed its estimate is one when it is mined, its own or an earlier one. */
  lemma SettleWins(cfg: Config, w: World, m: Moment)
    requires History(cfg.d, w) && TrySettle(cfg.d, Seen(w, m)).Ok?
    ensures match TrySettle(cfg.d, w.base)
            case Ok(b) => AfterTx(cfg.d, w.base, Settle) == b && b.winningOutcome.Some?
            case Err(_) => w.base.winningOutcome.Some?
  {
    hide Seen, RowOf;
    SeenRow(cfg.d, w, m, cfg.d.marketFixture);
  }

  lemma PolledDual(cfg: Config, w: World, m: Moment, f: int)
    requires History(cfg.d, w) && RowOf(Seen(w, m).registry, f).status == DualFinalized
    ensures IsDual(w, f)
  {
    hide Seen, RowOf, History;
    SeenRow(cfg.d, w, m, f);
  }

  /** The world after one action. */
  lemma DoKeepsWorld(cfg: Config, w: World, p: Proc, m: Moment, who: Who)
    requires p.todo != [] && WorldInv(cfg, w) && Fits(cfg, w, who, p.todo[0])
    requires cfg.attestorLive && p.todo[0].SaveAttestor? ==> w.sent != []
    ensures WorldInv(cfg, Do(cfg, w, p, m).0) && Evolves(w, Do(cfg, w, p, m).0)
  {
    hide WorldInv, Evolves, Derived, DerivedId, IsHandoff, RowOf, TryOnReport, TrySettle, TrySubmit, Append, Mined,
         Seen,
         ReadLevel4Id, PB.AfterInit, PB.TryAppend, PB.TrySeal;
    SameWorldEvolves(w);
    WorldHistory(cfg, w);
    match p.todo[0]
    case Emit(e, simulated) => AppendKeeps(cfg, w, e, simulated, m);
    case SaveDispatch(s) => FileKeeps(cfg, w, p, m, who);
    case InitBuffer(_) => FileKeeps(cfg, w, p, m, who);
    case AppendChunk(_, _) => FileKeeps(cfg, w, p, m, who);
    case SealBuffer(_, _) => FileKeeps(cfg, w, p, m, who);
    case WriteHandoff(h) => FileKeeps(cfg, w, p, m, who);
    case SendReport(r) =>
      if TryOnReport(w.base, true, r).Err? { RevertKeeps(cfg, w, r); }
      else {
        if w.accepted != [] { SecondReverts(cfg, w, r); }
        ReportKeeps(cfg, w, r);
      }
    case WriteLevel3Report(r) => FileKeeps(cfg, w, p, m, who);
    case SaveAttestor(s) => FileKeeps(cfg, w, p, m, who);
    case SendVaa(v) =>
      BaseKeeps(cfg, w, SubmitVaa(v));
      SubmittedIs(cfg.d, w.base, v);
    case PollRegistry(attempts, f, hash) =>
    case AnnounceDual(f) =>
      AnnounceTruthful(cfg, w, f, m);
      AppendKeeps(cfg, w, R.DualFinalityReached(ReadLevel4Id(Seen(w, m), f)), false, m);
    case CheckMarket(hash) =>
    case SendSettle(hash) =>
      if TrySettle(cfg.d, Seen(w, m)).Ok? {
        SettleWins(cfg, w, m);
        BaseKeeps(cfg, w, Settle);
      }
    case Reconcile(id, hash, reason) =>
    case SaveExecutor(s) => FileKeeps(cfg, w, p, m, who);
  }

  lemma WorldHistory(cfg: Config, w: World)
    requires WorldInv(cfg, w)
    ensures History(cfg.d, w) && Reports(cfg, w)
  {
  }

  lemma SubmittedIs(d: Deployment, b: Base, vaaBytes: bytes)
    ensures AfterTx(d, b, SubmitVaa(vaaBytes)) == match TrySubmit(d, b, vaaBytes) case Ok(next) => next case Err(_) => b
  {
    hide TrySubmit;
  }

  lemma FileKeeps(cfg: Config, w: World, p: Proc, m: Moment, who: Who)
    requires p.todo != [] && WorldInv(cfg, w) && Fits(cfg, w, who, p.todo[0])
    requires var a := p.todo[0];
             || a.SaveDispatch? || a.InitBuffer? || a.AppendChunk? || a.SealBuffer? || a.WriteHandoff?
             || a.WriteLevel3Report? || a.SaveAttestor? || a.SaveExecutor?
    requires cfg.attestorLive && p.todo[0].SaveAttestor? ==> w.sent != []
    ensures WorldInv(cfg, Do(cfg, w, p, m).0) && Evolves(w, Do(cfg, w, p, m).0)
  {
    hide Evolves, Truthful, Taken, Derived, DerivedId, IsHandoff, RowOf, History, Reports, PB.AfterInit, PB.TryAppend,
         PB.TrySeal;
    SaveKeeps(cfg, w, Do(cfg, w, p, m).0);
  }

  /** What is left to do still fits the world after the action. */
  lemma DoKeepsFit(cfg: Config, w: World, p: Proc, m: Moment, who: Who)
    requires p.todo != [] && AllFit(cfg, w, who, p.todo) && History(cfg.d, w) && Evolves(w, Do(cfg, w, p, m).0)
    ensures AllFit(cfg, Do(cfg, w, p, m).0, who, Do(cfg, w, p, m).1.todo)
  {
    hide Evolves, Derived, DerivedId, IsHandoff, IsDual, TryOnReport, TrySubmit, TrySettle, Append, Seen, History,
         RowOf,
         PB.AfterInit, PB.TryAppend, PB.TrySeal;
    var (w', p') := Do(cfg, w, p, m);
    var a, rest := p.todo[0], p.todo[1..];
    assert Fits(cfg, w, who, a);
    assert AllFit(cfg, w, who, rest);
    FitsLater(cfg, w, w', who, rest);
    if a.SendSettle? && TrySettle(cfg.d, Seen(w, m)).Ok? { SettleWins(cfg, w, m); }
    if a.PollRegistry? && RowOf(Seen(w, m).registry, a.fixtureId).status == DualFinalized {
      PolledDual(cfg, w, m, a.fixtureId);
    }
    forall b <- p'.todo
      ensures Fits(cfg, w', who, b)
    {
    }
  }

  lemma DoKeepsGuard(cfg: Config, w: World, p: Proc, m: Moment)
    requires p.todo != [] && cfg.attestorLive && Guarded(SaveRule, w.sent != [], p.todo)
    requires AllFit(cfg, w, Attestor, p.todo)
    ensures var (w', p') := Do(cfg, w, p, m); Guarded(SaveRule, w'.sent != [], p'.todo)
  {
    hide TryOnReport, RowOf, Derived, DerivedId, FixtureNumber, IsHandoff, Seen;
    assert Fits(cfg, w, Attestor, p.todo[0]);
  }

  // -------------------------------------------------------------------------
  // One tick
  // -------------------------------------------------------------------------

  lemma DispatchFits(cfg: Config, w: World, i: TickInput)
    ensures AllFit(cfg, w, Dispatch, DispatchTick(cfg, w, i))
  {
    hide Stage, FindFinal, Final, IsDual, Derived, DerivedId;
    if FindFinal(cfg.fixture.records).Some? { StageFits(cfg, w, i); }
  }

  lemma StageFits(cfg: Config, w: World, i: TickInput)
    requires FindFinal(cfg.fixture.records).Some?
    ensures AllFit(cfg, w, Dispatch, Stage(cfg, i))
  {
    hide DailyRootFor, HandoffOf, BufferAddress, FindFinal, Final, IsDual, Derived, DerivedId, Upload;
    if cfg.chunkSize > 0 { UploadFits(cfg, w, i); }
  }

  lemma UploadFits(cfg: Config, w: World, i: TickInput)
    requires FindFinal(cfg.fixture.records).Some? && cfg.chunkSize > 0
    ensures AllFit(cfg, w, Dispatch, Upload(cfg, i))
  {
    hide HandoffOf, BufferAddress, BufferChunks, FindFinal, IsDual, Derived, DerivedId;
    assert forall a <- Appends(BufferAddress(cfg), BufferChunks(cfg)) :: Fits(cfg, w, Dispatch, a);
  }

  /** What the attestor delivers is what Level 3 derives. */
  lemma DeliversDerived(cfg: Config, decoded: SolanaTx.DecodedTx)
    requires FindFinal(cfg.fixture.records).Some? && HandoffOf(cfg).fixturePath.Some?
    requires CheckedTx(cfg.setup, cfg.fixture, HandoffOf(cfg), Final(cfg.fixture)) == Ok(decoded)
    requires Level3Derive(cfg.setup, cfg.fixture, HandoffOf(cfg), Final(cfg.fixture), decoded).Ok?
    ensures Derived(cfg, Level3Derive(cfg.setup, cfg.fixture, HandoffOf(cfg), Final(cfg.fixture), decoded).value)
  {
    hide CheckedTx, Level3Derive, HandoffOf;
  }

  lemma DeliverFits(cfg: Config, w: World, r: Level3Report, i: TickInput)
    requires Derived(cfg, r) && w.handoff.Some?
    ensures AllFit(cfg, w, Attestor, Deliver(cfg, r, i))
    ensures cfg.attestorLive ==> Guarded(SaveRule, false, Deliver(cfg, r, i))
  {
    hide IsDual, HandoffOf, Level3;
    var todo := Deliver(cfg, r, i);
    if cfg.attestorLive {
      assert todo[0] == SendReport(r);
      assert Guarded(SaveRule, true, [SaveAttestor(Reported(r.attestationId))]) by {
        assert [SaveAttestor(Reported(r.attestationId))][1..] == [];
      }
      GuardedFree(SaveRule, true, todo[1..3], [SaveAttestor(Reported(r.attestationId))]);
      assert todo[1..] == todo[1..3] + [SaveAttestor(Reported(r.attestationId))];
    }
  }

  lemma AttestFits(cfg: Config, w: World, i: TickInput)
    requires FindFinal(cfg.fixture.records).Some? && w.handoff.Some?
    ensures AllFit(cfg, w, Attestor, Attest(cfg, HandoffOf(cfg), i))
    ensures cfg.attestorLive ==> Guarded(SaveRule, false, Attest(cfg, HandoffOf(cfg), i))
  {
    hide CheckedTx, Level3Derive, HandoffOf, Deliver, Derived, AgreedCount, Announced, FindFinal, Final, AllFit,
         Guarded;
    var h, todo := HandoffOf(cfg), Attest(cfg, HandoffOf(cfg), i);
    ProviderEventsOnly(i, 0);
    var checked := CheckedTx(cfg.setup, cfg.fixture, h, Final(cfg.fixture));
    if h.fixturePath.Some? && checked.Ok? && AgreedCount(i.providers) >= cfg.quorum
       && Level3Derive(cfg.setup, cfg.fixture, h, Final(cfg.fixture), checked.value).Ok?
    {
      var report := Level3Derive(cfg.setup, cfg.fixture, h, Final(cfg.fixture), checked.value).value;
      DeliversDerived(cfg, checked.value);
      DeliverFits(cfg, w, report, i);
      FitConcat(cfg, w, ProviderEvents(i, 0), Deliver(cfg, report, i));
    } else {
      OnlyEvents(cfg, w, todo);
    }
  }

  predicate HarmlessEvent(a: Action) { a.Emit? && !a.event.DualFinalityReached? && !a.event.ConsumerSettled? }

  lemma OnlyEvents(cfg: Config, w: World, todo: seq<Action>)
    requires forall a <- todo :: HarmlessEvent(a)
    ensures AllFit(cfg, w, Attestor, todo) && Guarded(SaveRule, false, todo)
  {
    GuardedWhole(SaveRule, false, todo);
  }

  lemma FitConcat(cfg: Config, w: World, events: seq<Action>, rest: seq<Action>)
    requires forall a <- events :: HarmlessEvent(a)
    requires AllFit(cfg, w, Attestor, rest) && (cfg.attestorLive ==> Guarded(SaveRule, false, rest))
    ensures AllFit(cfg, w, Attestor, events + rest) && (cfg.attestorLive ==> Guarded(SaveRule, false, events + rest))
  {
    hide Derived, DerivedId, IsDual;
    if cfg.attestorLive { GuardedFree(SaveRule, false, events, rest); }
    forall a <- events + rest
      ensures Fits(cfg, w, Attestor, a)
    {
      assert a in events || a in rest;
    }
  }

  lemma BuiltFixture(cfg: Config, h: Handoff, r: ScoreRecord)
    requires h.wormhole.Some? && Level4Build(cfg.setup, cfg.fixture, h, r).Ok?
    ensures FixtureNumber(cfg) == Some(Level4Build(cfg.setup, cfg.fixture, h, r).value.outcome.fixtureId)
  {
    hide Key, ProofBundle, PredicateOf, IdOf, Level4VectorOk, Payload.Layout;
  }

  lemma SubmitFits(cfg: Config, w: World, built: Built, res: Level4Result, i: TickInput)
    requires w.handoff.Some? && FixtureNumber(cfg) == Some(built.outcome.fixtureId)
    ensures AllFit(cfg, w, Executor, Submit(cfg, built, res, i))
  {
    hide IsDual, FixtureNumber, Derived, DerivedId, IsHandoff;
  }

  lemma Concat(cfg: Config, w: World, a: seq<Action>, b: seq<Action>)
    requires AllFit(cfg, w, Executor, a) && AllFit(cfg, w, Executor, b)
    ensures AllFit(cfg, w, Executor, a + b)
  {
    hide Fits;
  }

  lemma PublishedFits(cfg: Config, w: World, h: Handoff, built: Built, i: TickInput)
    requires w.handoff.Some? && h.wormhole.Some? && FixtureNumber(cfg) == Some(built.outcome.fixtureId)
    ensures AllFit(cfg, w, Executor, Published(cfg, h, built, i))
  {
    hide FetchVaa, Level4Accept, Announced, Submit, AllFit;
    HarmlessFit(cfg, w);
    if FetchVaa(cfg.setup, i.vaaSource, built).Ok? {
      var accept := Level4Accept(cfg.setup, built, FetchVaa(cfg.setup, i.vaaSource, built).value);
      if accept.Ok? {
        SubmitFits(cfg, w, built, accept.value, i);
        Concat(cfg, w, [Published(cfg, h, built, i)[1]], Submit(cfg, built, accept.value, i));
      }
    }
    Concat(cfg, w, [Published(cfg, h, built, i)[0]], Published(cfg, h, built, i)[1..]);
    assert Published(cfg, h, built, i) == [Published(cfg, h, built, i)[0]] + Published(cfg, h, built, i)[1..];
  }

  lemma HarmlessFit(cfg: Config, w: World)
    ensures AllFit(cfg, w, Executor, [])
    ensures forall a: Action :: HarmlessEvent(a) ==> AllFit(cfg, w, Executor, [a])
  {
  }

  lemma ExecuteFits(cfg: Config, w: World, i: TickInput)
    requires w.handoff.Some?
    ensures AllFit(cfg, w, Executor, Execute(cfg, w.handoff.value, i))
  {
    hide Level4Checked, Level4Build, Published, Announced, AllFit, FixtureNumber;
    var h := w.handoff.value;
    var checked, todo := Level4Checked(cfg.setup, cfg.fixture, h), Execute(cfg, w.handoff.value, i);
    HarmlessFit(cfg, w);
    if checked.Ok? {
      if h.wormhole.Some? && Level4Build(cfg.setup, cfg.fixture, h, checked.value).Ok? {
        BuiltFixture(cfg, h, checked.value);
        PublishedFits(cfg, w, h, Level4Build(cfg.setup, cfg.fixture, h, checked.value).value, i);
      }
      Concat(cfg, w, [todo[0]], todo[1..]);
      assert todo == [todo[0]] + todo[1..];
    }
  }

  lemma HandoffFixture(cfg: Config, h: Handoff)
    requires IsHandoff(cfg, h)
    ensures h.fixtureId == cfg.fixture.fixtureId
  {
  }

  lemma ResumeFits(cfg: Config, w: World, i: TickInput)
    requires w.executor.Submitted? && w.handoff.Some? && IsHandoff(cfg, w.handoff.value)
    ensures AllFit(cfg, w, Executor, Resume(cfg, w, i))
  {
    HandoffFixture(cfg, w.handoff.value);
    hide IsDual, Derived, DerivedId, IsHandoff;
  }

  lemma ExecutorBeat(cfg: Config, w: World, i: TickInput)
    requires w.executor.Submitted? ==> AllFit(cfg, w, Executor, Resume(cfg, w, i))
    requires !w.executor.Submitted? && w.handoff.Some? ==> AllFit(cfg, w, Executor, Execute(cfg, w.handoff.value, i))
    ensures AllFit(cfg, w, Executor, ExecutorTick(cfg, w, i))
  {
    hide Resume, Execute, IsDual, Derived, DerivedId;
  }

  lemma TickFits(cfg: Config, who: Who, w: World, i: TickInput)
    requires WorldInv(cfg, w)
    ensures AllFit(cfg, w, who, Tick(cfg, who, w, i))
    ensures cfg.attestorLive && who == Attestor ==> Guarded(SaveRule, false, Tick(cfg, who, w, i))
  {
    hide DispatchTick, Attest, Execute, Resume, History, Reports, Truthful, Derived, DerivedId, AllFit, Guarded,
         HandoffOf;
    var beat := Heartbeat(i);
    match who
    case Dispatch => DispatchFits(cfg, w, i);
    case Attestor =>
      var body := if w.attestor.Reported? || w.handoff == None then [] else Attest(cfg, w.handoff.value, i);
      OnlyEvents(cfg, w, []);
      if body != [] { AttestFits(cfg, w, i); }
      FitConcat(cfg, w, beat, body);
    case Executor =>
      if w.executor.Submitted? { ResumeFits(cfg, w, i); }
      else if w.handoff.Some? { ExecuteFits(cfg, w, i); }
      ExecutorBeat(cfg, w, i);
  }

  // -------------------------------------------------------------------------
  // Every run
  // -------------------------------------------------------------------------

  lemma NothingFits(cfg: Config, w: World, who: Who)
    ensures AllFit(cfg, w, who, IDLE.todo) && Guarded(SaveRule, false, IDLE.todo)
  {
  }

  lemma AdvanceKeeps(cfg: Config, s: System, who: Who, m: Moment)
    requires SafetyInv(cfg, s) && s.Of(who).todo != []
    ensures var (w', p') := Do(cfg, s.w, s.Of(who), m);
            && WorldInv(cfg, w') && Evolves(s.w, w') && AllFit(cfg, w', who, p'.todo)
            && (cfg.attestorLive && who == Attestor ==> Guarded(SaveRule, w'.sent != [], p'.todo))
  {
    hide WorldInv, Do, Evolves;
    var p := s.Of(who);
    assert AllFit(cfg, s.w, who, p.todo);
    HeadMaySave(cfg, s, who);
    WorldHistory(cfg, s.w);
    DoKeepsWorld(cfg, s.w, p, m, who);
    DoKeepsFit(cfg, s.w, p, m, who);
    if cfg.attestorLive && who == Attestor { DoKeepsGuard(cfg, s.w, p, m); }
  }

  lemma HeadMaySave(cfg: Config, s: System, who: Who)
    requires s.Of(who).todo != [] && AllFit(cfg, s.w, who, s.Of(who).todo)
    requires cfg.attestorLive ==> Guarded(SaveRule, s.w.sent != [], s.attestor.todo)
    ensures Fits(cfg, s.w, who, s.Of(who).todo[0])
    ensures cfg.attestorLive && s.Of(who).todo[0].SaveAttestor? ==> s.w.sent != []
  {
    hide Derived, DerivedId, IsHandoff, IsDual, FixtureNumber;
    assert Fits(cfg, s.w, who, s.Of(who).todo[0]);
  }

  /** Every move keeps the invariant and loses nothing. */
  lemma NextKeepsSafety(cfg: Config, s: System, m: Move)
    requires SafetyInv(cfg, s) && Allowed(m)
    ensures SafetyInv(cfg, Next(cfg, s, m)) && Evolves(s.w, Next(cfg, s, m).w)
  {
    hide WorldInv, Tick, Do, AfterTx, AllFit, Evolves, Guarded, Allowed, Mined;
    var next := Next(cfg, s, m);
    SameWorldEvolves(s.w);
    NothingFits(cfg, next.w, if m.Outside? then Attestor else m.who);
    if m.Start? {
      TickFits(cfg, m.who, s.w, m.input);
    } else if m.Advance? && s.Of(m.who).todo != [] {
      AdvanceKeeps(cfg, s, m.who, m.moment);
    } else if m.Outside? {
      BaseKeeps(cfg, s.w, m.tx);
    }
    forall who
      ensures AllFit(cfg, next.w, who, next.Of(who).todo)
    {
      if m.Outside? || who != m.who {
        assert next.Of(who) == s.Of(who);
        FitsLater(cfg, s.w, next.w, who, s.Of(who).todo);
      }
    }
    if cfg.attestorLive {
      SentStays(s.w, next.w);
      if m.Outside? || m.who != Attestor {
        GuardedAs(SaveRule, s.w.sent != [], next.w.sent != [], s.attestor.todo);
      } else if m.Start? && s.attestor.todo == [] {
        GuardedAs(SaveRule, false, next.w.sent != [], Tick(cfg, Attestor, s.w, m.input));
      } else if m.Crash? {
        GuardedAs(SaveRule, false, next.w.sent != [], IDLE.todo);
      }
    }
  }

  lemma SentStays(w: World, next: World)
    requires Evolves(w, next)
    ensures w.sent != [] ==> next.sent != []
  {
  }

  lemma {:induction false} RunIsSafe(cfg: Config, s: System, moves: seq<Move>)
    requires SafetyInv(cfg, s) && AllAllowed(moves)
    ensures SafetyInv(cfg, Run(cfg, s, moves))
    decreases |moves|
  {
    hide SafetyInv, Next, Allowed;
    if moves != [] {
      var init := moves[..|moves| - 1];
      assert forall m <- init :: m in moves;
      RunIsSafe(cfg, s, init);
      NextKeepsSafety(cfg, Run(cfg, s, init), moves[|moves| - 1]);
    }
  }

  lemma BeginningIsSafe(cfg: Config, base: Base)
    requires BaseContracts.Inv(cfg.d, base)
    ensures SafetyInv(cfg, Beginning(base))
  {
    hide BaseContracts.Inv;
    var s := Beginning(base);
    BaseContracts.Stays(base);
    forall who
      ensures AllFit(cfg, s.w, who, s.Of(who).todo)
    {
      assert s.Of(who).todo == [];
    }
  }

  // -------------------------------------------------------------------------
  // What it means
  // -------------------------------------------------------------------------

  /** A report or a message sent now (rather than an answer) is estimated on the current state. */
  predicate Prompt(s: System, m: Move) {
    m.Advance? && s.Of(m.who).todo != [] && (s.Of(m.who).todo[0].SendReport? || s.Of(m.who).todo[0].SendVaa?) ==>
      m.moment.lag == 0
  }

  predicate PromptRun(cfg: Config, s: System, moves: seq<Move>)
    decreases |moves|
  {
    moves == [] ||
    (PromptRun(cfg, s, moves[..|moves| - 1]) && Prompt(Run(cfg, s, moves[..|moves| - 1]), moves[|moves| - 1]))
  }

  lemma DoSendsAccepted(cfg: Config, w: World, p: Proc, m: Moment)
    requires p.todo != [] && w.sent == w.accepted && (p.todo[0].SendReport? ==> m.lag == 0)
    ensures Do(cfg, w, p, m).0.sent == Do(cfg, w, p, m).0.accepted
  {
    hide TryOnReport, TrySubmit, TrySettle, RowOf, PB.AfterInit, PB.TryAppend, PB.TrySeal, ReadLevel4Id;
  }

  lemma PromptSendsAccepted(cfg: Config, s: System, m: Move)
    requires Prompt(s, m) && s.w.sent == s.w.accepted
    ensures Next(cfg, s, m).w.sent == Next(cfg, s, m).w.accepted
  {
    hide Tick, Do, AfterTx;
    if m.Advance? && s.Of(m.who).todo != [] { DoSendsAccepted(cfg, s.w, s.Of(m.who), m.moment); }
  }

  lemma {:induction false} PromptRunAccepts(cfg: Config, base: Base, moves: seq<Move>)
    requires PromptRun(cfg, Beginning(base), moves)
    ensures var w := Run(cfg, Beginning(base), moves).w; w.sent == w.accepted
    decreases |moves|
  {
    hide Next, Prompt;
    if moves != [] {
      PromptRunAccepts(cfg, base, moves[..|moves| - 1]);
      PromptSendsAccepted(cfg, Run(cfg, Beginning(base), moves[..|moves| - 1]), moves[|moves| - 1]);
    }
  }

  /** LEVEL 3, AT MOST ONCE: over every run with crashes between sending and saving, every report that
      is sent and mined is the derived one; the receiver accepts at most one and shows exactly it. A
      live attestor says "reported" only once one was mined, and only once one was accepted if every
      send is estimated on the current state. */
  lemma AtMostOneReport(cfg: Config, base: Base, moves: seq<Move>)
    requires BaseContracts.Inv(cfg.d, base) && AllAllowed(moves)
    ensures var w := Run(cfg, Beginning(base), moves).w;
            && (forall r <- w.sent :: Derived(cfg, r)) && |w.accepted| <= 1
            && (forall r <- w.accepted ::
                  Derived(cfg, r) && r.fixtureId in w.base.level3 && w.base.level3[r.fixtureId] == r)
            && (w.attestor.Reported? ==>
                  DerivedId(cfg, w.attestor.attestationId) && (cfg.attestorLive ==> w.sent != []))
            && (w.attestor.Reported? && cfg.attestorLive && PromptRun(cfg, Beginning(base), moves) ==>
                  |w.accepted| == 1)
            && (w.level3Report.Some? ==> Derived(cfg, w.level3Report.value))
  {
    hide Run, Derived, DerivedId, History, PromptRun, TryOnReport;
    BeginningIsSafe(cfg, base);
    RunIsSafe(cfg, Beginning(base), moves);
    var w := Run(cfg, Beginning(base), moves).w;
    assert forall r <- w.accepted :: Taken(cfg, w, r);
    if PromptRun(cfg, Beginning(base), moves) { PromptRunAccepts(cfg, base, moves); }
  }

  /** Nor does any step ever try to send another one. */
  lemma SendsDerivedOnly(cfg: Config, base: Base, moves: seq<Move>)
    requires BaseContracts.Inv(cfg.d, base) && AllAllowed(moves)
    ensures forall a <- Run(cfg, Beginning(base), moves).attestor.todo | a.SendReport? :: Derived(cfg, a.report)
  {
    hide Run, Derived, WorldInv;
    BeginningIsSafe(cfg, base);
    RunIsSafe(cfg, Beginning(base), moves);
    var s := Run(cfg, Beginning(base), moves);
    assert AllFit(cfg, s.w, Attestor, s.Of(Attestor).todo);
    assert forall a <- s.attestor.todo :: Fits(cfg, s.w, Attestor, a);
  }

  /** Nothing is announced that is not so: every dual finality in the stream is the registry's own
      verdict (live) or names the report file's id (simulated), and every live settlement happened. */
  lemma EveryStreamIsTruthful(cfg: Config, base: Base, moves: seq<Move>)
    requires BaseContracts.Inv(cfg.d, base) && AllAllowed(moves)
    ensures var w := Run(cfg, Beginning(base), moves).w; forall re <- w.stream :: Truthful(cfg, w, re)
  {
    hide Run, Truthful, History, Reports;
    BeginningIsSafe(cfg, base);
    RunIsSafe(cfg, Beginning(base), moves);
  }

  // -------------------------------------------------------------------------
  // Which id a live run announces
  // -------------------------------------------------------------------------

  predicate LiveDual(re: R.RunEvent) { re.event.DualFinalityReached? && !re.simulated }

  /** This move announced it: the registry held this fixture final with one id from both lanes, and the
      announced id is that one exactly when the replica asked for it had the proof lane's record. */
  predicate AnnouncedBy(cfg: Config, s: System, m: Move, re: R.RunEvent) {
    && m.Advance? && m.who == Executor && s.executor.todo != [] && s.executor.todo[0].AnnounceDual?
    && var f := s.executor.todo[0].fixtureId;
    var row, replica := RowOf(s.w.base.registry, f), RowOf(Seen(s.w, m.moment).registry, f);
    && FixtureNumber(cfg) == Some(f) && row.status == DualFinalized
    && row.level3.Some? && row.level4.Some? && row.level3.value.attestationId == row.level4.value.attestationId
    && LiveDual(re)
    && (re.event.attestationId == row.level4.value.attestationId <==>
        replica.level4.Some? || row.level4.value.attestationId == seq(32, i => 0))
    && (replica.level4 == None ==> re.event.attestationId == seq(32, i => 0))
  }

  lemma DoStream(cfg: Config, w: World, p: Proc, m: Moment)
    requires p.todo != []
    ensures w.stream <= Do(cfg, w, p, m).0.stream && |Do(cfg, w, p, m).0.stream| <= |w.stream| + 1
  {
    hide TryOnReport, TrySubmit, TrySettle, RowOf, PB.AfterInit, PB.TryAppend, PB.TrySeal, ReadLevel4Id, Seen;
  }

  lemma StreamStep(cfg: Config, s: System, m: Move)
    ensures s.w.stream <= Next(cfg, s, m).w.stream && |Next(cfg, s, m).w.stream| <= |s.w.stream| + 1
  {
    hide Tick, Do, AfterTx;
    if m.Advance? && s.Of(m.who).todo != [] { DoStream(cfg, s.w, s.Of(m.who), m.moment); }
  }

  lemma DoAnnounces(cfg: Config, w: World, p: Proc, m: Moment, who: Who)
    requires p.todo != [] && Fits(cfg, w, who, p.todo[0])
    requires |Do(cfg, w, p, m).0.stream| == |w.stream| + 1 && LiveDual(Do(cfg, w, p, m).0.stream[|w.stream|])
    ensures p.todo[0].AnnounceDual? && who == Executor
    ensures var f := p.todo[0].fixtureId;
            && FixtureNumber(cfg) == Some(f) && IsDual(w, f)
            && Do(cfg, w, p, m).0.stream[|w.stream|].event == R.DualFinalityReached(ReadLevel4Id(Seen(w, m), f))
  {
    hide TryOnReport, TrySubmit, TrySettle, RowOf, PB.AfterInit, PB.TryAppend, PB.TrySeal, Seen, ReadLevel4Id,
         FixtureNumber,
         Derived, DerivedId, IsHandoff;
  }

  lemma GrowsByDo(cfg: Config, s: System, m: Move)
    requires |Next(cfg, s, m).w.stream| > |s.w.stream|
    ensures m.Advance? && s.Of(m.who).todo != [] && Next(cfg, s, m).w == Do(cfg, s.w, s.Of(m.who), m.moment).0
  {
    hide Tick, Do, AfterTx;
  }

  lemma AnnounceStep(cfg: Config, s: System, m: Move)
    requires SafetyInv(cfg, s) && |Next(cfg, s, m).w.stream| == |s.w.stream| + 1
    requires LiveDual(Next(cfg, s, m).w.stream[|s.w.stream|])
    ensures AnnouncedBy(cfg, s, m, Next(cfg, s, m).w.stream[|s.w.stream|])
  {
    hide Next, Do, RowOf, Seen, History, Reports, FixtureNumber, Truthful, Fits, LiveDual, RowAdvances, Stored;
    GrowsByDo(cfg, s, m);
    HeadFits(cfg, s, m.who);
    DoAnnounces(cfg, s.w, s.Of(m.who), m.moment, m.who);
    var f := s.Of(m.who).todo[0].fixtureId;
    AgreedRow(cfg, s.w, f, m.moment);
  }

  lemma HeadFits(cfg: Config, s: System, who: Who)
    requires SafetyInv(cfg, s) && s.Of(who).todo != []
    ensures Fits(cfg, s.w, who, s.Of(who).todo[0]) && WorldInv(cfg, s.w)
  {
    hide WorldInv, Fits;
    assert AllFit(cfg, s.w, who, s.Of(who).todo);
  }

  /** What a final row looks like, and what a replica may show of it. */
  lemma AgreedRow(cfg: Config, w: World, f: int, m: Moment)
    requires WorldInv(cfg, w) && IsDual(w, f)
    ensures var row, replica := RowOf(w.base.registry, f), RowOf(Seen(w, m).registry, f);
            && row.level3.Some? && row.level4.Some? && row.level3.value.attestationId == row.level4.value.attestationId
            && (replica.level4.Some? ==> replica.level4 == row.level4)
    ensures ReadLevel4Id(Seen(w, m), f) ==
            var replica := RowOf(Seen(w, m).registry, f);
            if replica.level4.Some? then replica.level4.value.attestationId else seq(32, i => 0)
  {
    hide RowOf, Seen, History, Reports, Truthful;
    HistoryRow(cfg.d, w, f);
    SeenRow(cfg.d, w, m, f);
  }

  /** EVERY LIVE ANNOUNCEMENT OF EVERY RUN was made by one of its moves, and carries the id both lanes
      agreed on exactly when the replica behind that move's second read had the proof lane's record. */
  lemma {:induction false} LiveAnnouncements(cfg: Config, base: Base, moves: seq<Move>, k: nat) returns (n: nat)
    requires BaseContracts.Inv(cfg.d, base) && AllAllowed(moves)
    requires k < |Run(cfg, Beginning(base), moves).w.stream| && LiveDual(Run(cfg, Beginning(base), moves).w.stream[k])
    ensures n < |moves| && |Run(cfg, Beginning(base), moves[..n]).w.stream| == k
    ensures AnnouncedBy(cfg, Run(cfg, Beginning(base), moves[..n]), moves[n],
                        Run(cfg, Beginning(base), moves).w.stream[k])
    decreases |moves|
  {
    hide Next, AnnouncedBy, SafetyInv, BaseContracts.Inv, Allowed, LiveDual;
    var last := |moves| - 1;
    var init := moves[..last];
    var s := Run(cfg, Beginning(base), init);
    assert forall m <- init :: m in moves;
    StreamStep(cfg, s, moves[last]);
    if k < |s.w.stream| {
      n := LiveAnnouncements(cfg, base, init, k);
      assert init[..n] == moves[..n];
    } else {
      n := last;
      BeginningIsSafe(cfg, base);
      RunIsSafe(cfg, Beginning(base), init);
      AnnounceStep(cfg, s, moves[last]);
    }
  }

  /** Level 3's tick once the handoff is there and enough providers agree. */
  lemma AttestList(cfg: Config, h: Handoff, i: TickInput)
    requires Level3(cfg.setup, cfg.fixture, h, true).Ok? && AgreedCount(i.providers) >= cfg.quorum
    ensures Attest(cfg, h, i) == ProviderEvents(i, 0) + Deliver(cfg, Level3(cfg.setup, cfg.fixture, h, true).value, i)
  {
    hide CheckedTx, Level3Derive, Deliver, Announced;
  }
}
