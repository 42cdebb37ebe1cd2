/** What one tick of each workflow comes to, from the files it finds: when it delivers, when it reports a
    failure and when it only waits or throws, stated over the list of actions it performs
    (workflows/cre-source-dispatch, cre-level3-attestor and cre-vaa-executor, main.ts). */
module Ticks {
  import opened Bytes
  import opened Deliveries
  import opened Digests
  import opened Lanes
  import opened SolanaTx
  import opened Workflows
  import Base58
  import Payload
  import Quorum
  import R = Reducer
  import Vaas

  /** The list reports this failure, and no other one. */
  predicate Reports(todo: seq<Action>, stage: string, reason: string) {
    exists k | 0 <= k < |todo| :: todo[k] == Emit(R.RunFailed(stage, reason), todo[k].Emit? && todo[k].simulated)
  }

  predicate ReportsNone(todo: seq<Action>) { forall a <- todo :: a.Emit? ==> !a.event.RunFailed? }

  lemma ReportsSplit(a: seq<Action>, b: seq<Action>, stage: string, reason: string)
    requires ReportsNone(a)
    ensures Reports(a + b, stage, reason) <==> Reports(b, stage, reason)
    ensures ReportsNone(a + b) <==> ReportsNone(b)
  {
    var c := a + b;
    assert forall k | 0 <= k < |a| :: c[k] == a[k] && a[k] in a;
    assert forall k | 0 <= k < |b| :: c[|a| + k] == b[k];
    if Reports(b, stage, reason) {
      var k :| 0 <= k < |b| && b[k] == Emit(R.RunFailed(stage, reason), b[k].Emit? && b[k].simulated);
      assert c[|a| + k] == Emit(R.RunFailed(stage, reason), c[|a| + k].Emit? && c[|a| + k].simulated);
    }
    if Reports(c, stage, reason) {
      var k :| 0 <= k < |c| && c[k] == Emit(R.RunFailed(stage, reason), c[k].Emit? && c[k].simulated);
      assert k >= |a|;
      assert b[k - |a|] == c[k];
    }
    if ReportsNone(c) { forall x | x in b ensures x.Emit? ==> !x.event.RunFailed? { assert x in c; } }
  }

  // -------------------------------------------------------------------------
  // cre-level3-attestor
  // -------------------------------------------------------------------------

  /** The report, its file or "reported". */
  predicate Delivers(todo: seq<Action>) { exists a <- todo :: a.SendReport? || a.WriteLevel3Report? || a.SaveAttestor? }

  /** What the transaction checks demand. */
  predicate Packaged(cfg: Config, h: Handoff)
    requires FindFinal(cfg.fixture.records).Some?
  {
    var r := Final(cfg.fixture);
    && Key(h.rootAccount).Ok? && Key(cfg.setup.programB58).Ok?
    && DailyRootFor(cfg.fixture, r.timestampMs) == Ok(h.rootAccount)
    && Printable(Predicate(cfg.fixture.fixtureId, r.participant1Score, r.participant2Score, r.period))
  }

  /** The day has a recorded root, and it is not the handoff's. */
  predicate OtherRoot(cfg: Config, h: Handoff)
    requires FindFinal(cfg.fixture.records).Some?
  {
    var root := DailyRootFor(cfg.fixture, Final(cfg.fixture).timestampMs);
    root.Ok? && root.value != h.rootAccount
  }

  /** The bundle as the lane hashes it is not the handed over one. */
  predicate OtherBundle(cfg: Config, h: Handoff)
    requires FindFinal(cfg.fixture.records).Some?
  {
    ProofBundleHash(cfg.setup.c, ProofBundle(cfg.fixture, Final(cfg.fixture))) != h.proofBundleHash
  }

  /** The recorded vector is this fixture's, and not what the lane derives. */
  predicate Level3OffVector(cfg: Config, h: Handoff)
    requires FindFinal(cfg.fixture.records).Some?
  {
    var f, r, v := cfg.fixture, Final(cfg.fixture), cfg.setup.vector;
    && v.Some? && v.value.fixtureId == f.fixtureId && v.value.scoreSequence == r.sequence
    && CheckedTx(cfg.setup, f, h, r).Ok?
    && var i := Level3Identity(cfg.setup, f, h, r, CheckedTx(cfg.setup, f, h, r).value);
    && i.Ok? && AttestationId(cfg.setup.c, i.value).Some?
    && (i.value.validationInstructionHash != v.value.validationInstructionHash
        || i.value.proofBundleHash != v.value.proofBundleHash
        || AttestationId(cfg.setup.c, i.value).value != v.value.attestationId)
  }

  lemma CheckedTxErrors(setup: Setup, f: Fixture, h: Handoff, r: ScoreRecord)
    requires Writable(f, r)
    ensures CheckedTx(setup, f, h, r).Err? ==>
              var e := CheckedTx(setup, f, h, r).error;
              && (e.BadKey? || e == NoDailyRoot || e == DailyRootMismatch || e == NotCanonicalPredicate)
              && (e == DailyRootMismatch <==>
                    && Key(h.rootAccount).Ok? && Key(setup.programB58).Ok?
                    && DailyRootFor(f, r.timestampMs).Ok? && DailyRootFor(f, r.timestampMs).value != h.rootAccount)
  {
    hide DecodeTx, ParsePredicateData, TxBytes, PredicateData, Printable, DailyRootFor;
    if Key(h.rootAccount).Ok? && Key(setup.programB58).Ok? {
      DecodeBuilt(setup.payer, Key(h.rootAccount).value, Key(setup.programB58).value, PredicateData(PredicateOf(f, r)));
      PredicateRoundTrip(PredicateOf(f, r));
    }
    if DailyRootFor(f, r.timestampMs).Err? { NoRoot(f, r.timestampMs); }
  }

  lemma NoRoot(f: Fixture, timestampMs: int)
    ensures DailyRootFor(f, timestampMs).Err? ==> DailyRootFor(f, timestampMs).error == NoDailyRoot
  {
  }

  lemma CheckedIsPackaged(cfg: Config, h: Handoff)
    requires FindFinal(cfg.fixture.records).Some? && Writable(cfg.fixture, Final(cfg.fixture))
    ensures CheckedTx(cfg.setup, cfg.fixture, h, Final(cfg.fixture)).Ok? <==> Packaged(cfg, h)
    ensures Packaged(cfg, h) ==> |CheckedTx(cfg.setup, cfg.fixture, h, Final(cfg.fixture)).value.dailyRoot| == 32
  {
    hide CheckedTx, DailyRootFor, Printable, PredicateData, FindFinal;
    CheckedTxAccepts(cfg.setup, cfg.fixture, h, Final(cfg.fixture));
  }

  lemma IdentityErrors(cfg: Config, h: Handoff, decoded: DecodedTx)
    requires FindFinal(cfg.fixture.records).Some? && |decoded.dailyRoot| == 32 && Key(cfg.setup.programB58).Ok?
    ensures var i := Level3Identity(cfg.setup, cfg.fixture, h, Final(cfg.fixture), decoded);
            && ((i.Err? && i.error in {BundleHashMismatch, NoEmitter}) <==>
                  OtherBundle(cfg, h) || EmitterText(cfg.fixture, h) == "")
            && (i.Err? && i.error !in {BundleHashMismatch, NoEmitter} ==> i.error.BadKey? || i.error == BadBigInt)
  {
    hide ProofBundle, ProofBundleHash, ValidationInstructionHash, FindFinal, Base58.ToBytes32;
  }

  lemma DeriveErrors(cfg: Config, h: Handoff, decoded: DecodedTx)
    requires FindFinal(cfg.fixture.records).Some? && |decoded.dailyRoot| == 32 && Key(cfg.setup.programB58).Ok?
    requires CheckedTx(cfg.setup, cfg.fixture, h, Final(cfg.fixture)) == Ok(decoded)
    ensures var d := Level3Derive(cfg.setup, cfg.fixture, h, Final(cfg.fixture), decoded);
            && ((d.Err? && d.error in {BundleHashMismatch, NoEmitter, VectorMismatch}) <==>
                  OtherBundle(cfg, h) || EmitterText(cfg.fixture, h) == "" || Level3OffVector(cfg, h))
            && (d.Err? && d.error !in {BundleHashMismatch, NoEmitter, VectorMismatch} ==> !Announced(d.error))
  {
    hide CheckedTx, Level3Identity, AttestationId, FindFinal, Encodable, Payload.DeriveResult, OtherBundle,
         EmitterText, Announced;
    IdentityErrors(cfg, h, decoded);
    OthersThrow(cfg, h, decoded);
  }

  lemma OthersThrow(cfg: Config, h: Handoff, decoded: DecodedTx)
    requires FindFinal(cfg.fixture.records).Some? && |decoded.dailyRoot| == 32 && Key(cfg.setup.programB58).Ok?
    ensures var d := Level3Derive(cfg.setup, cfg.fixture, h, Final(cfg.fixture), decoded);
            d.Err? && d.error !in {BundleHashMismatch, NoEmitter, VectorMismatch} ==> !Announced(d.error)
  {
    hide *;
    var d := Level3Derive(cfg.setup, cfg.fixture, h, Final(cfg.fixture), decoded);
    IdentityErrors(cfg, h, decoded);
    DeriveStops(cfg.setup, cfg.fixture, h, Final(cfg.fixture), decoded);
    if d.Err? { Silent(d.error); }
  }

  lemma DeriveStops(setup: Setup, f: Fixture, h: Handoff, r: ScoreRecord, decoded: DecodedTx)
    ensures var i, d := Level3Identity(setup, f, h, r, decoded), Level3Derive(setup, f, h, r, decoded);
            d.Err? ==> d.error in {VectorMismatch, IntegerOutOfRange} || (i.Err? && d.error == i.error)
  {
    hide Level3Identity, AttestationId, Encodable, Payload.DeriveResult, Level3VectorOk;
  }

  lemma Silent(e: LaneError)
    ensures e.BadKey? || e == BadBigInt || e == IntegerOutOfRange ==> !Announced(e)
  {
  }

  lemma FailureSays(stage: string, e: LaneError, i: TickInput)
    ensures Reports(Failure(stage, e, i), stage, i.reason) <==> Announced(e)
    ensures ReportsNone(Failure(stage, e, i)) <==> !Announced(e)
    ensures !Delivers(Failure(stage, e, i)) && OnlyFailure(Failure(stage, e, i), stage, i.reason)
  {
    hide Announced;
    if Announced(e) {
      var todo := Failure(stage, e, i);
      assert todo[0] == Emit(R.RunFailed(stage, i.reason), todo[0].Emit? && todo[0].simulated);
      assert todo[0] in todo;
    }
  }

  /** Every failure in the list is this one. */
  predicate OnlyFailure(todo: seq<Action>, stage: string, reason: string) {
    forall a <- todo :: a.Emit? && a.event.RunFailed? ==> a.event == R.RunFailed(stage, reason)
  }

  lemma ProvidersSay(i: TickInput, k: nat)
    requires k <= |i.providers|
    ensures ReportsNone(ProviderEvents(i, k)) && !Delivers(ProviderEvents(i, k))
    ensures |ProviderEvents(i, k)| == |i.providers| - k
    ensures forall j | k <= j < |i.providers| ::
              ProviderEvents(i, k)[j - k] ==
              Emit(R.Level3RpcResult(i.providers[j].provider, i.providers[j].agreed, i.digest), !i.providers[j].live)
    decreases |i.providers| - k
  {
    if k < |i.providers| { ProvidersSay(i, k + 1); }
  }

  lemma DeliversSplit(a: seq<Action>, b: seq<Action>)
    requires !Delivers(a)
    ensures Delivers(a + b) <==> Delivers(b)
  {
    if Delivers(b) {
      var x :| x in b && (x.SendReport? || x.WriteLevel3Report? || x.SaveAttestor?);
      assert x in a + b;
    }
  }

  lemma OnlySplit(a: seq<Action>, b: seq<Action>, stage: string, reason: string)
    requires ReportsNone(a) && OnlyFailure(b, stage, reason)
    ensures OnlyFailure(a + b, stage, reason)
  {
  }

  lemma DeliverSays(cfg: Config, r: Level3Report, i: TickInput)
    ensures Delivers(Deliver(cfg, r, i)) && ReportsNone(Deliver(cfg, r, i))
  {
    var todo := Deliver(cfg, r, i);
    assert todo[|todo| - 1].SaveAttestor? && todo[|todo| - 1] in todo;
  }

  /** Why a tick of the attestor fails, with so many providers agreeing. */
  predicate AttestorFails(cfg: Config, h: Handoff, agreeing: nat) {
    || h.fixturePath == None || FindFinal(cfg.fixture.records) == None
    || (Key(h.rootAccount).Ok? && Key(cfg.setup.programB58).Ok? && OtherRoot(cfg, h))
    || (Packaged(cfg, h)
        && (agreeing < cfg.quorum || OtherBundle(cfg, h) || EmitterText(cfg.fixture, h) == ""
            || Level3OffVector(cfg, h)))
  }

  lemma FailureOnly(todo: seq<Action>, stage: string, reason: string)
    requires ReportsNone(todo)
    ensures OnlyFailure(todo, stage, reason) && !Reports(todo, stage, reason)
  {
  }

  lemma Level3Splits(cfg: Config, h: Handoff, r: ScoreRecord)
    requires h.fixturePath.Some? && FindFinal(cfg.fixture.records) == Some(r)
    ensures Level3(cfg.setup, cfg.fixture, h, true) ==
            match CheckedTx(cfg.setup, cfg.fixture, h, r)
            case Err(e) => Err(e)
            case Ok(decoded) => Level3Derive(cfg.setup, cfg.fixture, h, r, decoded)
  {
    hide CheckedTx, Level3Derive;
  }

  lemma AttestSays(cfg: Config, h: Handoff, i: TickInput)
    requires FindFinal(cfg.fixture.records).Some? ==> Writable(cfg.fixture, Final(cfg.fixture))
    ensures Delivers(Attest(cfg, h, i)) <==>
            && h.fixturePath.Some? && Level3(cfg.setup, cfg.fixture, h, true).Ok?
            && AgreedCount(i.providers) >= cfg.quorum
    ensures Reports(Attest(cfg, h, i), ATTESTOR_STAGE, i.reason) <==> AttestorFails(cfg, h, AgreedCount(i.providers))
    ensures OnlyFailure(Attest(cfg, h, i), ATTESTOR_STAGE, i.reason)
  {
    hide CheckedTx, Level3Derive, FindFinal, Packaged, OtherRoot, OtherBundle, Level3OffVector, EmitterText, Reports,
         ReportsNone, Delivers, OnlyFailure, Failure, Deliver, ProviderEvents, Key, Writable, Level3;
    var found := FindFinal(cfg.fixture.records);
    if h.fixturePath == None {
      FailureSays(ATTESTOR_STAGE, NoFixturePath, i);
      NoLevel3(cfg, h);
    } else if found == None {
      FailureSays(ATTESTOR_STAGE, NoFinalRecord, i);
      NoLevel3(cfg, h);
    } else {
      var checked := CheckedTx(cfg.setup, cfg.fixture, h, found.value);
      Level3Splits(cfg, h, found.value);
      CheckedTxErrors(cfg.setup, cfg.fixture, h, found.value);
      CheckedIsPackaged(cfg, h);
      PackagedRoot(cfg, h);
      if checked.Err? {
        FailureSays(ATTESTOR_STAGE, checked.error, i);
      } else {
        AgreedSays(cfg, h, i, checked.value);
      }
    }
  }

  lemma PackagedRoot(cfg: Config, h: Handoff)
    requires FindFinal(cfg.fixture.records).Some?
    ensures Packaged(cfg, h) ==> !OtherRoot(cfg, h) && Key(cfg.setup.programB58).Ok?
    ensures var root := DailyRootFor(cfg.fixture, Final(cfg.fixture).timestampMs);
            OtherRoot(cfg, h) <==> root.Ok? && root.value != h.rootAccount
  {
    hide Key, DailyRootFor, Printable;
  }

  lemma NoLevel3(cfg: Config, h: Handoff)
    requires h.fixturePath == None || FindFinal(cfg.fixture.records) == None
    ensures Level3(cfg.setup, cfg.fixture, h, true).Err?
  {
    hide CheckedTx, Level3Derive, FindFinal;
  }

  lemma AgreedSays(cfg: Config, h: Handoff, i: TickInput, decoded: DecodedTx)
    requires h.fixturePath.Some? && FindFinal(cfg.fixture.records).Some? && |decoded.dailyRoot| == 32
    requires CheckedTx(cfg.setup, cfg.fixture, h, Final(cfg.fixture)) == Ok(decoded) && Key(cfg.setup.programB58).Ok?
    ensures var todo := Attest(cfg, h, i);
            && (Delivers(todo) <==>
                  && Level3Derive(cfg.setup, cfg.fixture, h, Final(cfg.fixture), decoded).Ok?
                  && AgreedCount(i.providers) >= cfg.quorum)
            && (Reports(todo, ATTESTOR_STAGE, i.reason) <==>
                  || AgreedCount(i.providers) < cfg.quorum || OtherBundle(cfg, h)
                  || EmitterText(cfg.fixture, h) == "" || Level3OffVector(cfg, h))
            && OnlyFailure(todo, ATTESTOR_STAGE, i.reason)
  {
    hide CheckedTx, Level3Derive, FindFinal, OtherBundle, Level3OffVector, EmitterText, Reports,
         ReportsNone, Delivers, OnlyFailure, Failure, Deliver, ProviderEvents, Key;
    var derived := Level3Derive(cfg.setup, cfg.fixture, h, Final(cfg.fixture), decoded);
    DeriveErrors(cfg, h, decoded);
    ProvidersSay(i, 0);
    var rest :=
      if AgreedCount(i.providers) < cfg.quorum then Failure(ATTESTOR_STAGE, QuorumNotReached, i)
      else match derived case Err(e) => Failure(ATTESTOR_STAGE, e, i) case Ok(report) => Deliver(cfg, report, i);
    assert Attest(cfg, h, i) == ProviderEvents(i, 0) + rest;
    if AgreedCount(i.providers) < cfg.quorum {
      FailureSays(ATTESTOR_STAGE, QuorumNotReached, i);
    } else if derived.Err? {
      FailureSays(ATTESTOR_STAGE, derived.error, i);
    } else {
      DeliverSays(cfg, derived.value, i);
      FailureOnly(rest, ATTESTOR_STAGE, i.reason);
    }
    ReportsSplit(ProviderEvents(i, 0), rest, ATTESTOR_STAGE, i.reason);
    DeliversSplit(ProviderEvents(i, 0), rest);
    OnlySplit(ProviderEvents(i, 0), rest, ATTESTOR_STAGE, i.reason);
  }

  /** A TICK OF THE ATTESTOR that finds a handoff delivers exactly when the lane derives a report and at
      least a quorum of the providers agree; it reports a failure, always the same one, exactly when the
      handoff or the fixture is incomplete, the day's root is another one, or, the transaction being in
      order, too few agree or the bundle, the emitter or the recorded vector is not right. */
  lemma AttestorTickSays(cfg: Config, w: World, i: TickInput)
    requires w.attestor.NotReported? && w.handoff.Some?
    requires FindFinal(cfg.fixture.records).Some? ==> Writable(cfg.fixture, Final(cfg.fixture))
    ensures var h, todo := w.handoff.value, AttestorTick(cfg, w, i);
            var agreeing := |set k | 0 <= k < |i.providers| && i.providers[k].agreed|;
            && (Delivers(todo) <==>
                  h.fixturePath.Some? && Level3(cfg.setup, cfg.fixture, h, true).Ok? && agreeing >= cfg.quorum)
            && (Reports(todo, "level3-attestor", i.reason) <==> AttestorFails(cfg, h, agreeing))
            && OnlyFailure(todo, "level3-attestor", i.reason)
  {
    hide Attest, Reports, ReportsNone, Delivers, OnlyFailure, FindFinal, Writable, Level3, AttestorFails;
    var h, beat := w.handoff.value, Heartbeat(i);
    AttestSays(cfg, h, i);
    AgreedCountIs(i.providers);
    BeatSays(i);
    ReportsSplit(beat, Attest(cfg, h, i), ATTESTOR_STAGE, i.reason);
    DeliversSplit(beat, Attest(cfg, h, i));
    OnlySplit(beat, Attest(cfg, h, i), ATTESTOR_STAGE, i.reason);
  }

  lemma BeatSays(i: TickInput)
    ensures ReportsNone(Heartbeat(i)) && !Delivers(Heartbeat(i))
  {
  }

  // -------------------------------------------------------------------------
  // cre-vaa-executor
  // -------------------------------------------------------------------------

  /** The message, what follows it, or "submitted". */
  predicate Submits(todo: seq<Action>) {
    exists a <- todo :: a.SendVaa? || a.PollRegistry? || a.Reconcile? || a.SaveExecutor?
  }

  lemma SubmitsSplit(a: seq<Action>, b: seq<Action>)
    requires !Submits(a)
    ensures Submits(a + b) <==> Submits(b)
  {
    if Submits(b) {
      var x :| x in b && (x.SendVaa? || x.PollRegistry? || x.Reconcile? || x.SaveExecutor?);
      assert x in a + b;
    }
  }

  /** The recorded vector is this fixture's, and not what the lane derives. */
  predicate Level4OffVector(cfg: Config, h: Handoff)
    requires FindFinal(cfg.fixture.records).Some? && h.wormhole.Some?
  {
    var f, r, v := cfg.fixture, Final(cfg.fixture), cfg.setup.vector;
    && v.Some? && v.value.fixtureId == f.fixtureId && v.value.scoreSequence == r.sequence
    && var d := DerivedVector(cfg.setup, f, h, r);
    && d.Ok?
    && (d.value.encodedPayload != v.value.encodedPayload || d.value.attestationId != v.value.attestationId
        || d.value.sourceEmitter != v.value.sourceEmitter)
  }

  /** The fetched message is turned down: too few signatures, not in order, of a wrong signer, or another
      payload than the one built. A signature that does not recover, or names no guardian, throws. */
  predicate TurnedDown(cfg: Config, built: Built, vaaBytes: bytes) {
    && Vaas.Decode(vaaBytes).Ok?
    && var v := Vaas.Decode(vaaBytes).value;
    var fault := Quorum.ExecutorFault(cfg.setup.c, v);
    || fault in {Some(Quorum.NoQuorum), Some(Quorum.NotAscending), Some(Quorum.WrongSigner)}
    || (fault == None && Payload.Decode(v.body.payload).Ok? && v.body.payload != built.payload)
  }

  /** Why a tick of the executor fails. */
  predicate ExecutorFails(cfg: Config, h: Handoff, source: VaaSource) {
    || h.fixturePath == None || h.wormhole == None || FindFinal(cfg.fixture.records) == None
    || OtherBundle(cfg, h) || OtherRoot(cfg, h)
    || (DailyRootFor(cfg.fixture, Final(cfg.fixture).timestampMs) == Ok(h.rootAccount) && Level4OffVector(cfg, h))
    || (Level4Checked(cfg.setup, cfg.fixture, h).Ok?
        && Level4Build(cfg.setup, cfg.fixture, h, Final(cfg.fixture)).Ok?
        && var built := Level4Build(cfg.setup, cfg.fixture, h, Final(cfg.fixture)).value;
        && FetchVaa(cfg.setup, source, built).Ok?
        && TurnedDown(cfg, built, FetchVaa(cfg.setup, source, built).value))
  }

  lemma CheckedErrors(cfg: Config, h: Handoff)
    ensures var c := Level4Checked(cfg.setup, cfg.fixture, h);
            && (c.Ok? ==> FindFinal(cfg.fixture.records).Some? && h.wormhole.Some? && c.value == Final(cfg.fixture)
                          && DailyRootFor(cfg.fixture, Final(cfg.fixture).timestampMs) == Ok(h.rootAccount))
            && (c.Err? && Announced(c.error) <==>
                  || h.fixturePath == None || h.wormhole == None || FindFinal(cfg.fixture.records) == None
                  || OtherBundle(cfg, h) || OtherRoot(cfg, h))
            && (c.Err? && h.wormhole.Some? && FindFinal(cfg.fixture.records).Some? ==>
                  OtherBundle(cfg, h) || h.fixturePath == None
                  || DailyRootFor(cfg.fixture, Final(cfg.fixture).timestampMs) != Ok(h.rootAccount))
  {
    hide ProofBundle, ProofBundleHash, DailyRootFor, FindFinal;
    if FindFinal(cfg.fixture.records).Some? { NoRoot(cfg.fixture, Final(cfg.fixture).timestampMs); }
  }

  lemma OutcomeErrors(setup: Setup, f: Fixture, h: Handoff, r: ScoreRecord)
    ensures var o := Level4Outcome(setup, f, h, r); o.Err? ==> o.error.BadKey? || o.error == BadBigInt
  {
    hide ProofBundle, ProofBundleHash, ValidationInstructionHash, PredicateData, Base58.ToBytes32, Payload.DeriveResult;
  }

  lemma BuildErrors(cfg: Config, h: Handoff)
    requires FindFinal(cfg.fixture.records).Some? && h.wormhole.Some?
    ensures var b := Level4Build(cfg.setup, cfg.fixture, h, Final(cfg.fixture));
            b.Err? && Announced(b.error) <==> Level4OffVector(cfg, h)
  {
    hide Level4Outcome, FindFinal, AttestationId, Payload.Layout, Base58.ToBytes32;
    OutcomeErrors(cfg.setup, cfg.fixture, h, Final(cfg.fixture));
  }

  lemma AcceptErrors(cfg: Config, built: Built, vaaBytes: bytes)
    ensures var a := Level4Accept(cfg.setup, built, vaaBytes);
            a.Err? && Announced(a.error) <==> TurnedDown(cfg, built, vaaBytes)
  {
    hide Vaas.Decode, Payload.Decode, Quorum.HasQuorum, Quorum.ExecutorFault;
    if Vaas.Decode(vaaBytes).Ok? {
      Quorum.ExecutorAccepts(cfg.setup.c, Vaas.Decode(vaaBytes).value);
      VersionOne(vaaBytes);
    }
  }

  lemma VersionOne(b: bytes)
    requires Vaas.Decode(b).Ok?
    ensures Vaas.Decode(b).value.version == 1
  {
  }

  lemma SubmitSays(cfg: Config, built: Built, res: Level4Result, i: TickInput)
    ensures Submits(Submit(cfg, built, res, i)) && ReportsNone(Submit(cfg, built, res, i))
  {
    var todo := Submit(cfg, built, res, i);
    assert todo[|todo| - 1].SaveExecutor? && todo[|todo| - 1] in todo;
  }

  lemma FailureSubmitsNothing(stage: string, e: LaneError, i: TickInput)
    ensures !Submits(Failure(stage, e, i))
  {
    hide Announced;
  }

  lemma EventSays(e: R.Event, simulated: bool)
    requires !e.RunFailed?
    ensures ReportsNone([Emit(e, simulated)]) && !Submits([Emit(e, simulated)])
  {
  }

  /** One event in front changes nothing of this. */
  lemma EventBefore(e: R.Event, simulated: bool, todo: seq<Action>, stage: string, reason: string)
    requires !e.RunFailed? && OnlyFailure(todo, stage, reason)
    ensures Reports([Emit(e, simulated)] + todo, stage, reason) <==> Reports(todo, stage, reason)
    ensures Submits([Emit(e, simulated)] + todo) <==> Submits(todo)
    ensures OnlyFailure([Emit(e, simulated)] + todo, stage, reason)
  {
    hide Reports, ReportsNone, Submits, OnlyFailure;
    EventSays(e, simulated);
    ReportsSplit([Emit(e, simulated)], todo, stage, reason);
    SubmitsSplit([Emit(e, simulated)], todo);
    OnlySplit([Emit(e, simulated)], todo, stage, reason);
  }

  lemma NothingSays(stage: string, reason: string)
    ensures !Reports([], stage, reason) && !Submits([]) && OnlyFailure([], stage, reason)
  {
  }

  lemma PublishedSays(cfg: Config, h: Handoff, built: Built, i: TickInput)
    requires h.wormhole.Some?
    ensures var todo, fetched := Published(cfg, h, built, i), FetchVaa(cfg.setup, i.vaaSource, built);
            && (Submits(todo) <==> fetched.Ok? && Level4Accept(cfg.setup, built, fetched.value).Ok?)
            && (Reports(todo, EXECUTOR_STAGE, i.reason) <==> fetched.Ok? && TurnedDown(cfg, built, fetched.value))
            && OnlyFailure(todo, EXECUTOR_STAGE, i.reason)
  {
    hide FetchVaa, Level4Accept, TurnedDown, Submit, Failure, Reports, ReportsNone, Submits, OnlyFailure, SignerIndices;
    var todo, fetched := Published(cfg, h, built, i), FetchVaa(cfg.setup, i.vaaSource, built);
    NothingSays(EXECUTOR_STAGE, i.reason);
    if fetched.Ok? {
      var accept := Level4Accept(cfg.setup, built, fetched.value);
      AcceptErrors(cfg, built, fetched.value);
      if accept.Err? {
        FailureSays(EXECUTOR_STAGE, accept.error, i);
        FailureSubmitsNothing(EXECUTOR_STAGE, accept.error, i);
      } else {
        var ready := R.VaaReady(cfg.setup.c.keccak(fetched.value), SignerIndices(accept.value.vaa.signatures));
        SubmitSays(cfg, built, accept.value, i);
        FailureOnly(Submit(cfg, built, accept.value, i), EXECUTOR_STAGE, i.reason);
        EventBefore(ready, true, Submit(cfg, built, accept.value, i), EXECUTOR_STAGE, i.reason);
      }
    }
    var published := R.WormholeMessagePublished(h.wormhole.value.emitterBase58, h.wormhole.value.sequence);
    assert todo == [Emit(published, true)] + todo[1..];
    EventBefore(published, true, todo[1..], EXECUTOR_STAGE, i.reason);
  }

  lemma ExecuteSays(cfg: Config, h: Handoff, i: TickInput)
    ensures Submits(Execute(cfg, h, i)) <==> Level4(cfg.setup, cfg.fixture, h, i.vaaSource).Ok?
    ensures Reports(Execute(cfg, h, i), EXECUTOR_STAGE, i.reason) <==> ExecutorFails(cfg, h, i.vaaSource)
    ensures OnlyFailure(Execute(cfg, h, i), EXECUTOR_STAGE, i.reason)
  {
    hide Level4Checked, Level4Build, FetchVaa, Level4Accept, TurnedDown, Published, Failure, Reports, ReportsNone,
         Submits, OnlyFailure, OtherBundle, OtherRoot, Level4OffVector, FindFinal, DailyRootFor;
    var todo, checked := Execute(cfg, h, i), Level4Checked(cfg.setup, cfg.fixture, h);
    CheckedErrors(cfg, h);
    RootsDiffer(cfg, h);
    if checked.Err? {
      FailureSays(EXECUTOR_STAGE, checked.error, i);
      FailureSubmitsNothing(EXECUTOR_STAGE, checked.error, i);
    } else {
      var build := Level4Build(cfg.setup, cfg.fixture, h, checked.value);
      BuildErrors(cfg, h);
      if build.Err? {
        FailureSays(EXECUTOR_STAGE, build.error, i);
        FailureSubmitsNothing(EXECUTOR_STAGE, build.error, i);
      } else {
        PublishedSays(cfg, h, build.value, i);
      }
      assert todo == [Emit(R.TxlineCpiVerified(i.slot), true)] + todo[1..];
      EventBefore(R.TxlineCpiVerified(i.slot), true, todo[1..], EXECUTOR_STAGE, i.reason);
    }
  }

  lemma RootsDiffer(cfg: Config, h: Handoff)
    ensures FindFinal(cfg.fixture.records).Some? && OtherRoot(cfg, h) ==>
              DailyRootFor(cfg.fixture, Final(cfg.fixture).timestampMs) != Ok(h.rootAccount)
  {
    hide DailyRootFor, FindFinal;
  }

  /** A TICK OF THE EXECUTOR that finds a handoff and has not submitted: it submits exactly when its lane
      delivers from that tick's source, and reports a failure, always the same one, exactly in the cases
      the code names; in all others it waits for the next heartbeat or throws. */
  lemma ExecutorTickSays(cfg: Config, w: World, i: TickInput)
    requires w.executor.NotSubmitted? && w.handoff.Some?
    ensures var h, todo := w.handoff.value, ExecutorTick(cfg, w, i);
            && (Submits(todo) <==> Level4(cfg.setup, cfg.fixture, h, i.vaaSource).Ok?)
            && (Reports(todo, "vaa-executor", i.reason) <==> ExecutorFails(cfg, h, i.vaaSource))
            && OnlyFailure(todo, "vaa-executor", i.reason)
  {
    hide Execute, Reports, Submits, OnlyFailure, Level4, ExecutorFails;
    ExecuteSays(cfg, w.handoff.value, i);
    EventBefore(R.Event.Heartbeat(i.now, i.nextAt), false, Execute(cfg, w.handoff.value, i), EXECUTOR_STAGE, i.reason);
  }

  // -------------------------------------------------------------------------
  // A tick that delivers, action by action
  // -------------------------------------------------------------------------

  lemma {:induction false} ProviderEventsAre(i: TickInput, k: nat)
    requires k <= |i.providers|
    ensures ProviderEvents(i, k) ==
            seq(|i.providers| - k, j requires 0 <= j < |i.providers| - k =>
                  var p := i.providers[k + j]; Emit(R.Level3RpcResult(p.provider, p.agreed, i.digest), !p.live))
    decreases |i.providers| - k
  {
    if k < |i.providers| {
      ProviderEventsAre(i, k + 1);
    }
  }

  /** In particular, once the transaction checks pass: nothing is delivered without a quorum of agreeing
      providers, and without one the tick fails. */
  lemma QuorumDecides(cfg: Config, w: World, i: TickInput)
    requires w.attestor.NotReported? && w.handoff.Some? && w.handoff.value.fixturePath.Some?
    requires FindFinal(cfg.fixture.records).Some?
    requires CheckedTx(cfg.setup, cfg.fixture, w.handoff.value, Final(cfg.fixture)).Ok?
    ensures var todo := AttestorTick(cfg, w, i);
            var agreeing := |set k | 0 <= k < |i.providers| && i.providers[k].agreed|;
            && (forall a <- todo :: a.SendReport? || a.WriteLevel3Report? || a.SaveAttestor? ==> agreeing >= cfg.quorum)
            && (agreeing < cfg.quorum ==> Emit(R.RunFailed("level3-attestor", i.reason), true) in todo)
  {
    hide CheckedTx, FindFinal, Level3Derive, ProviderEvents;
    AgreedCountIs(i.providers);
    if AgreedCount(i.providers) < cfg.quorum {
      ProviderEventsAre(i, 0);
      var todo := AttestorTick(cfg, w, i);
      assert todo[|todo| - 1] == Emit(R.RunFailed("level3-attestor", i.reason), true);
    }
  }

  /** A delivering attestor beats, announces every provider's answer in order, sends the report if it is
      live, and then writes it down, announces it and saves its id, in this order. */
  lemma AttestorTickPerforms(cfg: Config, w: World, i: TickInput)
    requires w.attestor.NotReported? && w.handoff.Some? && Level3(cfg.setup, cfg.fixture, w.handoff.value, true).Ok?
    requires |set k | 0 <= k < |i.providers| && i.providers[k].agreed| >= cfg.quorum
    ensures var report := Level3(cfg.setup, cfg.fixture, w.handoff.value, true).value;
            AttestorTick(cfg, w, i) ==
            [Emit(R.Event.Heartbeat(i.now, i.nextAt), false)] +
            seq(|i.providers|, k requires 0 <= k < |i.providers| =>
                  Emit(R.Level3RpcResult(i.providers[k].provider, i.providers[k].agreed, i.digest),
                       !i.providers[k].live)) +
            (if cfg.attestorLive then [SendReport(report)] else []) +
            [WriteLevel3Report(report), Emit(R.Level3BaseFinalized(i.txHash), !cfg.attestorLive),
             SaveAttestor(Reported(report.attestationId))]
  {
    hide CheckedTx, Level3Derive, Announced, ProviderEvents;
    AgreedCountIs(i.providers);
    ProviderEventsAre(i, 0);
  }

  /** A delivering executor announces the verified proof, the message and its guardians, and then either
      sends the message, announces it and polls six times, or announces it as simulated and compares with
      Level 3; it saves "submitted" last. */
  lemma ExecutorTickPerforms(cfg: Config, w: World, i: TickInput) returns (fixtureId: int, signers: seq<int>)
    requires w.executor.NotSubmitted? && w.handoff.Some?
    requires Level4(cfg.setup, cfg.fixture, w.handoff.value, i.vaaSource).Ok?
    ensures w.handoff.value.wormhole.Some? && cfg.setup.bigInt(cfg.fixture.fixtureId) == Some(fixtureId)
    ensures var res, m := Level4(cfg.setup, cfg.fixture, w.handoff.value, i.vaaSource).value,
                          w.handoff.value.wormhole.value;
            && |signers| == |res.vaa.signatures|
            && (forall k | 0 <= k < |signers| :: signers[k] == res.vaa.signatures[k].guardianIndex)
            && ExecutorTick(cfg, w, i) ==
               [Emit(R.Event.Heartbeat(i.now, i.nextAt), false), Emit(R.TxlineCpiVerified(i.slot), true),
                Emit(R.WormholeMessagePublished(m.emitterBase58, m.sequence), true),
                Emit(R.VaaReady(cfg.setup.c.keccak(res.vaaBytes), signers), true)] +
               (if cfg.executorLive then
                  [SendVaa(res.vaaBytes), Emit(R.Level4BaseSubmitted(i.txHash), false),
                   Emit(R.BaseVaaVerified(i.block), false), PollRegistry(6, fixtureId, i.settleTxHash)]
                else
                  [Emit(R.Level4BaseSubmitted(i.txHash), true), Emit(R.BaseVaaVerified(i.block), true),
                   Reconcile(res.attestationId, i.settleTxHash, i.reason)]) +
               [SaveExecutor(Submitted(res.attestationId, false, None))]
  {
    hide *;
    var h := w.handoff.value;
    Level4Steps(cfg.setup, cfg.fixture, h, i.vaaSource);
    Level4BuildSteps(cfg.setup, cfg.fixture, h, Final(cfg.fixture));
    var res := Level4(cfg.setup, cfg.fixture, h, i.vaaSource).value;
    var built := Level4Build(cfg.setup, cfg.fixture, h, Final(cfg.fixture)).value;
    fixtureId, signers := built.outcome.fixtureId, SignerIndices(res.vaa.signatures);
    SignersAre(res.vaa.signatures);
    SubmitPerforms(cfg, built, res, i);
    OutcomeSays(cfg.setup, cfg.fixture, h, Final(cfg.fixture), built.outcome);
    PublishedPerforms(cfg, h, built, res, i);
    ExecutePerforms(cfg, w, built, i);
  }

  lemma ExecutePerforms(cfg: Config, w: World, built: Built, i: TickInput)
    requires w.executor.NotSubmitted? && w.handoff.Some? && w.handoff.value.wormhole.Some?
    requires FindFinal(cfg.fixture.records).Some?
    requires Level4Checked(cfg.setup, cfg.fixture, w.handoff.value) == Ok(Final(cfg.fixture))
    requires Level4Build(cfg.setup, cfg.fixture, w.handoff.value, Final(cfg.fixture)) == Ok(built)
    ensures ExecutorTick(cfg, w, i) ==
            [Emit(R.Event.Heartbeat(i.now, i.nextAt), false), Emit(R.TxlineCpiVerified(i.slot), true)] +
            Published(cfg, w.handoff.value, built, i)
  {
    hide Level4Checked, Level4Build, Published, FindFinal;
  }

  lemma SignersAre(ss: seq<Vaas.Signature>)
    ensures |SignerIndices(ss)| == |ss| && forall k | 0 <= k < |ss| :: SignerIndices(ss)[k] == ss[k].guardianIndex
  {
  }

  lemma SubmitPerforms(cfg: Config, built: Built, res: Level4Result, i: TickInput)
    ensures Submit(cfg, built, res, i) ==
            (if cfg.executorLive then
               [SendVaa(res.vaaBytes), Emit(R.Level4BaseSubmitted(i.txHash), false),
                Emit(R.BaseVaaVerified(i.block), false), PollRegistry(6, built.outcome.fixtureId, i.settleTxHash)]
             else
               [Emit(R.Level4BaseSubmitted(i.txHash), true), Emit(R.BaseVaaVerified(i.block), true),
                Reconcile(res.attestationId, i.settleTxHash, i.reason)]) +
            [SaveExecutor(Submitted(res.attestationId, false, None))]
  {
  }

  lemma PublishedPerforms(cfg: Config, h: Handoff, built: Built, res: Level4Result, i: TickInput)
    requires h.wormhole.Some? && FetchVaa(cfg.setup, i.vaaSource, built) == Ok(res.vaaBytes)
    requires Level4Accept(cfg.setup, built, res.vaaBytes) == Ok(res)
    ensures Published(cfg, h, built, i) ==
            [Emit(R.WormholeMessagePublished(h.wormhole.value.emitterBase58, h.wormhole.value.sequence), true),
             Emit(R.VaaReady(cfg.setup.c.keccak(res.vaaBytes), SignerIndices(res.vaa.signatures)), true)] +
            Submit(cfg, built, res, i)
  {
    hide FetchVaa, Level4Accept, Submit, SignerIndices;
  }

  // -------------------------------------------------------------------------
  // cre-source-dispatch
  // -------------------------------------------------------------------------

  /** The final record is there, and the proof has been available since the tick it was observed in. */
  predicate ProofReady(cfg: Config, w: World, i: TickInput) {
    && FindFinal(cfg.fixture.records).Some?
    && i.tick >= (match w.dispatch case FinalObserved(tick) => tick case _ => i.tick) +
                 (match cfg.fixture.ticksAfterFinalObserved case Some(n) => n case None => 0)
  }

  /** The last actions of a tick that stages: the buffer, its chunks in order, the seal under the bundle's
      hash, two events, the handoff and only then "staged". */
  function Staging(cfg: Config, chunks: seq<bytes>, hash: bytes32, i: TickInput): seq<Action>
    requires FindFinal(cfg.fixture.records).Some?
  {
    var f, r := cfg.fixture, Final(cfg.fixture);
    var address := cfg.addressOf(f.fixtureId + ":" + r.sequence);
    [InitBuffer(address)] + seq(|chunks|, k requires 0 <= k < |chunks| => AppendChunk(address, chunks[k])) +
    [SealBuffer(address, hash), Emit(R.ProofStaged(i.sealSignature), true),
     Emit(R.SolanaVerifySubmitted(i.verifySignature), true),
     WriteHandoff(Handoff(cfg.fixturePath, f.fixtureId, r.sequence, hash, f.rootAccount, f.wormhole)),
     SaveDispatch(Staged)]
  }

  predicate EndsWith(todo: seq<Action>, end: seq<Action>) { |end| <= |todo| && todo[|todo| - |end|..] == end }

  lemma StageSays(cfg: Config, i: TickInput)
    requires FindFinal(cfg.fixture.records).Some?
    ensures var root := DailyRootFor(cfg.fixture, Final(cfg.fixture).timestampMs);
            var todo := Stage(cfg, i);
            && (SaveDispatch(Staged) in todo <==> root == Ok(cfg.fixture.rootAccount) && cfg.chunkSize > 0)
            && (Reports(todo, DISPATCH_STAGE, i.reason) <==> root.Ok? && root.value != cfg.fixture.rootAccount)
            && OnlyFailure(todo, DISPATCH_STAGE, i.reason)
            && (forall a <- todo :: a.SaveDispatch? ==> a.dispatch == Staged)
            && (root == Ok(cfg.fixture.rootAccount) && cfg.chunkSize > 0 ==> EndsWith(todo, StagingOf(cfg, i)))
  {
    hide FindFinal, DailyRootFor, ProofBundle, ProofBundleHash, BufferChunks, Reports, ReportsNone, OnlyFailure;
    var root := DailyRootFor(cfg.fixture, Final(cfg.fixture).timestampMs);
    var hash := ProofBundleHash(cfg.setup.c, ProofBundle(cfg.fixture, Final(cfg.fixture)));
    var todo, event := Stage(cfg, i), Emit(R.ProofAvailable(hash, cfg.fixture.rootAccount), !cfg.fixtureLive);
    var rest := todo[1..];
    assert todo == [event] + rest;
    NothingSays(DISPATCH_STAGE, i.reason);
    if root.Err? {
      assert rest == [];
    } else if root.value != cfg.fixture.rootAccount {
      FailedSays(i.reason, !cfg.fixtureLive);
    } else {
      StagesSay(cfg, i);
      assert rest == [InitBuffer(BufferAddress(cfg))] + if cfg.chunkSize <= 0 then [] else Upload(cfg, i);
    }
    EventBefore(event.event, !cfg.fixtureLive, rest, DISPATCH_STAGE, i.reason);
  }

  function StagingOf(cfg: Config, i: TickInput): seq<Action>
    requires FindFinal(cfg.fixture.records).Some? && cfg.chunkSize > 0
  {
    Staging(cfg, BufferChunks(cfg), ProofBundleHash(cfg.setup.c, ProofBundle(cfg.fixture, Final(cfg.fixture))), i)
  }

  lemma FailedSays(reason: string, simulated: bool)
    ensures var todo := [Emit(R.RunFailed(DISPATCH_STAGE, reason), simulated)];
            && Reports(todo, DISPATCH_STAGE, reason) && OnlyFailure(todo, DISPATCH_STAGE, reason)
            && SaveDispatch(Staged) !in todo
  {
    var todo := [Emit(R.RunFailed(DISPATCH_STAGE, reason), simulated)];
    assert todo[0] == Emit(R.RunFailed(DISPATCH_STAGE, reason), todo[0].Emit? && todo[0].simulated);
  }

  lemma StagesSay(cfg: Config, i: TickInput)
    requires FindFinal(cfg.fixture.records).Some?
    ensures var todo := [InitBuffer(BufferAddress(cfg))] + if cfg.chunkSize <= 0 then [] else Upload(cfg, i);
            && (SaveDispatch(Staged) in todo <==> cfg.chunkSize > 0)
            && !Reports(todo, DISPATCH_STAGE, i.reason) && OnlyFailure(todo, DISPATCH_STAGE, i.reason)
            && (forall a <- todo :: a.SaveDispatch? ==> a.dispatch == Staged)
            && (cfg.chunkSize > 0 ==> todo == StagingOf(cfg, i))
  {
    hide FindFinal, ProofBundle, ProofBundleHash, BufferChunks, Upload, StagingOf, BufferAddress;
    if cfg.chunkSize > 0 {
      UploadIs(cfg, i);
      StagingSays(cfg, i);
    }
  }

  lemma UploadIs(cfg: Config, i: TickInput)
    requires FindFinal(cfg.fixture.records).Some? && cfg.chunkSize > 0
    ensures [InitBuffer(BufferAddress(cfg))] + Upload(cfg, i) == StagingOf(cfg, i)
  {
    hide FindFinal, ProofBundle, ProofBundleHash, BufferChunks;
  }

  lemma StagingSays(cfg: Config, i: TickInput)
    requires FindFinal(cfg.fixture.records).Some? && cfg.chunkSize > 0
    ensures var todo := StagingOf(cfg, i);
            && SaveDispatch(Staged) in todo && ReportsNone(todo) && !Reports(todo, DISPATCH_STAGE, i.reason)
            && OnlyFailure(todo, DISPATCH_STAGE, i.reason)
            && forall a <- todo :: a.SaveDispatch? ==> a.dispatch == Staged
  {
    hide FindFinal, ProofBundle, ProofBundleHash, BufferChunks;
    var todo := StagingOf(cfg, i);
    assert todo[|todo| - 1] == SaveDispatch(Staged);
  }

  /** The day's root account is the fixture's. */
  predicate RootMatches(cfg: Config)
    requires FindFinal(cfg.fixture.records).Some?
  {
    DailyRootFor(cfg.fixture, Final(cfg.fixture).timestampMs) == Ok(cfg.fixture.rootAccount)
  }

  /** A TICK OF THE DISPATCH WORKFLOW that has not staged: it notes the tick it first saw the final record
      in; once the proof is ready it stages exactly when the day's root is the fixture's and the chunk
      size is positive, and fails exactly when the root is another one. */
  lemma DispatchTickSays(cfg: Config, w: World, i: TickInput)
    requires w.dispatch != Staged
    ensures var todo := DispatchTick(cfg, w, i);
            && (SaveDispatch(FinalObserved(i.tick)) in todo <==>
                  w.dispatch == Watching && FindFinal(cfg.fixture.records).Some?)
            && (SaveDispatch(Staged) in todo <==> ProofReady(cfg, w, i) && RootMatches(cfg) && cfg.chunkSize > 0)
            && (Reports(todo, "source-dispatch", i.reason) <==>
                  ProofReady(cfg, w, i) && !RootMatches(cfg) &&
                  DailyRootFor(cfg.fixture, Final(cfg.fixture).timestampMs).Ok?)
            && OnlyFailure(todo, "source-dispatch", i.reason)
            && (ProofReady(cfg, w, i) && RootMatches(cfg) && cfg.chunkSize > 0 ==> EndsWith(todo, StagingOf(cfg, i)))
  {
    hide FindFinal, DailyRootFor, Stage, StagingOf, Reports, ReportsNone, OnlyFailure;
    var todo := DispatchTick(cfg, w, i);
    NothingSays(DISPATCH_STAGE, i.reason);
    if FindFinal(cfg.fixture.records).Some? {
      StageSays(cfg, i);
      var staging := if ProofReady(cfg, w, i) then Stage(cfg, i) else [];
      var noted :=
        if w.dispatch == Watching
        then [Emit(R.FinalRecordObserved(cfg.fixture.fixtureId, Final(cfg.fixture).sequence), !cfg.fixtureLive),
              SaveDispatch(FinalObserved(i.tick))]
        else [];
      assert todo == (Heartbeat(i) + noted) + staging;
      NotedSays(cfg, i, noted);
      ReportsSplit(Heartbeat(i) + noted, staging, DISPATCH_STAGE, i.reason);
      OnlySplit(Heartbeat(i) + noted, staging, DISPATCH_STAGE, i.reason);
      if ProofReady(cfg, w, i) && CanStage(cfg) { EndsAlso(Heartbeat(i) + noted, staging, StagingOf(cfg, i)); }
    } else {
      assert todo == Heartbeat(i) + [];
      BeatSays(i);
      ReportsSplit(Heartbeat(i), [], DISPATCH_STAGE, i.reason);
      OnlySplit(Heartbeat(i), [], DISPATCH_STAGE, i.reason);
    }
  }

  lemma NotedSays(cfg: Config, i: TickInput, noted: seq<Action>)
    requires forall a <- noted :: (a.Emit? && !a.event.RunFailed?) || a.SaveDispatch?
    ensures ReportsNone(Heartbeat(i) + noted)
  {
  }

  lemma EndsAlso(a: seq<Action>, b: seq<Action>, end: seq<Action>)
    requires EndsWith(b, end)
    ensures EndsWith(a + b, end)
  {
  }

  /** Once it has staged, or done its work, a workflow only beats; a submitted live executor that saw
      neither dual finality nor a settlement polls six times more. */
  lemma IdleTicksSay(cfg: Config, w: World, i: TickInput)
    ensures w.dispatch == Staged ==> DispatchTick(cfg, w, i) == [Emit(R.Event.Heartbeat(i.now, i.nextAt), false)]
    ensures w.attestor.Reported? || w.handoff == None ==>
              AttestorTick(cfg, w, i) == [Emit(R.Event.Heartbeat(i.now, i.nextAt), false)]
    ensures w.executor.NotSubmitted? && w.handoff == None ==>
              ExecutorTick(cfg, w, i) == [Emit(R.Event.Heartbeat(i.now, i.nextAt), false)]
    ensures w.executor.Submitted? ==>
              ExecutorTick(cfg, w, i) ==
              [Emit(R.Event.Heartbeat(i.now, i.nextAt), false)] +
              var f := match w.handoff case None => Some(0) case Some(h) => cfg.setup.bigInt(h.fixtureId);
              if cfg.executorLive && !w.executor.dualFinalized && w.executor.settleTxHash == None && f.Some?
              then [PollRegistry(6, f.value, i.settleTxHash), SaveExecutor(w.executor)] else []
  {
    hide Execute, Attest;
  }
}
