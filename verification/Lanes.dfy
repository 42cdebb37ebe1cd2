/** The two verification lanes: how Level 3 (workflows/cre-level3-attestor/main.ts) and Level 4
    (workflows/cre-vaa-executor/main.ts) derive the attestation id from one fixture and one handoff. */
module Lanes {
  import opened Bytes
  import opened Text
  import opened CanonicalJson
  import opened Digests
  import opened SolanaTx
  import Base58
  import Payload
  import Quorum
  import Tamper
  import Vaas

  // -------------------------------------------------------------------------
  // Inputs
  // -------------------------------------------------------------------------

  datatype ScoreRecord = ScoreRecord(
    action: string, statusId: int, period: int, sequence: string,
    participant1Score: int, participant2Score: int, timestampMs: int)

  datatype WormholeRef = WormholeRef(emitterBase58: string, sequence: string)

  datatype Fixture = Fixture(
    fixtureId: string, participant1: string, participant2: string, records: seq<ScoreRecord>,
    proof: Json, rootAccount: string, dailyRootPdaByEpochDay: map<string, string>, strategy: string,
    ticksAfterFinalObserved: Option<int>, wormhole: Option<WormholeRef>, destinationChain: Option<int>)

  datatype Handoff = Handoff(
    fixturePath: Option<string>, fixtureId: string, sequence: string, proofBundleHash: bytes32,
    rootAccount: string, wormhole: Option<WormholeRef>)

  /** The recorded conformance vector, when the file exists. */
  datatype Vector = Vector(
    fixtureId: string, scoreSequence: string, validationInstructionHash: bytes32, proofBundleHash: bytes32,
    attestationId: bytes32, encodedPayload: bytes, sourceEmitter: bytes32)

  /** What a lane is configured with: primitives, BigInt(string), the program key, the vector. */
  datatype Setup = Setup(
    c: Crypto, bigInt: string -> Option<int>, payer: bytes32, programB58: string, vector: Option<Vector>)

  datatype LaneError =
    | NoFixturePath | NoWormhole | NoFinalRecord | BadKey(keyError: Base58.Base58Error) | BadTransaction
    | ProgramMismatch | NoDailyRoot | DailyRootMismatch | NotCanonicalPredicate | PredicateMismatch
    | QuorumNotReached | BundleHashMismatch | NoEmitter | BadBigInt | IntegerOutOfRange | VectorMismatch
    | VaaNotAvailable | BadVaa | BadSignatures(fault: Quorum.SignatureFault) | BadOutcome | PayloadDiffers

  predicate IsFinal(r: ScoreRecord) { r.action == "game_finalised" && r.statusId == 100 && r.period == 100 }

  /** records.find(...) */
  function FindFinal(records: seq<ScoreRecord>): Option<ScoreRecord>
  {
    if records == [] then None else if IsFinal(records[0]) then Some(records[0]) else FindFinal(records[1..])
  }

  function Final(f: Fixture): ScoreRecord
    requires FindFinal(f.records).Some?
  {
    FindFinal(f.records).value
  }

  function IntJson(n: int): Json { Num(IntText(n)) }

  function ProofBundle(f: Fixture, r: ScoreRecord): Json
  {
    Obj([
      Field("finalRecord", Obj([
        Field("action", Str(r.action)), Field("fixtureId", Str(f.fixtureId)), Field("statusId", IntJson(r.statusId)),
        Field("period", IntJson(r.period)), Field("participant1", Str(f.participant1)),
        Field("participant2", Str(f.participant2)), Field("participant1Score", IntJson(r.participant1Score)),
        Field("participant2Score", IntJson(r.participant2Score)), Field("sequence", Str(r.sequence))])),
      Field("proof", f.proof), Field("rootAccount", Str(f.rootAccount)), Field("strategy", Str(f.strategy))])
  }

  /** BigInt(timestampMs) / 86_400_000n rounds towards zero. */
  function EpochDay(timestampMs: int): int
  {
    if timestampMs >= 0 then timestampMs / 86_400_000 else -(-timestampMs / 86_400_000)
  }

  /** The recorded daily-root key for the proof's day; an absent or empty entry throws. */
  function DailyRootFor(f: Fixture, timestampMs: int): Result<string, LaneError>
  {
    var day := IntText(EpochDay(timestampMs));
    if day in f.dailyRootPdaByEpochDay && f.dailyRootPdaByEpochDay[day] != ""
    then Ok(f.dailyRootPdaByEpochDay[day]) else Err(NoDailyRoot)
  }

  function Key(b58: string): Result<bytes32, LaneError>
  {
    match Base58.ToBytes32(b58) case Ok(b) => Ok(b) case Err(e) => Err(BadKey(e))
  }

  function Integer(setup: Setup, s: string): Result<int, LaneError>
  {
    match setup.bigInt(s) case Some(n) => Ok(n) case None => Err(BadBigInt)
  }

  function IdOf(c: Crypto, i: Identity): Result<bytes32, LaneError>
  {
    match AttestationId(c, i) case Some(id) => Ok(id) case None => Err(IntegerOutOfRange)
  }

  function Check(condition: bool, error: LaneError): Result<(), LaneError>
  {
    if condition then Ok(()) else Err(error)
  }

  function PredicateOf(f: Fixture, r: ScoreRecord): Predicate
  {
    Predicate(f.fixtureId, r.participant1Score, r.participant2Score, r.period)
  }

  // -------------------------------------------------------------------------
  // Level 3
  // -------------------------------------------------------------------------

  datatype Level3Report = Level3Report(
    attestationId: bytes32, fixtureId: int, participant1Score: int, participant2Score: int,
    proofBundleHash: bytes32, result: int)

  /** encodeAbiParameters throws for an integer outside its ABI type. */
  predicate Encodable(r: Level3Report) {
    FitsSigned(r.fixtureId, 8) && FitsSigned(r.participant1Score, 4) && FitsSigned(r.participant2Score, 4)
  }

  /** The bytes the simulation request carries. */
  function SimulationTx(setup: Setup, f: Fixture, h: Handoff, r: ScoreRecord): Result<bytes, LaneError>
  {
    var dailyRoot :- Key(h.rootAccount);
    var program :- Key(setup.programB58);
    Ok(TxBytes(setup.payer, dailyRoot, program, PredicateData(PredicateOf(f, r))))
  }

  /** The anti-spoofing assertions, run on what the serialized transaction decodes to. */
  function CheckedTx(setup: Setup, f: Fixture, h: Handoff, r: ScoreRecord): Result<DecodedTx, LaneError>
  {
    var tx :- SimulationTx(setup, f, h, r);
    var decoded :- (match DecodeTx(tx) case Ok(d) => Ok(d) case Err(_) => Err(BadTransaction));
    var expectedProgram :- Key(setup.programB58);
    var _ :- Check(decoded.program == expectedProgram, ProgramMismatch);
    var derivedPda :- DailyRootFor(f, r.timestampMs);
    var _ :- Check(derivedPda == h.rootAccount, DailyRootMismatch);
    var derivedKey :- Key(derivedPda);
    var _ :- Check(decoded.dailyRoot == derivedKey, DailyRootMismatch);
    var parsed :-
      (match ParsePredicateData(decoded.instructionData) case Some(p) => Ok(p) case None => Err(NotCanonicalPredicate));
    var _ :- Check(parsed == PredicateOf(f, r), PredicateMismatch);
    Ok(decoded)
  }

  function Level3Emitter(f: Fixture, h: Handoff): string
  {
    if h.wormhole.Some? then h.wormhole.value.emitterBase58
    else if f.wormhole.Some? then f.wormhole.value.emitterBase58 else ""
  }

  /** The identity Level 3 attests to, from the decoded transaction bytes. */
  function Level3Identity(setup: Setup, f: Fixture, h: Handoff, r: ScoreRecord,
                          decoded: DecodedTx): Result<Identity, LaneError>
  {
    var pbh := ProofBundleHash(setup.c, ProofBundle(f, r));
    var _ :- Check(pbh == h.proofBundleHash, BundleHashMismatch);
    var expectedProgram :- Key(setup.programB58);
    var _ :- Check(|decoded.dailyRoot| == 32, BadTransaction);
    var vih := ValidationInstructionHash(setup.c, expectedProgram, decoded.dailyRoot, decoded.instructionData);
    var emitterB58 := Level3Emitter(f, h);
    var _ :- Check(emitterB58 != "", NoEmitter);
    var sourceEmitter :- Key(emitterB58);
    var fixtureId :- Integer(setup, f.fixtureId);
    var scoreSequence :- Integer(setup, r.sequence);
    Ok(Identity(sourceEmitter, fixtureId, scoreSequence, vih, pbh))
  }

  predicate Level3VectorOk(setup: Setup, f: Fixture, r: ScoreRecord, i: Identity, id: bytes32)
  {
    && setup.vector.Some? && setup.vector.value.fixtureId == f.fixtureId
    && setup.vector.value.scoreSequence == r.sequence ==>
      && i.validationInstructionHash == setup.vector.value.validationInstructionHash
      && i.proofBundleHash == setup.vector.value.proofBundleHash
      && id == setup.vector.value.attestationId
  }

  /** Everything after the provider quorum up to the report that is sent. */
  function Level3Derive(setup: Setup, f: Fixture, h: Handoff, r: ScoreRecord,
                        decoded: DecodedTx): Result<Level3Report, LaneError>
  {
    var i :- Level3Identity(setup, f, h, r, decoded);
    var id :- IdOf(setup.c, i);
    var _ :- Check(Level3VectorOk(setup, f, r, i, id), VectorMismatch);
    var report := Level3Report(id, i.fixtureId, r.participant1Score, r.participant2Score, i.proofBundleHash,
                               Payload.DeriveResult(r.participant1Score, r.participant2Score));
    var _ :- Check(Encodable(report), IntegerOutOfRange);
    Ok(report)
  }

  /** The whole lane for one handoff: the report Level 3 sends, or why it sends none. */
  function Level3(setup: Setup, f: Fixture, h: Handoff, quorumReached: bool): Result<Level3Report, LaneError>
  {
    var _ :- Check(h.fixturePath.Some?, NoFixturePath);
    var r :- (match FindFinal(f.records) case Some(r) => Ok(r) case None => Err(NoFinalRecord));
    var decoded :- CheckedTx(setup, f, h, r);
    var _ :- Check(quorumReached, QuorumNotReached);
    Level3Derive(setup, f, h, r, decoded)
  }

  // -------------------------------------------------------------------------
  // Level 4
  // -------------------------------------------------------------------------

  /** The message Level 4 publishes and the id it derives from the builder's output. */
  datatype Built = Built(outcome: Payload.MatchOutcome, payload: bytes, attestationId: bytes32, body: Vaas.Body)

  /** The simulated adapter leg: bundle hash and daily root are checked against the handoff. */
  function Level4Checked(setup: Setup, f: Fixture, h: Handoff): Result<ScoreRecord, LaneError>
  {
    var _ :- Check(h.fixturePath.Some?, NoFixturePath);
    var _ :- Check(h.wormhole.Some?, NoWormhole);
    var r :- (match FindFinal(f.records) case Some(r) => Ok(r) case None => Err(NoFinalRecord));
    var _ :- Check(ProofBundleHash(setup.c, ProofBundle(f, r)) == h.proofBundleHash, BundleHashMismatch);
    var derivedPda :- DailyRootFor(f, r.timestampMs);
    var _ :- Check(derivedPda == h.rootAccount, DailyRootMismatch);
    Ok(r)
  }

  predicate Level4VectorOk(setup: Setup, f: Fixture, r: ScoreRecord, payload: bytes, emitter: bytes32, id: bytes32)
  {
    && setup.vector.Some? && setup.vector.value.fixtureId == f.fixtureId
    && setup.vector.value.scoreSequence == r.sequence ==>
      && payload == setup.vector.value.encodedPayload
      && id == setup.vector.value.attestationId
      && emitter == setup.vector.value.sourceEmitter
  }

  const SOURCE_VALIDATION_V2 := 2

  function Level4Outcome(setup: Setup, f: Fixture, h: Handoff, r: ScoreRecord): (o: Result<Payload.MatchOutcome,
                                                                                 LaneError>)
    ensures o.Ok? ==> Payload.Has32(o.value) && o.value.result in {1, 2, 3}
  {
    var dailyRoot :- Key(h.rootAccount);
    var program :- Key(setup.programB58);
    var vih := ValidationInstructionHash(setup.c, program, dailyRoot, PredicateData(PredicateOf(f, r)));
    var fixtureId :- Integer(setup, f.fixtureId);
    var scoreSequence :- Integer(setup, r.sequence);
    Ok(Payload.MatchOutcome(
      0, if f.destinationChain.Some? then f.destinationChain.value else Tamper.WORMHOLE_CHAIN_BASE_SEPOLIA,
      SOURCE_VALIDATION_V2, Payload.DeriveResult(r.participant1Score, r.participant2Score),
      fixtureId, scoreSequence, r.timestampMs, r.period, r.participant1Score, r.participant2Score,
      program, dailyRoot, vih, ProofBundleHash(setup.c, ProofBundle(f, r))))
  }

  function Level4Build(setup: Setup, f: Fixture, h: Handoff, r: ScoreRecord): (b: Result<Built, LaneError>)
    requires h.wormhole.Some?
    ensures b.Ok? ==> Payload.Has32(b.value.outcome)
  {
    var o :- Level4Outcome(setup, f, h, r);
    var payload := Payload.Layout(o);
    var emitter :- Key(h.wormhole.value.emitterBase58);
    var id :- IdOf(setup.c, Identity(emitter, o.fixtureId, o.scoreSequence, o.validationInstructionHash,
                                     o.proofBundleHash));
    var _ :- Check(Level4VectorOk(setup, f, r, payload, emitter, id), VectorMismatch);
    var sequence :- Integer(setup, h.wormhole.value.sequence);
    Ok(Built(o, payload, id,
             Vaas.Body(r.timestampMs / 1000, 0, Tamper.WORMHOLE_CHAIN_SOLANA, emitter, sequence, 1, payload)))
  }

  /** Where the signed VAA comes from: the file the dev guardians sign into, or the answer of a
      network endpoint. */
  datatype VaaSource = DevGuardianFile | Network(answer: Option<bytes>)

  function DevGuardianBytes(setup: Setup, built: Built): bytes
  {
    Vaas.Encoding(Quorum.SignedVaa(setup.c, built.body, Quorum.DEFAULT_INDICES))
  }

  /** fetchVaa: the file source compares chain, emitter and sequence with the request; the network
      source returns whatever decodes. */
  function FetchVaa(setup: Setup, source: VaaSource, built: Built): Result<bytes, LaneError>
  {
    match source
    case DevGuardianFile =>
      var b := DevGuardianBytes(setup, built);
      (match Vaas.Decode(b)
       case Err(_) => Err(VaaNotAvailable)
       case Ok(v) =>
         if && v.body.emitterChainId == built.body.emitterChainId
            && v.body.emitterAddress == built.body.emitterAddress
            && v.body.sequence == built.body.sequence
         then Ok(b) else Err(VaaNotAvailable))
    case Network(answer) =>
      if answer == None then Err(VaaNotAvailable)
      else if Vaas.Decode(answer.value).Err? then Err(BadVaa) else Ok(answer.value)
  }

  datatype Level4Result = Level4Result(attestationId: bytes32, vaaBytes: bytes, vaa: Vaas.Vaa)

  function Fault(setup: Setup, v: Vaas.Vaa): Quorum.SignatureFault
  {
    match Quorum.ExecutorFault(setup.c, v) case Some(fault) => fault case None => Quorum.NoQuorum
  }

  /** The executor's local checks on a fetched VAA. */
  function Level4Accept(setup: Setup, built: Built, vaaBytes: bytes): Result<Level4Result, LaneError>
  {
    var v :- (match Vaas.Decode(vaaBytes) case Ok(v) => Ok(v) case Err(_) => Err(BadVaa));
    var _ :- Check(v.version == 1 && Quorum.HasQuorum(setup.c, v), BadSignatures(Fault(setup, v)));
    var _ :- Check(Payload.Decode(v.body.payload).Ok?, BadOutcome);
    var _ :- Check(v.body.payload == built.payload, PayloadDiffers);
    Ok(Level4Result(built.attestationId, vaaBytes, v))
  }

  function Level4(setup: Setup, f: Fixture, h: Handoff, source: VaaSource): Result<Level4Result, LaneError>
  {
    var r :- Level4Checked(setup, f, h);
    var built :- Level4Build(setup, f, h, r);
    var vaaBytes :- FetchVaa(setup, source, built);
    Level4Accept(setup, built, vaaBytes)
  }

  // -------------------------------------------------------------------------
  // The identities meet
  // -------------------------------------------------------------------------

  /** JavaScript strings, and so their UTF-8, are far shorter than 2^31 bytes. */
  predicate Writable(f: Fixture, r: ScoreRecord) { |PredicateData(PredicateOf(f, r))| < 0x8000_0000 }

  /** The anti-spoofing assertions accept the built transaction exactly when both keys are valid, the
      handoff names the daily root of the proof's day and the predicate is printable; what they return
      is then what was built. */
  lemma CheckedTxAccepts(setup: Setup, f: Fixture, h: Handoff, r: ScoreRecord)
    requires Writable(f, r)
    ensures CheckedTx(setup, f, h, r).Ok? <==>
            && Key(h.rootAccount).Ok? && Key(setup.programB58).Ok?
            && DailyRootFor(f, r.timestampMs) == Ok(h.rootAccount) && Printable(PredicateOf(f, r))
    ensures CheckedTx(setup, f, h, r).Ok? ==>
            CheckedTx(setup, f, h, r).value ==
            DecodedTx(Key(setup.programB58).value, Key(h.rootAccount).value, PredicateData(PredicateOf(f, r)))
  {
    hide DecodeTx, ParsePredicateData, TxBytes, PredicateData, Printable, DailyRootFor;
    if Key(h.rootAccount).Ok? && Key(setup.programB58).Ok? {
      DecodeBuilt(setup.payer, Key(h.rootAccount).value, Key(setup.programB58).value, PredicateData(PredicateOf(f, r)));
      PredicateRoundTrip(PredicateOf(f, r));
    }
  }

  lemma Level3Steps(setup: Setup, f: Fixture, h: Handoff, quorumReached: bool)
    requires Level3(setup, f, h, quorumReached).Ok?
    ensures FindFinal(f.records).Some? && CheckedTx(setup, f, h, Final(f)).Ok?
    ensures var i := Level3Identity(setup, f, h, Final(f), CheckedTx(setup, f, h, Final(f)).value);
            i.Ok? && IdOf(setup.c, i.value) == Ok(Level3(setup, f, h, quorumReached).value.attestationId)
  {
    hide CheckedTx, Level3Identity, Encodable, Level3VectorOk, IdOf, FindFinal, Payload.DeriveResult;
  }

  /** The identity behind Level 4's id. */
  function Level4Identity(h: Handoff, o: Payload.MatchOutcome): Result<Identity, LaneError>
    requires h.wormhole.Some? && Payload.Has32(o)
  {
    var emitter :- Key(h.wormhole.value.emitterBase58);
    Ok(Identity(emitter, o.fixtureId, o.scoreSequence, o.validationInstructionHash, o.proofBundleHash))
  }

  lemma Level4Steps(setup: Setup, f: Fixture, h: Handoff, source: VaaSource)
    requires Level4(setup, f, h, source).Ok?
    ensures FindFinal(f.records).Some? && h.wormhole.Some? && Level4Checked(setup, f, h) == Ok(Final(f))
    ensures Level4Build(setup, f, h, Final(f)).Ok?
    ensures var built := Level4Build(setup, f, h, Final(f)).value;
            var res := Level4(setup, f, h, source).value;
            && FetchVaa(setup, source, built) == Ok(res.vaaBytes)
            && Level4Accept(setup, built, res.vaaBytes) == Ok(res)
  {
    hide Level4Build, FetchVaa, DailyRootFor, ProofBundle;
  }

  lemma Level4BuildSteps(setup: Setup, f: Fixture, h: Handoff, r: ScoreRecord)
    requires h.wormhole.Some? && Level4Build(setup, f, h, r).Ok?
    ensures var built := Level4Build(setup, f, h, r).value;
            && Level4Outcome(setup, f, h, r) == Ok(built.outcome) && Payload.Has32(built.outcome)
            && built.payload == Payload.Layout(built.outcome)
            && built.body.payload == built.payload
            && Level4Identity(h, built.outcome).Ok?
            && built.body.emitterAddress == Level4Identity(h, built.outcome).value.sourceEmitter
            && IdOf(setup.c, Level4Identity(h, built.outcome).value) == Ok(built.attestationId)
  {
    hide Payload.Layout, Level4VectorOk, Level4Outcome, AttestationId;
  }

  lemma SameIdentity(setup: Setup, f: Fixture, h: Handoff, r: ScoreRecord, decoded: DecodedTx, o: Payload.MatchOutcome)
    requires h.wormhole.Some? && Level4Outcome(setup, f, h, r) == Ok(o) && Payload.Has32(o)
    requires Key(setup.programB58).Ok? && Key(h.rootAccount).Ok?
    requires decoded ==
             DecodedTx(Key(setup.programB58).value, Key(h.rootAccount).value, PredicateData(PredicateOf(f, r)))
    requires Level3Identity(setup, f, h, r, decoded).Ok?
    ensures Level4Identity(h, o) == Level3Identity(setup, f, h, r, decoded)
  {
    hide ProofBundle, PredicateData;
  }

  /** Level 3's identity, read back out of serialized bytes, is the identity Level 4 gets from the
      builder: two lanes that both deliver always deliver the same attestation id. */
  lemma LanesAgree(setup: Setup, f: Fixture, h: Handoff, quorumReached: bool, source: VaaSource)
    requires FindFinal(f.records).Some? ==> Writable(f, Final(f))
    requires Level3(setup, f, h, quorumReached).Ok? && Level4(setup, f, h, source).Ok?
    ensures Level3(setup, f, h, quorumReached).value.attestationId == Level4(setup, f, h, source).value.attestationId
  {
    Level3Steps(setup, f, h, quorumReached);
    Level4Steps(setup, f, h, source);
    var r := Final(f);
    Level4BuildSteps(setup, f, h, r);
    CheckedTxAccepts(setup, f, h, r);
    SameIdentity(setup, f, h, r, CheckedTx(setup, f, h, r).value, Level4Build(setup, f, h, r).value.outcome);
    Level4KeepsId(setup, f, h, source);
  }

  lemma Level4KeepsId(setup: Setup, f: Fixture, h: Handoff, source: VaaSource)
    requires Level4(setup, f, h, source).Ok? && FindFinal(f.records).Some? && h.wormhole.Some?
    requires Level4Checked(setup, f, h) == Ok(Final(f)) && Level4Build(setup, f, h, Final(f)).Ok?
    ensures Level4(setup, f, h, source).value.attestationId == Level4Build(setup, f, h, Final(f)).value.attestationId
  {
    hide Level4Build, Level4Checked, FetchVaa;
  }

  /** Every integer of a message whose id exists survives the payload, whatever the others do. */
  lemma PayloadKeepsIdentity(o: Payload.MatchOutcome)
    requires Payload.Has32(o) && FitsSigned(o.fixtureId, 8) && FitsSigned(o.scoreSequence, 8)
    requires Payload.Decode(Payload.Layout(o)).Ok?
    ensures var d := Payload.Decode(Payload.Layout(o)).value;
            && d.fixtureId == o.fixtureId && d.scoreSequence == o.scoreSequence
            && d.validationInstructionHash == o.validationInstructionHash && d.proofBundleHash == o.proofBundleHash
  {
    hide Payload.Layout, Payload.Decode;
    Payload.DecodeLayout(o);
    SignedRoundTrip(o.fixtureId, 8);
    SignedRoundTrip(o.scoreSequence, 8);
  }

  /** The emitter Level 4 put into its id. */
  function HandoffEmitter(h: Handoff): Result<bytes32, LaneError>
    requires h.wormhole.Some?
  {
    Key(h.wormhole.value.emitterBase58)
  }

  /** What Base derives from an accepted VAA is Level 4's identity with the VAA's own emitter. */
  lemma BaseIdentity(setup: Setup, f: Fixture, h: Handoff, source: VaaSource)
    requires Level4(setup, f, h, source).Ok?
    ensures h.wormhole.Some? && HandoffEmitter(h).Ok?
    ensures var res := Level4(setup, f, h, source).value;
            && Tamper.DecodedIdentity(res.vaaBytes).Some?
            && var i := Tamper.DecodedIdentity(res.vaaBytes).value;
            && Packable(i) && i.sourceEmitter == res.vaa.body.emitterAddress
            && AttestationId(setup.c, i.(sourceEmitter := HandoffEmitter(h).value)) == Some(res.attestationId)
  {
    hide *;
    Level4Steps(setup, f, h, source);
    var r := Final(f);
    var built, res := Level4Build(setup, f, h, r).value, Level4(setup, f, h, source).value;
    Level4BuildSteps(setup, f, h, r);
    Level4KeepsId(setup, f, h, source);
    IdentityOfBuilt(setup, h, built.outcome, res.attestationId);
    AcceptedIdentity(setup, built, res);
  }

  lemma IdentityOfBuilt(setup: Setup, h: Handoff, o: Payload.MatchOutcome, id: bytes32)
    requires h.wormhole.Some? && Payload.Has32(o) && Level4Identity(h, o).Ok?
    requires IdOf(setup.c, Level4Identity(h, o).value) == Ok(id)
    ensures FitsSigned(o.fixtureId, 8) && FitsSigned(o.scoreSequence, 8) && HandoffEmitter(h).Ok?
    ensures AttestationId(setup.c, Identity(HandoffEmitter(h).value, o.fixtureId, o.scoreSequence,
                                            o.validationInstructionHash, o.proofBundleHash)) == Some(id)
  {
    hide IdentityPreimage, Base58.ToBytes32;
  }

  lemma AcceptedIdentity(setup: Setup, built: Built, res: Level4Result)
    requires Payload.Has32(built.outcome) && built.payload == Payload.Layout(built.outcome)
    requires FitsSigned(built.outcome.fixtureId, 8) && FitsSigned(built.outcome.scoreSequence, 8)
    requires Level4Accept(setup, built, res.vaaBytes) == Ok(res)
    ensures Tamper.DecodedIdentity(res.vaaBytes).Some? && Packable(Tamper.DecodedIdentity(res.vaaBytes).value)
    ensures var o := built.outcome;
            Tamper.DecodedIdentity(res.vaaBytes).value ==
            Identity(res.vaa.body.emitterAddress, o.fixtureId, o.scoreSequence, o.validationInstructionHash,
                     o.proofBundleHash)
  {
    hide Payload.Layout, Payload.Decode, Vaas.Decode;
    PayloadKeepsIdentity(built.outcome);
    Tamper.DecodedIdentityPackable(res.vaaBytes);
  }

  /** The attestation id Base computes from the bytes it was sent. */
  function BaseAttestationId(c: Crypto, vaaBytes: bytes): Option<bytes32>
  {
    match Tamper.DecodedIdentity(vaaBytes) case None => None case Some(i) => AttestationId(c, i)
  }

  /** The handoff's identity and the one Base decodes hash differently unless they are the same. */
  predicate EmittersDoNotCollide(c: Crypto, decoded: Identity, emitter: bytes32)
    requires Packable(decoded)
  {
    NoCollision(c, IdentityPreimage(c, decoded), IdentityPreimage(c, decoded.(sourceEmitter := emitter)))
  }

  /** Base arrives at Level 4's id exactly when the VAA was emitted by the handoff's emitter. */
  lemma BaseAgreesIff(setup: Setup, f: Fixture, h: Handoff, source: VaaSource)
    requires Level4(setup, f, h, source).Ok? && h.wormhole.Some? && HandoffEmitter(h).Ok?
    ensures var res := Level4(setup, f, h, source).value;
            && Tamper.DecodedIdentity(res.vaaBytes).Some? && Packable(Tamper.DecodedIdentity(res.vaaBytes).value)
            && (res.vaa.body.emitterAddress == HandoffEmitter(h).value ==>
                  BaseAttestationId(setup.c, res.vaaBytes) == Some(res.attestationId))
            && (EmittersDoNotCollide(setup.c, Tamper.DecodedIdentity(res.vaaBytes).value, HandoffEmitter(h).value)
                && BaseAttestationId(setup.c, res.vaaBytes) == Some(res.attestationId) ==>
                  res.vaa.body.emitterAddress == HandoffEmitter(h).value)
  {
    hide Level4, HandoffEmitter, Tamper.DecodedIdentity, IdentityPreimage;
    BaseIdentity(setup, f, h, source);
    var res := Level4(setup, f, h, source).value;
    var i := Tamper.DecodedIdentity(res.vaaBytes).value;
    var j := i.(sourceEmitter := HandoffEmitter(h).value);
    if NoCollision(setup.c, IdentityPreimage(setup.c, i), IdentityPreimage(setup.c, j))
       && AttestationId(setup.c, i) == AttestationId(setup.c, j)
    {
      IdentityPreimageInjective(setup.c, i, j);
    }
  }

  /** The file source hands back only a VAA of the handoff's emitter. */
  lemma FileSourceEmitter(setup: Setup, f: Fixture, h: Handoff)
    requires Level4(setup, f, h, DevGuardianFile).Ok? && h.wormhole.Some? && HandoffEmitter(h).Ok?
    ensures Level4(setup, f, h, DevGuardianFile).value.vaa.body.emitterAddress == HandoffEmitter(h).value
  {
    hide *;
    Level4Steps(setup, f, h, DevGuardianFile);
    Level4BuildSteps(setup, f, h, Final(f));
    var built, res := Level4Build(setup, f, h, Final(f)).value, Level4(setup, f, h, DevGuardianFile).value;
    FetchedFromFile(setup, built, res);
    EmitterOf(setup, h, built.outcome);
  }

  lemma FetchedFromFile(setup: Setup, built: Built, res: Level4Result)
    requires FetchVaa(setup, DevGuardianFile, built) == Ok(res.vaaBytes)
    requires Level4Accept(setup, built, res.vaaBytes) == Ok(res)
    ensures res.vaa.body.emitterAddress == built.body.emitterAddress
  {
    hide Vaas.Decode, Payload.Decode, DevGuardianBytes;
  }

  lemma EmitterOf(setup: Setup, h: Handoff, o: Payload.MatchOutcome)
    requires h.wormhole.Some? && Payload.Has32(o) && Level4Identity(h, o).Ok?
    ensures HandoffEmitter(h) == Ok(Level4Identity(h, o).value.sourceEmitter)
  {
    hide Key;
  }

  /** DUAL FINALIZED: one id, derived three times - by Level 3 from decoded transaction bytes, by
      Level 4 from the builder's output, by Base from the decoded VAA and payload. */
  lemma ThreeDerivationsAgree(setup: Setup, f: Fixture, h: Handoff, quorumReached: bool)
    requires FindFinal(f.records).Some? ==> Writable(f, Final(f))
    requires Level3(setup, f, h, quorumReached).Ok? && Level4(setup, f, h, DevGuardianFile).Ok?
    ensures var l3, l4 := Level3(setup, f, h, quorumReached).value, Level4(setup, f, h, DevGuardianFile).value;
            l3.attestationId == l4.attestationId && BaseAttestationId(setup.c, l4.vaaBytes) == Some(l3.attestationId)
  {
    hide *;
    LanesAgree(setup, f, h, quorumReached, DevGuardianFile);
    BaseIdentity(setup, f, h, DevGuardianFile);
    FileSourceEmitter(setup, f, h);
    BaseAgreesIff(setup, f, h, DevGuardianFile);
  }

  // -------------------------------------------------------------------------
  // When the lanes deliver
  // -------------------------------------------------------------------------

  lemma SmallSignatures(c: Crypto, v: Vaas.Vaa)
    requires Quorum.HasQuorum(c, v) && forall s <- v.signatures :: s.v in {0, 1}
    ensures Vaas.WrapSignatures(v.signatures) == v.signatures
  {
    forall i | 0 <= i < |v.signatures|
      ensures Vaas.WrapSignature(v.signatures[i]) == v.signatures[i]
    {
      assert Quorum.SignedByGuardian(c, SigningDigest(c, v.body), v.signatures[i]);
    }
  }

  /** A VAA signed by 13 different dev guardians, as its reader sees it, still has its quorum. */
  lemma DevSigned(c: Crypto, body: Vaas.Body, d: seq<int>)
    requires SignaturesRecover(c) && |d| == 13 && Quorum.KnownIndices(d) && Quorum.Distinct(d)
    ensures var signed := Quorum.SignedVaa(c, body, d);
            && Vaas.Decode(Vaas.Encoding(signed)) == Ok(signed.(body := Vaas.WrapBody(body)))
            && Quorum.HasQuorum(c, signed.(body := Vaas.WrapBody(body)))
  {
    hide Vaas.Decode, Vaas.Encoding, Quorum.SortIndices, Vaas.BodyBytes;
    var signed := Quorum.SignedVaa(c, body, d);
    Quorum.SignedIsAccepted(c, body, d);
    forall s | s in signed.signatures
      ensures s.v in {0, 1}
    {
      var (x, y, z) := c.sign(SigningDigest(c, body), s.guardianIndex);
    }
    SmallSignatures(c, signed);
    Vaas.DecodeEncoding(signed);
    Vaas.WrapKeepsBodyBytes(body);
    assert Vaas.WrapVaa(signed) == signed.(body := Vaas.WrapBody(body)) by { Pow256Positive(); }
  }

  lemma Pow256Positive()
    ensures 0 % Pow256(4) == 0
  {
    DivModUnique(0, Pow256(4), 0, 0);
  }

  /** With the dev-guardian source Level 4 delivers whenever it could build the message and the
      Wormhole sequence fits 64 bits: its own local checks never reject what its guardians signed. */
  lemma Level4Delivers(setup: Setup, f: Fixture, h: Handoff)
    requires SignaturesRecover(setup.c)
    requires Level4Checked(setup, f, h).Ok? && Level4Build(setup, f, h, Final(f)).Ok?
    ensures Level4(setup, f, h, DevGuardianFile).Ok? <==>
            FitsUnsigned(Level4Build(setup, f, h, Final(f)).value.body.sequence, 8)
  {
    hide *;
    CheckedIsFinal(setup, f, h);
    var r := Final(f);
    var built := Level4Build(setup, f, h, r).value;
    Level4BuildSteps(setup, f, h, r);
    BuiltBody(setup, f, h, r);
    Quorum.DefaultIndicesAreDistinct(Quorum.DEFAULT_INDICES);
    DevSigned(setup.c, built.body, Quorum.DEFAULT_INDICES);
    DevFetch(setup, built, Quorum.SignedVaa(setup.c, built.body, Quorum.DEFAULT_INDICES));
    Level4Unfold(setup, f, h, DevGuardianFile, built);
  }

  lemma CheckedIsFinal(setup: Setup, f: Fixture, h: Handoff)
    requires Level4Checked(setup, f, h).Ok?
    ensures FindFinal(f.records).Some? && h.wormhole.Some? && Level4Checked(setup, f, h) == Ok(Final(f))
  {
    hide DailyRootFor, ProofBundle;
  }

  lemma BuiltBody(setup: Setup, f: Fixture, h: Handoff, r: ScoreRecord)
    requires h.wormhole.Some? && Level4Build(setup, f, h, r).Ok?
    ensures var built := Level4Build(setup, f, h, r).value;
            && built.body.emitterChainId == 1 && built.body.payload == built.payload
            && Payload.Decode(built.payload).Ok?
  {
    hide Payload.Layout, Payload.Decode, Level4VectorOk, Level4Outcome, Key, AttestationId;
    Payload.DecodeLayout(Level4Outcome(setup, f, h, r).value);
  }

  lemma DevFetch(setup: Setup, built: Built, signed: Vaas.Vaa)
    requires signed == Quorum.SignedVaa(setup.c, built.body, Quorum.DEFAULT_INDICES)
    requires Vaas.Decode(Vaas.Encoding(signed)) == Ok(signed.(body := Vaas.WrapBody(built.body)))
    requires Quorum.HasQuorum(setup.c, signed.(body := Vaas.WrapBody(built.body)))
    requires built.body.emitterChainId == 1 && built.body.payload == built.payload && Payload.Decode(built.payload).Ok?
    ensures FetchVaa(setup, DevGuardianFile, built) ==
            if FitsUnsigned(built.body.sequence, 8) then Ok(DevGuardianBytes(setup, built)) else Err(VaaNotAvailable)
    ensures Level4Accept(setup, built, DevGuardianBytes(setup, built)).Ok?
  {
    hide Quorum.SortIndices, Vaas.Decode, Vaas.Encoding, Payload.Decode, Quorum.HasQuorum;
    Vaas.SmallMod(built.body.sequence, Pow256(8));
    Vaas.SmallMod(1, Pow256(2));
    Widths();
  }

  lemma Level4Unfold(setup: Setup, f: Fixture, h: Handoff, source: VaaSource, built: Built)
    requires FindFinal(f.records).Some? && h.wormhole.Some?
    requires Level4Checked(setup, f, h) == Ok(Final(f)) && Level4Build(setup, f, h, Final(f)) == Ok(built)
    ensures Level4(setup, f, h, source).Ok? <==>
            && FetchVaa(setup, source, built).Ok?
            && Level4Accept(setup, built, FetchVaa(setup, source, built).value).Ok?
  {
    hide Level4Checked, Level4Build, FetchVaa, Level4Accept;
  }

  /** An answer the network source may give for this message: the dev guardians' signatures on the same
      payload from another emitter. */
  function ForeignAnswer(setup: Setup, built: Built, other: bytes32): bytes
  {
    Vaas.Encoding(Quorum.SignedVaa(setup.c, built.body.(emitterAddress := other), Quorum.DEFAULT_INDICES))
  }

  lemma AcceptsForeign(setup: Setup, built: Built, other: bytes32)
    requires SignaturesRecover(setup.c) && built.body.payload == built.payload && Payload.Decode(built.payload).Ok?
    ensures var answer := ForeignAnswer(setup, built, other);
            && FetchVaa(setup, Network(Some(answer)), built) == Ok(answer)
            && Level4Accept(setup, built, answer).Ok?
            && Level4Accept(setup, built, answer).value.vaa.body.emitterAddress == other
  {
    hide Quorum.SortIndices, Vaas.Decode, Vaas.Encoding, Payload.Decode, Quorum.HasQuorum, Quorum.SignedVaa;
    Quorum.DefaultIndicesAreDistinct(Quorum.DEFAULT_INDICES);
    DevSigned(setup.c, built.body.(emitterAddress := other), Quorum.DEFAULT_INDICES);
    SignedVersion(setup.c, built.body.(emitterAddress := other), Quorum.DEFAULT_INDICES);
  }

  lemma SignedVersion(c: Crypto, body: Vaas.Body, d: seq<int>)
    requires Quorum.KnownIndices(d)
    ensures Quorum.SignedVaa(c, body, d).version == 1
  {
    hide Quorum.SortIndices;
  }

  /** Such an answer exists for every message and every other emitter: the executor takes it and reports an
      id that Base, which hashes the emitter it reads, does not arrive at. */
  lemma NetworkEmitterDiffers(setup: Setup, f: Fixture, h: Handoff, other: bytes32)
    requires SignaturesRecover(setup.c)
    requires Level4Checked(setup, f, h).Ok? && h.wormhole.Some? && Level4Build(setup, f, h, Final(f)).Ok?
    requires HandoffEmitter(h).Ok? && other != HandoffEmitter(h).value
    ensures var answer := ForeignAnswer(setup, Level4Build(setup, f, h, Final(f)).value, other);
            var l4 := Level4(setup, f, h, Network(Some(answer)));
            && l4.Ok? && l4.value.vaaBytes == answer && l4.value.vaa.body.emitterAddress == other
            && Tamper.DecodedIdentity(answer).Some? && Packable(Tamper.DecodedIdentity(answer).value)
            && (EmittersDoNotCollide(setup.c, Tamper.DecodedIdentity(answer).value, HandoffEmitter(h).value) ==>
                  BaseAttestationId(setup.c, answer) != Some(l4.value.attestationId))
  {
    hide *;
    CheckedIsFinal(setup, f, h);
    var r := Final(f);
    var built := Level4Build(setup, f, h, r).value;
    var answer := ForeignAnswer(setup, built, other);
    Level4BuildSteps(setup, f, h, r);
    BuiltBody(setup, f, h, r);
    AcceptsForeign(setup, built, other);
    Level4Takes(setup, f, h, Network(Some(answer)), built, answer);
    BaseAgreesIff(setup, f, h, Network(Some(answer)));
  }

  lemma Level4Takes(setup: Setup, f: Fixture, h: Handoff, source: VaaSource, built: Built, answer: bytes)
    requires FindFinal(f.records).Some? && h.wormhole.Some?
    requires Level4Checked(setup, f, h) == Ok(Final(f)) && Level4Build(setup, f, h, Final(f)) == Ok(built)
    requires FetchVaa(setup, source, built) == Ok(answer) && Level4Accept(setup, built, answer).Ok?
    ensures Level4(setup, f, h, source) == Level4Accept(setup, built, answer)
    ensures Level4Accept(setup, built, answer).value.vaaBytes == answer
  {
    hide Level4Checked, Level4Build, FetchVaa, Vaas.Decode, Payload.Decode, Quorum.HasQuorum;
  }

  /** What Level 3 asks beyond Level 4, exactly: a provider quorum, a decimal fixture id, scores that
      are not negative and fit the ABI's int32, a non-empty emitter key and its own vector check. */
  lemma Level3DeliversIff(setup: Setup, f: Fixture, h: Handoff, quorumReached: bool, source: VaaSource)
    requires Level4(setup, f, h, source).Ok?
    requires FindFinal(f.records).Some? ==> Writable(f, Final(f))
    ensures FindFinal(f.records).Some? && h.wormhole.Some? && Level4Build(setup, f, h, Final(f)).Ok?
    ensures var r, built := Final(f), Level4Build(setup, f, h, Final(f)).value;
            Level3(setup, f, h, quorumReached).Ok? <==>
            && quorumReached && Printable(PredicateOf(f, r))
            && FitsSigned(r.participant1Score, 4) && FitsSigned(r.participant2Score, 4)
            && h.wormhole.value.emitterBase58 != ""
            && Level4Identity(h, built.outcome).Ok?
            && Level3VectorOk(setup, f, r, Level4Identity(h, built.outcome).value, built.attestationId)
  {
    hide *;
    Level4Steps(setup, f, h, source);
    var r := Final(f);
    var built := Level4Build(setup, f, h, r).value;
    Level4BuildSteps(setup, f, h, r);
    Level4CheckedSteps(setup, f, h);
    OutcomeKeys(setup, f, h, r);
    CheckedTxAccepts(setup, f, h, r);
    if Printable(PredicateOf(f, r)) {
      Level3OfLevel4(setup, f, h, r, CheckedTx(setup, f, h, r).value, built.outcome);
    }
    Level3Unfold(setup, f, h, quorumReached, built.outcome, built.attestationId);
  }

  lemma Level4CheckedSteps(setup: Setup, f: Fixture, h: Handoff)
    requires Level4Checked(setup, f, h).Ok? && FindFinal(f.records).Some?
    ensures h.fixturePath.Some? && DailyRootFor(f, Final(f).timestampMs) == Ok(h.rootAccount)
    ensures ProofBundleHash(setup.c, ProofBundle(f, Final(f))) == h.proofBundleHash
  {
    hide DailyRootFor, ProofBundle, ProofBundleHash;
  }

  lemma OutcomeKeys(setup: Setup, f: Fixture, h: Handoff, r: ScoreRecord)
    requires Level4Outcome(setup, f, h, r).Ok?
    ensures Key(h.rootAccount).Ok? && Key(setup.programB58).Ok?
    ensures Integer(setup, f.fixtureId).Ok? && Integer(setup, r.sequence).Ok?
  {
    hide Key, Integer, ProofBundle, PredicateData;
  }

  lemma Level3OfLevel4(setup: Setup, f: Fixture, h: Handoff, r: ScoreRecord, decoded: DecodedTx,
                       o: Payload.MatchOutcome)
    requires h.wormhole.Some? && Level4Outcome(setup, f, h, r) == Ok(o) && Payload.Has32(o)
    requires Key(setup.programB58).Ok? && Key(h.rootAccount).Ok?
    requires decoded ==
             DecodedTx(Key(setup.programB58).value, Key(h.rootAccount).value, PredicateData(PredicateOf(f, r)))
    requires ProofBundleHash(setup.c, ProofBundle(f, r)) == h.proofBundleHash
    ensures Level3Identity(setup, f, h, r, decoded) ==
            if h.wormhole.value.emitterBase58 == "" then Err(NoEmitter) else Level4Identity(h, o)
  {
    hide ProofBundle, PredicateData;
  }

  lemma Level3Unfold(setup: Setup, f: Fixture, h: Handoff, quorumReached: bool, o: Payload.MatchOutcome, id: bytes32)
    requires FindFinal(f.records).Some? && h.wormhole.Some? && h.fixturePath.Some? && Payload.Has32(o)
    requires Level4Identity(h, o).Ok? && IdOf(setup.c, Level4Identity(h, o).value) == Ok(id)
    requires CheckedTx(setup, f, h, Final(f)).Ok? <==> Printable(PredicateOf(f, Final(f)))
    requires CheckedTx(setup, f, h, Final(f)).Ok? ==>
             Level3Identity(setup, f, h, Final(f), CheckedTx(setup, f, h, Final(f)).value) ==
             if h.wormhole.value.emitterBase58 == "" then Err(NoEmitter) else Level4Identity(h, o)
    ensures Level3(setup, f, h, quorumReached).Ok? <==>
            && quorumReached && Printable(PredicateOf(f, Final(f)))
            && FitsSigned(Final(f).participant1Score, 4) && FitsSigned(Final(f).participant2Score, 4)
            && h.wormhole.value.emitterBase58 != ""
            && Level3VectorOk(setup, f, Final(f), Level4Identity(h, o).value, id)
  {
    hide CheckedTx, Level3Identity, Printable, Level3VectorOk, Key, IdentityPreimage;
  }

  // -------------------------------------------------------------------------
  // Exactly which inputs both lanes deliver for
  // -------------------------------------------------------------------------

  /** The handoff is the fixture's own, and names an emitter. */
  predicate HandoffMatches(setup: Setup, f: Fixture, h: Handoff) {
    && h.fixturePath.Some? && h.wormhole.Some? && h.wormhole.value.emitterBase58 != ""
    && FindFinal(f.records).Some?
    && ProofBundleHash(setup.c, ProofBundle(f, Final(f))) == h.proofBundleHash
    && DailyRootFor(f, Final(f).timestampMs) == Ok(h.rootAccount)
  }

  predicate KeysValid(setup: Setup, h: Handoff)
    requires h.wormhole.Some?
  {
    Key(h.rootAccount).Ok? && Key(setup.programB58).Ok? && Key(h.wormhole.value.emitterBase58).Ok?
  }

  predicate NamesInt64(setup: Setup, text: string) {
    setup.bigInt(text).Some? && FitsSigned(setup.bigInt(text).value, 8)
  }

  predicate NamesUint64(setup: Setup, text: string) {
    setup.bigInt(text).Some? && FitsUnsigned(setup.bigInt(text).value, 8)
  }

  predicate NumbersValid(setup: Setup, f: Fixture, h: Handoff, r: ScoreRecord)
    requires h.wormhole.Some?
  {
    && NamesInt64(setup, f.fixtureId) && NamesInt64(setup, r.sequence)
    && NamesUint64(setup, h.wormhole.value.sequence)
    && IsNumeral(f.fixtureId) && r.period >= 0
    && 0 <= r.participant1Score && FitsSigned(r.participant1Score, 4)
    && 0 <= r.participant2Score && FitsSigned(r.participant2Score, 4)
  }

  lemma Level4CheckedIff(setup: Setup, f: Fixture, h: Handoff)
    ensures Level4Checked(setup, f, h).Ok? <==>
            && h.fixturePath.Some? && h.wormhole.Some? && FindFinal(f.records).Some?
            && ProofBundleHash(setup.c, ProofBundle(f, Final(f))) == h.proofBundleHash
            && DailyRootFor(f, Final(f).timestampMs) == Ok(h.rootAccount)
  {
    hide DailyRootFor, ProofBundle, ProofBundleHash;
  }

  /** The vector a run of this fixture would record. */
  function DerivedVector(setup: Setup, f: Fixture, h: Handoff, r: ScoreRecord): Result<Vector, LaneError>
    requires h.wormhole.Some?
  {
    var o :- Level4Outcome(setup, f, h, r);
    var i :- Level4Identity(h, o);
    var id :- IdOf(setup.c, i);
    Ok(Vector(f.fixtureId, r.sequence, o.validationInstructionHash, o.proofBundleHash, id, Payload.Layout(o),
              i.sourceEmitter))
  }

  /** A recorded vector that names this fixture and score sequence is the derived one. */
  predicate VectorAgrees(setup: Setup, f: Fixture, h: Handoff, r: ScoreRecord)
    requires h.wormhole.Some?
  {
    && setup.vector.Some? && setup.vector.value.fixtureId == f.fixtureId
    && setup.vector.value.scoreSequence == r.sequence ==>
      DerivedVector(setup, f, h, r) == Ok(setup.vector.value)
  }

  lemma DerivedVectorIff(setup: Setup, f: Fixture, h: Handoff, r: ScoreRecord)
    requires h.wormhole.Some?
    ensures DerivedVector(setup, f, h, r).Ok? <==>
            KeysValid(setup, h) && NamesInt64(setup, f.fixtureId) && NamesInt64(setup, r.sequence)
  {
    hide Key, ProofBundle, ProofBundleHash, PredicateData, Payload.Layout, IdentityPreimage, FitsSigned;
  }

  /** Each lane compares its own part of the vector; together they compare all of it. */
  lemma VectorSplit(setup: Setup, f: Fixture, h: Handoff, r: ScoreRecord)
    requires h.wormhole.Some? && DerivedVector(setup, f, h, r).Ok?
    ensures Level4Outcome(setup, f, h, r).Ok? && Level4Identity(h, Level4Outcome(setup, f, h, r).value).Ok?
    ensures var d := DerivedVector(setup, f, h, r).value;
            VectorAgrees(setup, f, h, r) <==>
            && Level4VectorOk(setup, f, r, d.encodedPayload, d.sourceEmitter, d.attestationId)
            && Level3VectorOk(setup, f, r, Level4Identity(h, Level4Outcome(setup, f, h, r).value).value,
                              d.attestationId)
  {
    hide Key, Level4Outcome, Payload.Layout, IdOf;
  }

  lemma Level4BuildIff(setup: Setup, f: Fixture, h: Handoff, r: ScoreRecord)
    requires h.wormhole.Some?
    ensures Level4Build(setup, f, h, r).Ok? <==>
            && DerivedVector(setup, f, h, r).Ok?
            && setup.bigInt(h.wormhole.value.sequence).Some?
            && var d := DerivedVector(setup, f, h, r).value;
            Level4VectorOk(setup, f, r, d.encodedPayload, d.sourceEmitter, d.attestationId)
    ensures Level4Build(setup, f, h, r).Ok? ==>
            && Level4Build(setup, f, h, r).value.body.sequence == setup.bigInt(h.wormhole.value.sequence).value
            && Level4Build(setup, f, h, r).value.attestationId == DerivedVector(setup, f, h, r).value.attestationId
  {
    hide Key, Level4Outcome, Payload.Layout, IdOf, Level4VectorOk;
  }

  /** Once the message is built. */
  lemma DeliverBuilt(setup: Setup, f: Fixture, h: Handoff)
    requires SignaturesRecover(setup.c)
    requires FindFinal(f.records).Some? ==> Writable(f, Final(f))
    requires Level4Checked(setup, f, h).Ok? && h.wormhole.Some? && FindFinal(f.records).Some?
    requires Level4Build(setup, f, h, Final(f)).Ok?
    ensures Level3(setup, f, h, true).Ok? && Level4(setup, f, h, DevGuardianFile).Ok? <==>
            && VectorAgrees(setup, f, h, Final(f))
            && FitsUnsigned(Level4Build(setup, f, h, Final(f)).value.body.sequence, 8)
            && Printable(PredicateOf(f, Final(f))) && h.wormhole.value.emitterBase58 != ""
            && FitsSigned(Final(f).participant1Score, 4) && FitsSigned(Final(f).participant2Score, 4)
  {
    hide *;
    var r := Final(f);
    Level4Delivers(setup, f, h);
    Level4BuildIff(setup, f, h, r);
    VectorSplit(setup, f, h, r);
    Level4BuildSteps(setup, f, h, r);
    if Level4(setup, f, h, DevGuardianFile).Ok? { Level3DeliversIff(setup, f, h, true, DevGuardianFile); }
  }

  lemma PrintableOf(f: Fixture, r: ScoreRecord)
    ensures Printable(PredicateOf(f, r)) <==>
            IsNumeral(f.fixtureId) && r.participant1Score >= 0 && r.participant2Score >= 0 && r.period >= 0
  {
    hide IsNumeral;
  }

  /** With the dev guardians both lanes deliver exactly when the handoff is the fixture's own, the keys
      are valid accounts, the numbers fit their fields and a recorded vector of this fixture and score
      sequence, if there is one, records what is derived: the agreement of the ids is about all of these
      inputs. */
  lemma BothLanesDeliverIff(setup: Setup, f: Fixture, h: Handoff)
    requires SignaturesRecover(setup.c)
    requires FindFinal(f.records).Some? ==> Writable(f, Final(f))
    ensures Level3(setup, f, h, true).Ok? && Level4(setup, f, h, DevGuardianFile).Ok? <==>
            && HandoffMatches(setup, f, h) && KeysValid(setup, h) && NumbersValid(setup, f, h, Final(f))
            && VectorAgrees(setup, f, h, Final(f))
  {
    hide *;
    HandoffSplit(setup, f, h);
    if Level4(setup, f, h, DevGuardianFile).Ok? { Level4Steps(setup, f, h, DevGuardianFile); }
    if Level4Checked(setup, f, h).Ok? {
      CheckedIsFinal(setup, f, h);
      NumbersSplit(setup, f, h, Final(f));
      Level4BuildIff(setup, f, h, Final(f));
      DerivedVectorIff(setup, f, h, Final(f));
      if DerivedVector(setup, f, h, Final(f)).Ok? { VectorSplit(setup, f, h, Final(f)); }
      if Level4Build(setup, f, h, Final(f)).Ok? { DeliverBuilt(setup, f, h); }
    }
  }

  lemma HandoffSplit(setup: Setup, f: Fixture, h: Handoff)
    ensures HandoffMatches(setup, f, h) <==>
            Level4Checked(setup, f, h).Ok? && h.wormhole.Some? && h.wormhole.value.emitterBase58 != ""
    ensures HandoffMatches(setup, f, h) ==> h.wormhole.Some? && FindFinal(f.records).Some?
  {
    hide DailyRootFor, ProofBundle, ProofBundleHash, Level4Checked, FindFinal;
    Level4CheckedIff(setup, f, h);
  }

  lemma NumbersSplit(setup: Setup, f: Fixture, h: Handoff, r: ScoreRecord)
    requires h.wormhole.Some?
    ensures NumbersValid(setup, f, h, r) <==>
            && NamesInt64(setup, f.fixtureId) && NamesInt64(setup, r.sequence)
            && setup.bigInt(h.wormhole.value.sequence).Some?
            && FitsUnsigned(setup.bigInt(h.wormhole.value.sequence).value, 8)
            && Printable(PredicateOf(f, r))
            && FitsSigned(r.participant1Score, 4) && FitsSigned(r.participant2Score, 4)
  {
    hide IsNumeral, FitsSigned, FitsUnsigned, NamesInt64;
    PrintableOf(f, r);
  }
}
