/** From the two lanes to the contracts: what the registry ends up with when both deliver. */
module DualFinality {
  import opened Bytes
  import opened Lanes
  import opened BaseContracts
  import opened Deliveries
  import Digests
  import Payload
  import Quorum
  import Tamper
  import Vaas

  /** The fields of a report Level 3 sends. */
  lemma ReportFields(setup: Setup, f: Fixture, h: Handoff, quorumReached: bool)
    requires Level3(setup, f, h, quorumReached).Ok?
    ensures FindFinal(f.records).Some? && CheckedTx(setup, f, h, Final(f)).Ok?
    ensures Level3Identity(setup, f, h, Final(f), CheckedTx(setup, f, h, Final(f)).value).Ok?
    ensures var r, l3 := Final(f), Level3(setup, f, h, quorumReached).value;
            var i := Level3Identity(setup, f, h, r, CheckedTx(setup, f, h, r).value).value;
            && l3.fixtureId == i.fixtureId && FitsSigned(l3.fixtureId, 8)
            && l3.participant1Score == r.participant1Score && FitsSigned(r.participant1Score, 4)
            && l3.participant2Score == r.participant2Score && FitsSigned(r.participant2Score, 4)
            && l3.result == Payload.DeriveResult(r.participant1Score, r.participant2Score)
  {
    hide CheckedTx, Level3Identity, Level3VectorOk, IdOf, Payload.DeriveResult;
  }

  /** A report is about the fixture's own number. */
  lemma ReportNumber(setup: Setup, f: Fixture, h: Handoff, quorumReached: bool)
    requires Level3(setup, f, h, quorumReached).Ok?
    ensures setup.bigInt(f.fixtureId) == Some(Level3(setup, f, h, quorumReached).value.fixtureId)
  {
    hide CheckedTx, Key, FindFinal, Level3VectorOk, IdOf, Encodable, ProofBundle;
    ReportFields(setup, f, h, quorumReached);
  }

  lemma OutcomeFields(setup: Setup, f: Fixture, h: Handoff, r: ScoreRecord)
    requires h.wormhole.Some? && Level4Outcome(setup, f, h, r).Ok?
    ensures var o := Level4Outcome(setup, f, h, r).value;
            && o.participant1Score == r.participant1Score && o.participant2Score == r.participant2Score
            && o.result == Payload.DeriveResult(r.participant1Score, r.participant2Score)
            && o.destinationChain == Destination(f)
  {
    hide Key, ProofBundle, PredicateOf, Payload.DeriveResult;
  }

  function Destination(f: Fixture): int
  {
    if f.destinationChain.Some? then f.destinationChain.value else Tamper.WORMHOLE_CHAIN_BASE_SEPOLIA
  }

  lemma SameFixture(setup: Setup, f: Fixture, h: Handoff, r: ScoreRecord, o: Payload.MatchOutcome)
    requires Writable(f, r) && CheckedTx(setup, f, h, r).Ok?
    requires h.wormhole.Some? && Level4Outcome(setup, f, h, r) == Ok(o) && Payload.Has32(o)
    requires Level3Identity(setup, f, h, r, CheckedTx(setup, f, h, r).value).Ok?
    ensures o.fixtureId == Level3Identity(setup, f, h, r, CheckedTx(setup, f, h, r).value).value.fixtureId
  {
    hide CheckedTx, Level3Identity, Level4Outcome, Key;
    CheckedTxAccepts(setup, f, h, r);
    SameIdentity(setup, f, h, r, CheckedTx(setup, f, h, r).value, o);
  }

  lemma BuiltChain(setup: Setup, f: Fixture, h: Handoff, r: ScoreRecord)
    requires h.wormhole.Some? && Level4Build(setup, f, h, r).Ok?
    ensures Level4Build(setup, f, h, r).value.body.emitterChainId == Tamper.WORMHOLE_CHAIN_SOLANA
  {
    hide Level4Outcome, Key, IdOf, Level4VectorOk, Payload.Layout;
  }

  lemma AcceptedVaa(setup: Setup, built: Built, res: Level4Result)
    requires Level4Accept(setup, built, res.vaaBytes) == Ok(res)
    ensures Vaas.Decode(res.vaaBytes) == Ok(res.vaa) && Quorum.HasQuorum(setup.c, res.vaa)
    ensures res.vaa.body.payload == built.payload && Payload.Decode(res.vaa.body.payload).Ok?
  {
    hide Vaas.Decode, Payload.Decode, Quorum.HasQuorum;
  }

  lemma ChainFromFile(setup: Setup, built: Built, res: Level4Result)
    requires FetchVaa(setup, DevGuardianFile, built) == Ok(res.vaaBytes)
    requires Level4Accept(setup, built, res.vaaBytes) == Ok(res)
    ensures res.vaa.body.emitterChainId == built.body.emitterChainId
  {
    hide Vaas.Decode, Payload.Decode, Quorum.HasQuorum, DevGuardianBytes;
  }

  lemma DecodedFields(o: Payload.MatchOutcome)
    requires Payload.Has32(o) && Payload.Decode(Payload.Layout(o)).Ok?
    requires FitsSigned(o.fixtureId, 8) && FitsSigned(o.participant1Score, 4) && FitsSigned(o.participant2Score, 4)
    requires 1 <= o.result <= 3
    ensures var d := Payload.Decode(Payload.Layout(o)).value;
            && d.fixtureId == o.fixtureId && d.participant1Score == o.participant1Score
            && d.participant2Score == o.participant2Score && d.result == o.result
  {
    hide Payload.Layout, Payload.Decode, Be, Unsigned, Signed;
    Payload.DecodeLayout(o);
    SignedRoundTrip(o.fixtureId, 8);
    SignedRoundTrip(o.participant1Score, 4);
    SignedRoundTrip(o.participant2Score, 4);
    Widths();
    UnsignedRoundTrip(o.result, 1);
  }

  lemma DecodedChain(o: Payload.MatchOutcome)
    requires Payload.Has32(o) && Payload.Decode(Payload.Layout(o)).Ok?
    ensures Payload.Decode(Payload.Layout(o)).value.destinationChain == o.destinationChain % 65536
  {
    hide Payload.Layout, Payload.Decode, Be, Unsigned, Signed;
    Payload.DecodeLayout(o);
    Widths();
    UnsignedOfBe(o.destinationChain, 2);
  }

  /** What Base reads in a Level 4 delivery from the handoff's emitter when Level 3 delivers too. */
  lemma DeliveredVaa(setup: Setup, f: Fixture, h: Handoff, quorumReached: bool, source: VaaSource)
    requires FindFinal(f.records).Some? ==> Writable(f, Final(f))
    requires Level3(setup, f, h, quorumReached).Ok? && Level4(setup, f, h, source).Ok? && h.wormhole.Some?
    requires HandoffEmitter(h) == Ok(Level4(setup, f, h, source).value.vaa.body.emitterAddress)
    ensures var l3, l4 := Level3(setup, f, h, quorumReached).value, Level4(setup, f, h, source).value;
            && Vaas.Decode(l4.vaaBytes) == Ok(l4.vaa) && Payload.Decode(l4.vaa.body.payload).Ok?
            && var o := Payload.Decode(l4.vaa.body.payload).value;
            && o.fixtureId == l3.fixtureId
            && l3.attestationId == OnChainId(setup.c, l4.vaaBytes) && 1 <= l3.result <= 3
            && RecordOf(l3) == Record(l3.attestationId, o.participant1Score, o.participant2Score, o.result)
  {
    hide *;
    var l3, l4 := Level3(setup, f, h, quorumReached).value, Level4(setup, f, h, source).value;
    LanesAgree(setup, f, h, quorumReached, source);
    BaseAgreesIff(setup, f, h, source);
    OnChainIdIs(setup, l4.vaaBytes, l3.attestationId);
    ReportFields(setup, f, h, quorumReached);
    Level4Steps(setup, f, h, source);
    BaseIdentity(setup, f, h, source);
    var r := Final(f);
    var built := Level4Build(setup, f, h, r).value;
    Level4BuildSteps(setup, f, h, r);
    AcceptedVaa(setup, built, l4);
    OutcomeFields(setup, f, h, r);
    SameFixture(setup, f, h, r, built.outcome);
    ResultInRange(r.participant1Score, r.participant2Score);
    DecodedFields(built.outcome);
    RecordIs(l3);
  }

  lemma OnChainIdIs(setup: Setup, vaaBytes: bytes, id: bytes32)
    requires BaseAttestationId(setup.c, vaaBytes) == Some(id)
    ensures OnChainId(setup.c, vaaBytes) == id
  {
    hide BaseAttestationId;
  }

  lemma ResultInRange(p: int, q: int)
    ensures 1 <= Payload.DeriveResult(p, q) <= 3
  {
  }

  lemma RecordIs(r: Level3Report)
    ensures RecordOf(r) == Record(r.attestationId, r.participant1Score, r.participant2Score, r.result)
  {
  }

  /** WHAT BASE KEEPS OF A MESSAGE IT TAKES: its sequence and its signed digest are used up; the fixture's
      first message is stored with the scores and the result it carries, under an id hashed from the
      signer's emitter, the two numbers and the two hashes; no other fixture's attestation changes. */
  lemma MessageKept(d: Deployment, b: Base, vaaBytes: bytes) returns (preimage: bytes)
    requires TrySubmit(d, b, vaaBytes).Ok?
    ensures Vaas.Decode(vaaBytes).Ok? && Payload.Decode(Vaas.Decode(vaaBytes).value.body.payload).Ok?
    ensures 6 + 66 * (vaaBytes[5] as int) <= |vaaBytes|
    ensures var next, v := TrySubmit(d, b, vaaBytes).value, Vaas.Decode(vaaBytes).value;
            var o, digest := Payload.Decode(v.body.payload).value,
                             d.c.keccak(d.c.keccak(vaaBytes[6 + 66 * (vaaBytes[5] as int)..]));
            && v.body.emitterChainId == 1 && v.body.emitterAddress == d.registeredEmitter
            && o.destinationChain == d.ourChainId && Quorum.HasQuorum(d.c, v)
            && digest !in b.consumedVaas && next.consumedVaas == b.consumedVaas + {digest}
            && v.body.sequence !in b.consumedSequences
            && next.consumedSequences == b.consumedSequences + {v.body.sequence}
            && next.level3 == b.level3 && next.consumedAttestations == b.consumedAttestations
            && next.winningOutcome == b.winningOutcome
            && (o.fixtureId in b.level4 ==> next.level4 == b.level4)
            && (o.fixtureId !in b.level4 ==>
                  next.level4 == b.level4[o.fixtureId := Level4Attestation(
                    Record(d.c.keccak(preimage), o.participant1Score, o.participant2Score, o.result),
                    o.proofBundleHash, v.body.sequence, digest)])
            && IdentityBytes(d.c, preimage, v.body.emitterAddress, o.fixtureId, o.scoreSequence,
                             o.validationInstructionHash, o.proofBundleHash)
  {
    hide *;
    SubmitConsumes(d, b, vaaBytes);
    AddressedParts(d, vaaBytes);
    DigestOfBytes(d.c, vaaBytes);
    preimage := OnChainPreimage(d.c, vaaBytes);
    StoredParts(d.c, vaaBytes);
    ConsumedKeeps(d, b, FixtureOf(vaaBytes), StoredAs(d.c, vaaBytes));
  }

  lemma AddressedParts(d: Deployment, vaaBytes: bytes)
    requires WellAddressed(d, vaaBytes)
    ensures Tamper.CarriesOutcome(vaaBytes)
    ensures Vaas.Decode(vaaBytes).Ok? && Payload.Decode(Vaas.Decode(vaaBytes).value.body.payload).Ok?
    ensures var v := Vaas.Decode(vaaBytes).value;
            && v.body.emitterChainId == 1 && v.body.emitterAddress == d.registeredEmitter && Quorum.HasQuorum(d.c, v)
            && Payload.Decode(v.body.payload).value.destinationChain == d.ourChainId
  {
    hide Vaas.Decode, Payload.Decode, Quorum.HasQuorum;
  }

  lemma StoredParts(c: Digests.Crypto, vaaBytes: bytes)
    requires Tamper.CarriesOutcome(vaaBytes)
    requires Vaas.Decode(vaaBytes).Ok? && Payload.Decode(Vaas.Decode(vaaBytes).value.body.payload).Ok?
    ensures var v := Vaas.Decode(vaaBytes).value;
            var o := Payload.Decode(v.body.payload).value;
            && FixtureOf(vaaBytes) == o.fixtureId
            && StoredAs(c, vaaBytes) == Level4Attestation(
               Record(OnChainId(c, vaaBytes), o.participant1Score, o.participant2Score, o.result),
               o.proofBundleHash, v.body.sequence, Digests.SigningDigest(c, v.body))
  {
    hide Vaas.Decode, Payload.Decode, Digests.SigningDigest, OnChainId;
  }

  lemma ConsumedKeeps(d: Deployment, b: Base, f: int, a: Level4Attestation)
    requires Consumed(d, b, f, a).Ok?
    ensures a.vaaHash !in b.consumedVaas && a.wormholeSequence !in b.consumedSequences
    ensures var next := Consumed(d, b, f, a).value;
            && next.consumedVaas == b.consumedVaas + {a.vaaHash}
            && next.consumedSequences == b.consumedSequences + {a.wormholeSequence}
            && next.level3 == b.level3 && next.consumedAttestations == b.consumedAttestations
            && next.winningOutcome == b.winningOutcome
            && next.level4 == if f in b.level4 then b.level4 else b.level4[f := a]
  {
    hide TryPut;
  }

  lemma OnChainPreimage(c: Digests.Crypto, vaaBytes: bytes) returns (preimage: bytes)
    requires Tamper.CarriesOutcome(vaaBytes)
    ensures var v := Vaas.Decode(vaaBytes).value;
            var o := Payload.Decode(v.body.payload).value;
            && OnChainId(c, vaaBytes) == c.keccak(preimage)
            && IdentityBytes(c, preimage, v.body.emitterAddress, o.fixtureId, o.scoreSequence,
                             o.validationInstructionHash, o.proofBundleHash)
  {
    hide Vaas.Decode, Payload.Decode, IdentityBytes, Digests.AttestationId;
    Tamper.DecodedIdentityPackable(vaaBytes);
    preimage := AttestationIdIs(c, Tamper.DecodedIdentity(vaaBytes).value);
  }

  /** The file source's message is addressed to the contract that registered the handoff's emitter and
      stands for the fixture's destination chain. */
  lemma FileSourceAddressed(d: Deployment, setup: Setup, f: Fixture, h: Handoff)
    requires setup.c == d.c && Level4(setup, f, h, DevGuardianFile).Ok?
    requires h.wormhole.Some? && HandoffEmitter(h) == Ok(d.registeredEmitter)
    requires Destination(f) % 65536 == d.ourChainId
    ensures WellAddressed(d, Level4(setup, f, h, DevGuardianFile).value.vaaBytes)
    ensures Level4(setup, f, h, DevGuardianFile).value.vaa.body.emitterAddress == d.registeredEmitter
  {
    hide *;
    var l4 := Level4(setup, f, h, DevGuardianFile).value;
    Level4Steps(setup, f, h, DevGuardianFile);
    FileSourceEmitter(setup, f, h);
    var r := Final(f);
    var built := Level4Build(setup, f, h, r).value;
    Level4BuildSteps(setup, f, h, r);
    BuiltChain(setup, f, h, r);
    AcceptedVaa(setup, built, l4);
    ChainFromFile(setup, built, l4);
    OutcomeFields(setup, f, h, r);
    DecodedChain(built.outcome);
    AddressedIs(d, l4);
  }

  lemma AddressedIs(d: Deployment, l4: Level4Result)
    requires Vaas.Decode(l4.vaaBytes) == Ok(l4.vaa) && Quorum.HasQuorum(d.c, l4.vaa)
    requires l4.vaa.body.emitterChainId == Tamper.WORMHOLE_CHAIN_SOLANA
    requires l4.vaa.body.emitterAddress == d.registeredEmitter
    requires Payload.Decode(l4.vaa.body.payload).Ok?
    requires Payload.Decode(l4.vaa.body.payload).value.destinationChain == d.ourChainId
    ensures WellAddressed(d, l4.vaaBytes)
  {
    hide Vaas.Decode, Payload.Decode, Quorum.HasQuorum;
  }

  /** Nothing about this fixture, this id or this message has reached Base yet. */
  predicate Untouched(d: Deployment, b: Base, l3: Level3Report, l4: Level4Result) {
    && RowOf(b.registry, l3.fixtureId) == EMPTY && l3.fixtureId !in b.level4
    && l3.attestationId !in b.consumedAttestations
    && Digests.SigningDigest(d.c, l4.vaa.body) !in b.consumedVaas && l4.vaa.body.sequence !in b.consumedSequences
  }

  /** The message names the report's fixture and stores as the report's record. */
  predicate Matching(d: Deployment, l3: Level3Report, l4: Level4Result) {
    && WellAddressed(d, l4.vaaBytes) && FixtureOf(l4.vaaBytes) == l3.fixtureId && 1 <= l3.result <= 3
    && var a := StoredAs(d.c, l4.vaaBytes);
    && a.record == RecordOf(l3) && a.vaaHash == Digests.SigningDigest(d.c, l4.vaa.body)
    && a.wormholeSequence == l4.vaa.body.sequence
  }

  lemma OneOrder(d: Deployment, b: Base, l3: Level3Report, l4: Level4Result)
    requires Matching(d, l3, l4) && Untouched(d, b, l3, l4)
    ensures TryOnReport(b, true, l3).Ok? && TrySubmit(d, AfterTx(d, b, OnReport(true, l3)), l4.vaaBytes).Ok?
    ensures TrySubmit(d, b, l4.vaaBytes).Ok?
    ensures var fastFirst := AfterTx(d, AfterTx(d, b, OnReport(true, l3)), SubmitVaa(l4.vaaBytes));
            && fastFirst == AfterTx(d, AfterTx(d, b, SubmitVaa(l4.vaaBytes)), OnReport(true, l3))
            && RowOf(fastFirst.registry, l3.fixtureId) == Row(DualFinalized, Some(RecordOf(l3)), Some(RecordOf(l3)))
  {
    hide Digests.SigningDigest, TrySubmit, RowOf, TryPut, WellAddressed, FixtureOf, StoredAs;
    SubmitConsumes(d, b, l4.vaaBytes);
    SubmitConsumes(d, AfterTx(d, b, OnReport(true, l3)), l4.vaaBytes);
    RowsMeet(b.registry, l3.fixtureId, RecordOf(l3));
  }

  /** What the contract makes of this message. */
  lemma MessageIs(d: Deployment, l3: Level3Report, l4: Level4Result)
    requires WellAddressed(d, l4.vaaBytes) && Vaas.Decode(l4.vaaBytes) == Ok(l4.vaa)
    requires Payload.Decode(l4.vaa.body.payload).Ok? && 1 <= l3.result <= 3
    requires var o := Payload.Decode(l4.vaa.body.payload).value;
             && o.fixtureId == l3.fixtureId
             && RecordOf(l3) ==
                Record(OnChainId(d.c, l4.vaaBytes), o.participant1Score, o.participant2Score, o.result)
    ensures Matching(d, l3, l4)
  {
    hide Vaas.Decode, Payload.Decode, Quorum.HasQuorum, Digests.SigningDigest, OnChainId;
  }

  /** One row, reported to by both lanes in either order. */
  lemma RowsMeet(g: Registry, f: int, r: Record)
    requires RowOf(g, f) == EMPTY && 1 <= r.result <= 3
    ensures var fast, proof := TryPut(g, f, FastLane, r), TryPut(g, f, ProofLane, r);
            && fast.Ok? && proof.Ok?
            && TryPut(fast.value, f, ProofLane, r).Ok?
            && TryPut(fast.value, f, ProofLane, r) == TryPut(proof.value, f, FastLane, r)
            && RowOf(TryPut(fast.value, f, ProofLane, r).value, f) == Row(DualFinalized, Some(r), Some(r))
  {
    assert g.status[f := CREAttested][f := DualFinalized] == g.status[f := WormholeVerified][f := DualFinalized];
    assert g.level3[f := r][f := r] == g.level3[f := r] && g.level4[f := r][f := r] == g.level4[f := r];
  }

  /** When both lanes deliver and the message is addressed to the contract, from the handoff's emitter. */
  lemma LanesMatch(d: Deployment, setup: Setup, f: Fixture, h: Handoff, quorumReached: bool, source: VaaSource)
    requires setup.c == d.c
    requires FindFinal(f.records).Some? ==> Writable(f, Final(f))
    requires Level3(setup, f, h, quorumReached).Ok? && Level4(setup, f, h, source).Ok?
    requires h.wormhole.Some? && HandoffEmitter(h) == Ok(d.registeredEmitter)
    requires WellAddressed(d, Level4(setup, f, h, source).value.vaaBytes)
    ensures Matching(d, Level3(setup, f, h, quorumReached).value, Level4(setup, f, h, source).value)
  {
    hide *;
    var l3, l4 := Level3(setup, f, h, quorumReached).value, Level4(setup, f, h, source).value;
    Level4Steps(setup, f, h, source);
    AcceptedVaa(setup, Level4Build(setup, f, h, Final(f)).value, l4);
    EmitterIs(d, l4);
    DeliveredVaa(setup, f, h, quorumReached, source);
    MessageIs(d, l3, l4);
  }

  lemma EmitterIs(d: Deployment, l4: Level4Result)
    requires WellAddressed(d, l4.vaaBytes) && Vaas.Decode(l4.vaaBytes) == Ok(l4.vaa)
    ensures l4.vaa.body.emitterAddress == d.registeredEmitter
  {
    hide Vaas.Decode, Payload.Decode, Quorum.HasQuorum;
  }

  /** DUAL FINALIZED on chain: delivered in either order, the two lanes' messages leave the same state
      of Base, in which the fixture is final with one id and one outcome from both lanes. */
  lemma LanesFinalize(d: Deployment, b: Base, setup: Setup, f: Fixture, h: Handoff, quorumReached: bool,
                      source: VaaSource)
    requires setup.c == d.c
    requires FindFinal(f.records).Some? ==> Writable(f, Final(f))
    requires Level3(setup, f, h, quorumReached).Ok? && Level4(setup, f, h, source).Ok?
    requires h.wormhole.Some? && HandoffEmitter(h) == Ok(d.registeredEmitter)
    requires WellAddressed(d, Level4(setup, f, h, source).value.vaaBytes)
    requires Untouched(d, b, Level3(setup, f, h, quorumReached).value, Level4(setup, f, h, source).value)
    ensures var l3, l4 := Level3(setup, f, h, quorumReached).value, Level4(setup, f, h, source).value;
            var fastFirst := AfterTx(d, AfterTx(d, b, OnReport(true, l3)), SubmitVaa(l4.vaaBytes));
            && fastFirst == AfterTx(d, AfterTx(d, b, SubmitVaa(l4.vaaBytes)), OnReport(true, l3))
            && RowOf(fastFirst.registry, l3.fixtureId) == Row(DualFinalized, Some(RecordOf(l3)), Some(RecordOf(l3)))
    ensures FindFinal(f.records).Some? && setup.bigInt(f.fixtureId).Some?
    ensures var l3, r, fixtureId := Level3(setup, f, h, quorumReached).value, Final(f), setup.bigInt(f.fixtureId).value;
            && l3.fixtureId == fixtureId
            && RecordOf(l3) == Record(l3.attestationId, r.participant1Score, r.participant2Score, l3.result)
            && Payload.NamesWinner(l3.result, r.participant1Score, r.participant2Score)
  {
    hide *;
    ReportFields(setup, f, h, quorumReached);
    ReportNumber(setup, f, h, quorumReached);
    RecordIs(Level3(setup, f, h, quorumReached).value);
    var _, _ := Level3Says(setup, f, h, quorumReached);
    LanesMatch(d, setup, f, h, quorumReached, source);
    OneOrder(d, b, Level3(setup, f, h, quorumReached).value, Level4(setup, f, h, source).value);
  }
}
