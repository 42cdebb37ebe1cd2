/** The contracts on Base: FinalityRegistry, CRELevel3Receiver, WormholeOutcomeReceiver and the market
    that settles on the registry (contracts/base/src). A reverted transaction changes nothing. */
module BaseContracts {
  import opened Bytes
  import opened Digests
  import opened Lanes
  import Payload
  import Quorum
  import Tamper
  import Vaas

  datatype Status = Unknown | CREAttested | WormholeVerified | DualFinalized | Conflict

  datatype Lane = FastLane | ProofLane

  datatype Record = Record(attestationId: bytes32, participant1Score: int, participant2Score: int, result: int)

  datatype Revert =
    | InvalidResult | FixtureFrozen | FixtureFinalized | DuplicateReport
    | NotForwarder | AlreadyConsumed
    | InvalidVaa | WrongEmitterChain | WrongEmitter | BadPayload | WrongDestinationChain
    | VaaAlreadyConsumed | SequenceAlreadyConsumed | DuplicateOutcome
    | AlreadySettled | NotDualFinalized

  // -------------------------------------------------------------------------
  // The registry: one row per fixture
  // -------------------------------------------------------------------------

  datatype Row = Row(status: Status, level3: Option<Record>, level4: Option<Record>) {
    function Mine(lane: Lane): Option<Record> { if lane == FastLane then level3 else level4 }
    function Other(lane: Lane): Option<Record> { if lane == FastLane then level4 else level3 }
    function With(lane: Lane, r: Record): Row {
      if lane == FastLane then this.(level3 := Some(r)) else this.(level4 := Some(r))
    }
  }

  const EMPTY := Row(Unknown, None, None)

  /** _report */
  function TryReport(row: Row, lane: Lane, r: Record): Result<Row, Revert>
  {
    if r.result < 1 || r.result > 3 then Err(InvalidResult)
    else if row.status == Conflict then Err(FixtureFrozen)
    else if row.status == DualFinalized then Err(FixtureFinalized)
    else if row.Mine(lane).Some? then
      if row.Mine(lane).value.attestationId == r.attestationId then Err(DuplicateReport)
      else Ok(row.(status := Conflict))
    else
      var next := row.With(lane, r);
      if row.Other(lane) == None then Ok(next.(status := if lane == FastLane then CREAttested else WormholeVerified))
      else if row.Other(lane).value.attestationId == r.attestationId then Ok(next.(status := DualFinalized))
      else Ok(next.(status := Conflict))
  }

  /** The three mappings behind the rows. */
  datatype Registry = Registry(status: map<int, Status>, level3: map<int, Record>, level4: map<int, Record>)

  function Lookup<T>(m: map<int, T>, f: int): Option<T> { if f in m then Some(m[f]) else None }

  function RowOf(g: Registry, f: int): Row
  {
    Row(if f in g.status then g.status[f] else Unknown, Lookup(g.level3, f), Lookup(g.level4, f))
  }

  function PutRow(g: Registry, f: int, row: Row): Registry
  {
    Registry(g.status[f := row.status],
             if row.level3.Some? then g.level3[f := row.level3.value] else g.level3,
             if row.level4.Some? then g.level4[f := row.level4.value] else g.level4)
  }

  class FinalityRegistry {
    var status: map<int, Status>
    var level3: map<int, Record>
    var level4: map<int, Record>

    ghost function View(): Registry reads this { Registry(status, level3, level4) }

    constructor ()
      ensures View() == Registry(map[], map[], map[])
    {
      status, level3, level4 := map[], map[], map[];
    }

    method Report(f: int, lane: Lane, r: Record) returns (ok: Result<(), Revert>)
      modifies this
      ensures match TryReport(RowOf(old(View()), f), lane, r)
              case Ok(row) => ok == Ok(()) && View() == PutRow(old(View()), f, row)
              case Err(e) => ok == Err(e) && View() == old(View())
    {
      if r.result < 1 || r.result > 3 { return Err(InvalidResult); }
      var st := if f in status then status[f] else Unknown;
      if st == Conflict { return Err(FixtureFrozen); }
      if st == DualFinalized { return Err(FixtureFinalized); }
      var mine, other := level3, level4;
      if lane == ProofLane { mine, other := level4, level3; }
      if f in mine {
        if mine[f].attestationId == r.attestationId { return Err(DuplicateReport); }
        status := status[f := Conflict];
        assert level3 == old(level3) && (f in level3 ==> level3 == level3[f := level3[f]]);
        assert f in level4 ==> level4 == level4[f := level4[f]];
        return Ok(());
      }
      if lane == FastLane { level3 := level3[f := r]; } else { level4 := level4[f := r]; }
      assert f in other ==> other == other[f := other[f]];
      if f !in other {
        status := status[f := if lane == FastLane then CREAttested else WormholeVerified];
      } else if other[f].attestationId == r.attestationId {
        status := status[f := DualFinalized];
      } else {
        status := status[f := Conflict];
      }
      ok := Ok(());
    }
  }

  // -------------------------------------------------------------------------
  // What a run of reports settles on
  // -------------------------------------------------------------------------

  datatype LaneReport = LaneReport(lane: Lane, record: Record) {
    predicate Valid() { 1 <= record.result <= 3 }
  }

  function Reported(row: Row, r: LaneReport): Row
  {
    match TryReport(row, r.lane, r.record) case Ok(next) => next case Err(_) => row
  }

  function AllReported(rs: seq<LaneReport>): Row
  {
    if rs == [] then EMPTY else Reported(AllReported(rs[..|rs| - 1]), rs[|rs| - 1])
  }

  predicate Heard(rs: seq<LaneReport>, lane: Lane) { exists r <- rs :: r.Valid() && r.lane == lane }

  /** All valid reports name one attestation id. */
  predicate Agreed(rs: seq<LaneReport>) {
    forall r <- rs, s <- rs :: r.Valid() && s.Valid() ==> r.record.attestationId == s.record.attestationId
  }

  /** At some point both lanes had reported, and everything so far named one id. */
  predicate Met(rs: seq<LaneReport>) {
    exists n | 0 <= n <= |rs| :: Agreed(rs[..n]) && Heard(rs[..n], FastLane) && Heard(rs[..n], ProofLane)
  }

  /** The verdict on any stream of reports, read off the stream: dual finality if the lanes met before
      anything disagreed, a frozen fixture if something disagreed first, else the lane heard so far. */
  function Verdict(rs: seq<LaneReport>): Status
  {
    if Met(rs) then DualFinalized
    else if !Agreed(rs) then Conflict
    else if Heard(rs, FastLane) then CREAttested
    else if Heard(rs, ProofLane) then WormholeVerified
    else Unknown
  }

  lemma MetStep(rs: seq<LaneReport>)
    requires rs != []
    ensures Met(rs) <==>
            Met(rs[..|rs| - 1]) || (Agreed(rs) && Heard(rs, FastLane) && Heard(rs, ProofLane))
  {
    hide Agreed, Heard;
    var k := |rs| - 1;
    assert forall n | 0 <= n <= k :: rs[..k][..n] == rs[..n];
    assert rs[..|rs|] == rs;
  }

  lemma HeardStep(rs: seq<LaneReport>, lane: Lane)
    requires rs != []
    ensures Heard(rs, lane) <==> Heard(rs[..|rs| - 1], lane) || (rs[|rs| - 1].Valid() && rs[|rs| - 1].lane == lane)
  {
    assert rs == rs[..|rs| - 1] + [rs[|rs| - 1]];
  }

  /** Every valid report names this id. */
  predicate AllName(rs: seq<LaneReport>, id: bytes32) { forall r <- rs :: r.Valid() ==> r.record.attestationId == id }

  predicate Names(row: Row, rs: seq<LaneReport>, lane: Lane) {
    && (row.Mine(lane).Some? <==> Heard(rs, lane))
    && (row.Mine(lane).Some? ==> AllName(rs, row.Mine(lane).value.attestationId))
  }

  predicate Follows(row: Row, rs: seq<LaneReport>) { Names(row, rs, FastLane) && Names(row, rs, ProofLane) }

  predicate AgreesWith(row: Row, id: bytes32) {
    && (row.level3.Some? ==> row.level3.value.attestationId == id)
    && (row.level4.Some? ==> row.level4.value.attestationId == id)
  }

  /** Nothing heard: no valid report at all. */
  lemma Silent(rs: seq<LaneReport>, id: bytes32)
    requires !Heard(rs, FastLane) && !Heard(rs, ProofLane)
    ensures AllName(rs, id)
  {
    forall r <- rs
      ensures !r.Valid()
    {
      assert r.lane == FastLane || r.lane == ProofLane;
    }
  }

  lemma AllNameStep(row: Row, rs: seq<LaneReport>, r: LaneReport)
    requires Follows(row, rs) && r.Valid() && AgreesWith(row, r.record.attestationId)
    ensures AllName(rs + [r], r.record.attestationId)
  {
    hide Heard;
    if row.level3 == None && row.level4 == None {
      Silent(rs, r.record.attestationId);
    }
  }

  lemma AgreedStep(row: Row, rs: seq<LaneReport>, r: LaneReport)
    requires Agreed(rs) && Follows(row, rs)
    ensures Agreed(rs + [r]) <==> !r.Valid() || AgreesWith(row, r.record.attestationId)
  {
    if r.Valid() {
      if AgreesWith(row, r.record.attestationId) {
        AllNameStep(row, rs, r);
      } else {
        var lane :=
          if row.level3.Some? && row.level3.value.attestationId != r.record.attestationId then FastLane else ProofLane;
        var s :| s in rs && s.Valid() && s.lane == lane;
        assert s in rs + [r] && r in rs + [r];
      }
    }
  }

  /** The registry's status is the verdict on every stream of reports. */
  lemma {:induction false} StatusOfRun(rs: seq<LaneReport>)
    ensures AllReported(rs).status == Verdict(rs)
    ensures !Met(rs) && Agreed(rs) ==> Follows(AllReported(rs), rs)
  {
    if rs != [] {
      var k := |rs| - 1;
      var init, r, row := rs[..k], rs[k], AllReported(rs[..k]);
      StatusOfRun(init);
      MetStep(rs);
      assert rs == init + [r];
      if !Met(init) && Agreed(init) {
        HeardStep(rs, FastLane);
        HeardStep(rs, ProofLane);
        AgreedStep(row, init, r);
        assert init[..k] == init;
        StatusStep(row, init, r);
      } else if !Met(init) {
        AgreedPrefix(init, r);
      }
    }
  }

  lemma AgreedPrefix(rs: seq<LaneReport>, r: LaneReport)
    ensures Agreed(rs + [r]) ==> Agreed(rs)
  {
    assert forall s <- rs :: s in rs + [r];
  }

  lemma StatusStep(row: Row, rs: seq<LaneReport>, r: LaneReport)
    requires Follows(row, rs) && row.status == Verdict(rs) && Agreed(rs) && !Met(rs)
    requires !(Heard(rs, FastLane) && Heard(rs, ProofLane))
    requires Met(rs + [r]) <==> Agreed(rs + [r]) && Heard(rs + [r], FastLane) && Heard(rs + [r], ProofLane)
    requires Heard(rs + [r], FastLane) <==> Heard(rs, FastLane) || (r.Valid() && r.lane == FastLane)
    requires Heard(rs + [r], ProofLane) <==> Heard(rs, ProofLane) || (r.Valid() && r.lane == ProofLane)
    requires Agreed(rs + [r]) <==> !r.Valid() || AgreesWith(row, r.record.attestationId)
    ensures Reported(row, r).status == Verdict(rs + [r])
    ensures !Met(rs + [r]) && Agreed(rs + [r]) ==> Follows(Reported(row, r), rs + [r])
  {
    hide Heard, Met, Agreed, AllName;
    if !r.Valid() {
      InvalidNames(rs, r);
    } else if AgreesWith(row, r.record.attestationId) {
      AllNameStep(row, rs, r);
    }
  }

  lemma InvalidNames(rs: seq<LaneReport>, r: LaneReport)
    requires !r.Valid()
    ensures forall id :: AllName(rs, id) ==> AllName(rs + [r], id)
  {
  }

  /** What the registry answers to one more report, read off the stream before it: refused as invalid, as
      final once the lanes met, as frozen once anything disagreed, as a duplicate if its lane was heard
      with the same id, and otherwise taken. */
  lemma AnswerOfRun(rs: seq<LaneReport>, r: LaneReport)
    ensures var answer := TryReport(AllReported(rs), r.lane, r.record);
            if !r.Valid() then answer == Err(InvalidResult)
            else if Met(rs) then answer == Err(FixtureFinalized)
            else if !Agreed(rs) then answer == Err(FixtureFrozen)
            else if Heard(rs, r.lane) && Agreed(rs + [r]) then answer == Err(DuplicateReport)
            else answer.Ok?
  {
    hide Met, Agreed, Heard, AllName;
    StatusOfRun(rs);
    if !Met(rs) && Agreed(rs) {
      AgreedStep(AllReported(rs), rs, r);
      if Heard(rs, FastLane) && Heard(rs, ProofLane) { WholeMet(rs); }
    }
  }

  /** Reports that all name one id settle the same way in every order. */
  lemma OrderIrrelevant(rs: seq<LaneReport>, ts: seq<LaneReport>)
    requires forall r :: r in rs <==> r in ts
    requires Agreed(rs)
    ensures AllReported(rs).status == AllReported(ts).status
  {
    StatusOfRun(rs);
    StatusOfRun(ts);
    WholeMet(rs);
    WholeMet(ts);
    assert Agreed(ts);
    forall lane
      ensures Heard(rs, lane) <==> Heard(ts, lane)
    {
      hide Agreed;
    }
  }

  lemma WholeMet(rs: seq<LaneReport>)
    requires Agreed(rs)
    ensures Met(rs) <==> Heard(rs, FastLane) && Heard(rs, ProofLane)
  {
    assert rs[..|rs|] == rs;
    forall n, lane | 0 <= n <= |rs| && Heard(rs[..n], lane)
      ensures Heard(rs, lane)
    {
    }
  }

  /** One report per lane: the whole row, not just its status, is the same in either order. */
  lemma LanesCommute(a: LaneReport, b: LaneReport)
    requires a.lane == FastLane && b.lane == ProofLane
    ensures Reported(Reported(EMPTY, a), b) == Reported(Reported(EMPTY, b), a)
  {
  }

  /** With two ids in one lane the order decides: between dual finality and a frozen fixture. */
  lemma OrderMatters(fast: LaneReport, proof: LaneReport, other: LaneReport)
    requires fast.Valid() && proof.Valid() && other.Valid()
    requires fast.lane == other.lane == FastLane && proof.lane == ProofLane
    requires fast.record.attestationId == proof.record.attestationId != other.record.attestationId
    ensures Reported(Reported(Reported(EMPTY, fast), proof), other).status == DualFinalized
    ensures Reported(Reported(Reported(EMPTY, fast), other), proof).status == Conflict
  {
  }

  // -------------------------------------------------------------------------
  // The receivers and the market
  // -------------------------------------------------------------------------

  datatype Level4Attestation = Level4Attestation(record: Record, proofBundleHash: bytes32, wormholeSequence: int,
                                                 vaaHash: bytes32)

  /** What the contracts were deployed with. */
  datatype Deployment = Deployment(c: Crypto, registeredEmitter: bytes32, ourChainId: int, marketFixture: int)

  datatype Base = Base(
    registry: Registry,
    consumedAttestations: set<bytes32>, level3: map<int, Level3Report>,
    consumedVaas: set<bytes32>, consumedSequences: set<int>, level4: map<int, Level4Attestation>,
    winningOutcome: Option<int>)

  function RecordOf(r: Level3Report): Record {
    Record(r.attestationId, r.participant1Score, r.participant2Score, r.result)
  }

  function TryPut(g: Registry, f: int, lane: Lane, r: Record): Result<Registry, Revert>
  {
    match TryReport(RowOf(g, f), lane, r) case Ok(row) => Ok(PutRow(g, f, row)) case Err(e) => Err(e)
  }

  /** CRELevel3Receiver.onReport */
  function TryOnReport(b: Base, fromForwarder: bool, r: Level3Report): Result<Base, Revert>
  {
    if !fromForwarder then Err(NotForwarder)
    else if r.attestationId in b.consumedAttestations then Err(AlreadyConsumed)
    else
      match TryPut(b.registry, r.fixtureId, FastLane, RecordOf(r))
      case Err(e) => Err(e)
      case Ok(g) =>
        Ok(b.(registry := g, consumedAttestations := b.consumedAttestations + {r.attestationId},
              level3 := b.level3[r.fixtureId := r]))
  }

  class CRELevel3Receiver {
    const registry: FinalityRegistry
    const forwarder: bytes
    var consumedAttestations: set<bytes32>
    var attestations: map<int, Level3Report>

    /** This receiver and its registry as part of the state of Base. */
    ghost function View(): Base
      reads this, registry
    {
      DEPLOYED.(registry := registry.View(), consumedAttestations := consumedAttestations, level3 := attestations)
    }

    constructor (registry: FinalityRegistry, forwarder: bytes)
      ensures this.registry == registry && this.forwarder == forwarder
      ensures consumedAttestations == {} && attestations == map[]
    {
      this.registry, this.forwarder := registry, forwarder;
      consumedAttestations, attestations := {}, map[];
    }

    /** A revert inside the registry call undoes what was written before it. */
    method OnReport(sender: bytes, r: Level3Report) returns (ok: Result<(), Revert>)
      modifies this, registry
      ensures match TryOnReport(old(View()), sender == forwarder, r)
              case Ok(next) => ok == Ok(()) && View() == next
              case Err(e) => ok == Err(e) && View() == old(View())
    {
      if sender != forwarder { return Err(NotForwarder); }
      if r.attestationId in consumedAttestations { return Err(AlreadyConsumed); }
      var consumedBefore, attestationsBefore := consumedAttestations, attestations;
      consumedAttestations := consumedAttestations + {r.attestationId};
      attestations := attestations[r.fixtureId := r];
      ok := registry.Report(r.fixtureId, FastLane, RecordOf(r));
      if ok.Err? {
        consumedAttestations, attestations := consumedBefore, attestationsBefore;
      }
    }
  }

  /** WormholeOutcomeReceiver._consumeVaa, in the contract's check order. */
  function TrySubmit(d: Deployment, b: Base, vaaBytes: bytes): Result<Base, Revert>
  {
    match Vaas.Decode(vaaBytes)
    case Err(_) => Err(InvalidVaa)
    case Ok(v) =>
      if !Quorum.HasQuorum(d.c, v) then Err(InvalidVaa)
      else if v.body.emitterChainId != Tamper.WORMHOLE_CHAIN_SOLANA then Err(WrongEmitterChain)
      else if v.body.emitterAddress != d.registeredEmitter then Err(WrongEmitter)
      else
        match Payload.Decode(v.body.payload)
        case Err(_) => Err(BadPayload)
        case Ok(o) =>
          var digest := SigningDigest(d.c, v.body);
          if o.destinationChain != d.ourChainId then Err(WrongDestinationChain)
          else if digest in b.consumedVaas then Err(VaaAlreadyConsumed)
          else if v.body.sequence in b.consumedSequences then Err(SequenceAlreadyConsumed)
          else
            TryStore(b.(consumedVaas := b.consumedVaas + {digest},
                        consumedSequences := b.consumedSequences + {v.body.sequence}),
                     o.fixtureId,
                     Level4Attestation(Record(OnChainId(d.c, vaaBytes), o.participant1Score, o.participant2Score,
                                              o.result),
                                       o.proofBundleHash, v.body.sequence, digest))
  }

  /** AttestationIds.compute on the decoded message. */
  function OnChainId(c: Crypto, vaaBytes: bytes): bytes32
  {
    match BaseAttestationId(c, vaaBytes) case Some(id) => id case None => seq(32, i => 0)
  }

  /** What the contract stores of a message that carries an outcome. */
  function StoredAs(c: Crypto, vaaBytes: bytes): Level4Attestation
    requires Tamper.CarriesOutcome(vaaBytes)
  {
    var v := Vaas.Decode(vaaBytes).value;
    var o := Payload.Decode(v.body.payload).value;
    Level4Attestation(Record(OnChainId(c, vaaBytes), o.participant1Score, o.participant2Score, o.result),
                      o.proofBundleHash, v.body.sequence, SigningDigest(c, v.body))
  }

  /** The last two checks: a second message for a fixture is never stored, only reported. */
  function TryStore(b: Base, f: int, a: Level4Attestation): Result<Base, Revert>
  {
    if f in b.level4 && b.level4[f].record.attestationId == a.record.attestationId then Err(DuplicateOutcome)
    else
      match TryPut(b.registry, f, ProofLane, a.record)
      case Err(e) => Err(e)
      case Ok(g) => Ok(b.(registry := g, level4 := if f in b.level4 then b.level4 else b.level4[f := a]))
  }

  function FixtureOf(vaaBytes: bytes): int
    requires Tamper.CarriesOutcome(vaaBytes)
  {
    Payload.Decode(Vaas.Decode(vaaBytes).value.body.payload).value.fixtureId
  }

  /** A message with quorum, chain and emitter in order and an outcome for us. */
  predicate WellAddressed(d: Deployment, vaaBytes: bytes): (r: bool)
    ensures r ==> Tamper.CarriesOutcome(vaaBytes)
  {
    && Tamper.CarriesOutcome(vaaBytes)
    && var v := Vaas.Decode(vaaBytes).value;
    && Quorum.HasQuorum(d.c, v) && v.body.emitterChainId == Tamper.WORMHOLE_CHAIN_SOLANA
    && v.body.emitterAddress == d.registeredEmitter
    && Payload.Decode(v.body.payload).value.destinationChain == d.ourChainId
  }

  /** From check 8 on. */
  function Consumed(d: Deployment, b: Base, f: int, a: Level4Attestation): Result<Base, Revert>
  {
    if a.vaaHash in b.consumedVaas then Err(VaaAlreadyConsumed)
    else if a.wormholeSequence in b.consumedSequences then Err(SequenceAlreadyConsumed)
    else
      TryStore(b.(consumedVaas := b.consumedVaas + {a.vaaHash},
                  consumedSequences := b.consumedSequences + {a.wormholeSequence}),
               f, a)
  }

  lemma SubmitConsumes(d: Deployment, b: Base, vaaBytes: bytes)
    ensures WellAddressed(d, vaaBytes) ==>
              TrySubmit(d, b, vaaBytes) == Consumed(d, b, FixtureOf(vaaBytes), StoredAs(d.c, vaaBytes))
    ensures TrySubmit(d, b, vaaBytes).Ok? ==> WellAddressed(d, vaaBytes)
  {
    hide Vaas.Decode, Payload.Decode, Quorum.HasQuorum, OnChainId, SigningDigest, TryStore;
  }

  class WormholeOutcomeReceiver {
    const registry: FinalityRegistry
    const d: Deployment
    var consumedVaaHashes: set<bytes32>
    var consumedSequences: set<int>
    var attestations: map<int, Level4Attestation>

    ghost function View(): Base
      reads this, registry
    {
      DEPLOYED.(registry := registry.View(), consumedVaas := consumedVaaHashes, consumedSequences := consumedSequences,
                level4 := attestations)
    }

    constructor (registry: FinalityRegistry, d: Deployment)
      ensures this.registry == registry && this.d == d
      ensures consumedVaaHashes == {} && consumedSequences == {} && attestations == map[]
    {
      this.registry, this.d := registry, d;
      consumedVaaHashes, consumedSequences, attestations := {}, {}, map[];
    }

    /** Anyone may deliver a message; a revert in the registry undoes the consumed marks too. */
    method SubmitVaa(vaaBytes: bytes) returns (ok: Result<(), Revert>)
      modifies this, registry
      ensures match TrySubmit(d, old(View()), vaaBytes)
              case Ok(next) => ok == Ok(()) && View() == next
              case Err(e) => ok == Err(e) && View() == old(View())
    {
      hide Vaas.Decode, BaseAttestationId, SigningDigest, Quorum.ValidSignatures;
      var decoded := Vaas.DecodeVaa(vaaBytes);
      if decoded.Err? { return Err(InvalidVaa); }
      var v := decoded.value;
      var digest := SigningDigest(d.c, v.body);
      var fault := Quorum.CheckLikeBase(d.c, digest, v.signatures);
      if fault.Some? { return Err(InvalidVaa); }
      if v.body.emitterChainId != Tamper.WORMHOLE_CHAIN_SOLANA { return Err(WrongEmitterChain); }
      if v.body.emitterAddress != d.registeredEmitter { return Err(WrongEmitter); }
      var outcome := Payload.DecodeTs(v.body.payload);
      if outcome.Err? { return Err(BadPayload); }
      var o := outcome.value;
      if o.destinationChain != d.ourChainId { return Err(WrongDestinationChain); }
      if digest in consumedVaaHashes { return Err(VaaAlreadyConsumed); }
      if v.body.sequence in consumedSequences { return Err(SequenceAlreadyConsumed); }
      var vaasBefore, sequencesBefore := consumedVaaHashes, consumedSequences;
      consumedVaaHashes := consumedVaaHashes + {digest};
      consumedSequences := consumedSequences + {v.body.sequence};
      ok := Import(o.fixtureId, Level4Attestation(
        Record(OnChainId(d.c, vaaBytes), o.participant1Score, o.participant2Score, o.result),
        o.proofBundleHash, v.body.sequence, digest));
      if ok.Err? {
        consumedVaaHashes, consumedSequences := vaasBefore, sequencesBefore;
      }
    }

    method Import(f: int, a: Level4Attestation) returns (ok: Result<(), Revert>)
      modifies this, registry
      ensures match TryStore(old(View()), f, a)
              case Ok(next) => ok == Ok(()) && View() == next
              case Err(e) => ok == Err(e) && View() == old(View())
    {
      if f in attestations {
        if attestations[f].record.attestationId == a.record.attestationId { return Err(DuplicateOutcome); }
        ok := registry.Report(f, ProofLane, a.record);
        return;
      }
      var before := attestations;
      attestations := attestations[f := a];
      ok := registry.Report(f, ProofLane, a.record);
      if ok.Err? { attestations := before; }
    }
  }

  /** DemoPredictionMarket.settle: finalOutcome reads the proof lane's record. */
  function TrySettle(d: Deployment, b: Base): Result<Base, Revert>
  {
    var row := RowOf(b.registry, d.marketFixture);
    if b.winningOutcome.Some? then Err(AlreadySettled)
    else if row.status != DualFinalized then Err(NotDualFinalized)
    else Ok(b.(winningOutcome := Some(if row.level4.Some? then row.level4.value.result else 0)))
  }

  /** The market settles once, on a DualFinalized row, to the proof lane's result. */
  lemma SettleSays(d: Deployment, b: Base)
    requires Inv(d, b)
    ensures var row, answer := RowOf(b.registry, d.marketFixture), TrySettle(d, b);
            if b.winningOutcome.Some? then answer == Err(AlreadySettled)
            else if row.status != DualFinalized then answer == Err(NotDualFinalized)
            else row.level4.Some? && answer == Ok(b.(winningOutcome := Some(row.level4.value.result)))
  {
    assert Stored(b, d.marketFixture);
  }

  datatype Tx = OnReport(fromForwarder: bool, report: Level3Report) | SubmitVaa(vaaBytes: bytes) | Settle

  function TryTx(d: Deployment, b: Base, tx: Tx): Result<Base, Revert>
  {
    match tx
    case OnReport(fromForwarder, r) => TryOnReport(b, fromForwarder, r)
    case SubmitVaa(vaaBytes) => TrySubmit(d, b, vaaBytes)
    case Settle => TrySettle(d, b)
  }

  function AfterTx(d: Deployment, b: Base, tx: Tx): Base
  {
    match TryTx(d, b, tx) case Ok(next) => next case Err(_) => b
  }

  function AfterAll(d: Deployment, b: Base, txs: seq<Tx>): Base
    decreases |txs|
  {
    if txs == [] then b else AfterTx(d, AfterAll(d, b, txs[..|txs| - 1]), txs[|txs| - 1])
  }

  const DEPLOYED := Base(Registry(map[], map[], map[]), {}, map[], {}, {}, map[], None)

  // -------------------------------------------------------------------------
  // Safety over every run of transactions
  // -------------------------------------------------------------------------

  predicate RowInv(row: Row) {
    match row.status
    case Unknown => row.level3 == None && row.level4 == None
    case CREAttested => row.level3.Some? && row.level4 == None
    case WormholeVerified => row.level3 == None && row.level4.Some?
    case DualFinalized =>
      row.level3.Some? && row.level4.Some? && row.level3.value.attestationId == row.level4.value.attestationId
    case Conflict =>
      && (row.level3.Some? || row.level4.Some?)
      && (row.level3.Some? && row.level4.Some? ==> row.level3.value.attestationId != row.level4.value.attestationId)
  }

  /** What the receivers stored against the registry's row for the same fixture. */
  predicate Stored(b: Base, f: int) {
    var row := RowOf(b.registry, f);
    && RowInv(row)
    && (row.level3.Some? <==> f in b.level3)
    && (row.level3.Some? ==> row.level3.value.attestationId in b.consumedAttestations)
    && (f in b.level3 ==> b.level3[f].fixtureId == f && b.level3[f].attestationId in b.consumedAttestations)
    && (f in b.level3 && row.status != Conflict ==> row.level3 == Some(RecordOf(b.level3[f])))
    && row.level4 == (if f in b.level4 then Some(b.level4[f].record) else None)
  }

  predicate Settled(d: Deployment, b: Base) {
    var row := RowOf(b.registry, d.marketFixture);
    b.winningOutcome.Some? ==>
      row.status == DualFinalized && row.level4.Some? && b.winningOutcome == Some(row.level4.value.result)
  }

  ghost predicate Inv(d: Deployment, b: Base) { (forall f :: Stored(b, f)) && Settled(d, b) }

  /** A row only gains records, and a settled verdict stays. */
  predicate RowAdvances(row: Row, next: Row) {
    && (row.level3.Some? ==> next.level3 == row.level3)
    && (row.level4.Some? ==> next.level4 == row.level4)
    && (row.status in {DualFinalized, Conflict} ==> next == row)
  }

  ghost predicate Advances(b: Base, next: Base) {
    && (forall f :: RowAdvances(RowOf(b.registry, f), RowOf(next.registry, f)))
    && b.consumedAttestations <= next.consumedAttestations
    && b.consumedVaas <= next.consumedVaas && b.consumedSequences <= next.consumedSequences
    && (forall f | f in b.level4 :: f in next.level4 && next.level4[f] == b.level4[f])
    && (b.winningOutcome.Some? ==> next.winningOutcome == b.winningOutcome)
  }

  lemma ReportKeepsRow(row: Row, lane: Lane, r: Record)
    requires RowInv(row) && TryReport(row, lane, r).Ok?
    ensures var next := TryReport(row, lane, r).value;
            && RowInv(next) && RowAdvances(row, next)
            && next.Mine(lane) == Some(if row.Mine(lane).Some? then row.Mine(lane).value else r)
            && next.Other(lane) == row.Other(lane)
            && row.status !in {DualFinalized, Conflict}
            && (row.Mine(lane).Some? ==> next.status == Conflict)
  {
  }

  lemma PutReadsBack(g: Registry, f: int, row: Row)
    requires RowAdvances(RowOf(g, f).(status := Unknown), row.(status := Unknown))
    ensures forall e :: RowOf(PutRow(g, f, row), e) == if e == f then row else RowOf(g, e)
  {
  }

  lemma OnReportKeeps(d: Deployment, b: Base, fromForwarder: bool, r: Level3Report)
    requires Inv(d, b) && TryOnReport(b, fromForwarder, r).Ok?
    ensures Inv(d, TryOnReport(b, fromForwarder, r).value) && Advances(b, TryOnReport(b, fromForwarder, r).value)
  {
    hide TryReport, PutRow, RowInv;
    var f, next := r.fixtureId, TryOnReport(b, fromForwarder, r).value;
    assert Stored(b, f);
    ReportKeepsRow(RowOf(b.registry, f), FastLane, RecordOf(r));
    PutReadsBack(b.registry, f, RowOf(b.registry, f));
    PutReadsBack(b.registry, f, TryReport(RowOf(b.registry, f), FastLane, RecordOf(r)).value);
    forall e
      ensures Stored(next, e)
    {
      assert Stored(b, e);
    }
  }

  /** What the receiver keeps of a report it takes: the id is used up, the report is the fixture's, and its
      row holds the first one the lane made; nothing else changes. Only the forwarder may send one. */
  lemma ReportKept(d: Deployment, b: Base, fromForwarder: bool, r: Level3Report)
    requires Inv(d, b)
    ensures var answer, row := TryOnReport(b, fromForwarder, r), RowOf(b.registry, r.fixtureId);
            && (!fromForwarder ==> answer == Err(NotForwarder))
            && (fromForwarder && r.attestationId in b.consumedAttestations ==> answer == Err(AlreadyConsumed))
            && (answer.Ok? ==>
                  && answer.value == b.(registry := answer.value.registry,
                                        consumedAttestations := b.consumedAttestations + {r.attestationId},
                                        level3 := b.level3[r.fixtureId := r])
                  && (forall f | f != r.fixtureId :: RowOf(answer.value.registry, f) == RowOf(b.registry, f))
                  && RowOf(answer.value.registry, r.fixtureId).level4 == row.level4
                  && RowOf(answer.value.registry, r.fixtureId).level3 ==
                     (if row.level3.Some? then row.level3
                      else Some(Record(r.attestationId, r.participant1Score, r.participant2Score, r.result))))
  {
    hide TryReport, PutRow, RowInv;
    if TryOnReport(b, fromForwarder, r).Ok? {
      assert Stored(b, r.fixtureId);
      ReportKeepsRow(RowOf(b.registry, r.fixtureId), FastLane, RecordOf(r));
      PutReadsBack(b.registry, r.fixtureId, TryReport(RowOf(b.registry, r.fixtureId), FastLane, RecordOf(r)).value);
    }
  }

  lemma StoreKeeps(d: Deployment, b: Base, f: int, a: Level4Attestation)
    requires Inv(d, b) && TryStore(b, f, a).Ok?
    ensures Inv(d, TryStore(b, f, a).value) && Advances(b, TryStore(b, f, a).value)
  {
    hide TryReport, PutRow, RowInv;
    var next := TryStore(b, f, a).value;
    assert Stored(b, f);
    ReportKeepsRow(RowOf(b.registry, f), ProofLane, a.record);
    PutReadsBack(b.registry, f, TryReport(RowOf(b.registry, f), ProofLane, a.record).value);
    forall e
      ensures Stored(next, e)
    {
      assert Stored(b, e);
    }
  }

  lemma TxKeeps(d: Deployment, b: Base, tx: Tx)
    requires Inv(d, b)
    ensures Inv(d, AfterTx(d, b, tx)) && Advances(b, AfterTx(d, b, tx))
  {
    hide Stored, TryStore, TryOnReport, RowOf, Vaas.Decode, Payload.Decode, Quorum.HasQuorum, SigningDigest,
         BaseAttestationId;
    match tx
    case OnReport(fromForwarder, r) =>
      if TryOnReport(b, fromForwarder, r).Ok? {
        OnReportKeeps(d, b, fromForwarder, r);
      }
    case SubmitVaa(vaaBytes) =>
      if TrySubmit(d, b, vaaBytes).Ok? {
        SubmitStores(d, b, vaaBytes);
      }
    case Settle => SettleKeeps(d, b);
  }

  lemma SettleKeeps(d: Deployment, b: Base)
    requires Inv(d, b)
    ensures Inv(d, AfterTx(d, b, Settle)) && Advances(b, AfterTx(d, b, Settle))
  {
    assert Stored(b, d.marketFixture);
    var next := AfterTx(d, b, Settle);
    forall e ensures Stored(next, e) { assert Stored(b, e); }
  }

  lemma SubmitStores(d: Deployment, b: Base, vaaBytes: bytes)
    requires Inv(d, b) && TrySubmit(d, b, vaaBytes).Ok?
    ensures Inv(d, TrySubmit(d, b, vaaBytes).value) && Advances(b, TrySubmit(d, b, vaaBytes).value)
  {
    hide TryStore, RowOf, Vaas.Decode, Quorum.HasQuorum, SigningDigest, BaseAttestationId, RowInv;
    var v := Vaas.Decode(vaaBytes).value;
    var o, digest := Payload.Decode(v.body.payload).value, SigningDigest(d.c, v.body);
    var marked := b.(consumedVaas := b.consumedVaas + {digest},
                     consumedSequences := b.consumedSequences + {v.body.sequence});
    forall e ensures Stored(marked, e) { assert Stored(b, e); }
    StoreKeeps(d, marked, o.fixtureId,
               Level4Attestation(Record(OnChainId(d.c, vaaBytes), o.participant1Score, o.participant2Score, o.result),
                                 o.proofBundleHash, v.body.sequence, digest));
  }

  /** On every run: rows are consistent, the receivers hold what the registry holds, a settled market
      holds the proof lane's result; no record, verdict, consumed id or settlement is ever lost. */
  lemma {:induction false} RunKeeps(d: Deployment, b: Base, txs: seq<Tx>)
    requires Inv(d, b)
    ensures Inv(d, AfterAll(d, b, txs)) && Advances(b, AfterAll(d, b, txs))
    decreases |txs|
  {
    hide Stored, RowOf, TryTx, Settled;
    if txs != [] {
      var init := txs[..|txs| - 1];
      RunKeeps(d, b, init);
      TxKeeps(d, AfterAll(d, b, init), txs[|txs| - 1]);
    } else {
      Stays(b);
    }
  }

  lemma Stays(b: Base)
    ensures Advances(b, b)
  {
  }

  lemma AdvancesOn(b: Base, mid: Base, next: Base)
    requires Advances(b, mid) && Advances(mid, next)
    ensures Advances(b, next)
  {
    hide RowOf;
    forall f
      ensures RowAdvances(RowOf(b.registry, f), RowOf(next.registry, f))
    {
      assert RowAdvances(RowOf(b.registry, f), RowOf(mid.registry, f));
      assert RowAdvances(RowOf(mid.registry, f), RowOf(next.registry, f));
    }
  }

  lemma PutRefusedLater(g: Registry, later: Registry, f: int, lane: Lane, r: Record)
    requires RowAdvances(RowOf(g, f), RowOf(later, f)) && TryPut(g, f, lane, r).Err?
    ensures TryPut(later, f, lane, r).Err?
  {
    hide RowOf, PutRow;
  }

  /** A report or a message that Base refuses is refused in every later state. */
  lemma ReportRefusedLater(b: Base, later: Base, r: Level3Report)
    requires Advances(b, later) && TryOnReport(b, true, r).Err?
    ensures TryOnReport(later, true, r).Err?
  {
    hide RowOf, TryPut;
    if r.attestationId !in later.consumedAttestations {
      assert RowAdvances(RowOf(b.registry, r.fixtureId), RowOf(later.registry, r.fixtureId));
      PutRefusedLater(b.registry, later.registry, r.fixtureId, FastLane, RecordOf(r));
    }
  }

  lemma StoreRefusedLater(b: Base, later: Base, f: int, a: Level4Attestation)
    requires RowAdvances(RowOf(b.registry, f), RowOf(later.registry, f)) && TryStore(b, f, a).Err?
    requires f in b.level4 ==> f in later.level4 && later.level4[f] == b.level4[f]
    ensures TryStore(later, f, a).Err?
  {
    hide RowOf, TryPut;
    if TryPut(b.registry, f, ProofLane, a.record).Err? {
      PutRefusedLater(b.registry, later.registry, f, ProofLane, a.record);
    }
  }

  lemma MessageRefusedLater(d: Deployment, b: Base, later: Base, vaaBytes: bytes)
    requires Advances(b, later) && TrySubmit(d, b, vaaBytes).Err?
    ensures TrySubmit(d, later, vaaBytes).Err?
  {
    hide TryStore, RowOf, TrySubmit, WellAddressed, FixtureOf, StoredAs;
    SubmitConsumes(d, b, vaaBytes);
    SubmitConsumes(d, later, vaaBytes);
    if WellAddressed(d, vaaBytes) { ConsumeRefusedLater(d, b, later, FixtureOf(vaaBytes), StoredAs(d.c, vaaBytes)); }
  }

  lemma ConsumeRefusedLater(d: Deployment, b: Base, later: Base, f: int, a: Level4Attestation)
    requires Advances(b, later) && Consumed(d, b, f, a).Err?
    ensures Consumed(d, later, f, a).Err?
  {
    hide TryStore, RowOf;
    var was := b.(consumedVaas := b.consumedVaas + {a.vaaHash},
                  consumedSequences := b.consumedSequences + {a.wormholeSequence});
    var now := later.(consumedVaas := later.consumedVaas + {a.vaaHash},
                      consumedSequences := later.consumedSequences + {a.wormholeSequence});
    if a.vaaHash !in later.consumedVaas && a.wormholeSequence !in later.consumedSequences {
      assert RowAdvances(RowOf(was.registry, f), RowOf(now.registry, f));
      StoreRefusedLater(was, now, f, a);
    }
  }

  /** A message that was taken is refused from then on. */
  /** Two messages with one payload are one outcome: once one of them was taken, the other is refused for
      good, whatever its signatures, sequence and digest. */
  lemma SamePayloadRefused(d: Deployment, b: Base, later: Base, vaaBytes: bytes, other: bytes)
    requires TrySubmit(d, b, vaaBytes).Ok? && Advances(TrySubmit(d, b, vaaBytes).value, later)
    requires Vaas.Decode(vaaBytes).Ok? && Vaas.Decode(other).Ok?
    requires Vaas.Decode(other).value.body.payload == Vaas.Decode(vaaBytes).value.body.payload
    ensures TrySubmit(d, later, other).Err?
  {
    hide TryStore, RowOf, TrySubmit, WellAddressed, FixtureOf, StoredAs, Consumed, Vaas.Decode, Advances;
    SubmitConsumes(d, b, vaaBytes);
    SubmitConsumes(d, b, other);
    var next := TrySubmit(d, b, vaaBytes).value;
    if WellAddressed(d, other) {
      SameRecord(d, vaaBytes, other);
      SubmitConsumes(d, next, other);
      TakenForFixture(d, b, next, FixtureOf(vaaBytes), StoredAs(d.c, vaaBytes), StoredAs(d.c, other));
    } else {
      SubmitConsumes(d, next, other);
    }
    MessageRefusedLater(d, next, later, other);
  }

  lemma SameRecord(d: Deployment, vaaBytes: bytes, other: bytes)
    requires WellAddressed(d, vaaBytes) && WellAddressed(d, other)
    requires Vaas.Decode(other).value.body.payload == Vaas.Decode(vaaBytes).value.body.payload
    ensures FixtureOf(other) == FixtureOf(vaaBytes)
    ensures StoredAs(d.c, other).record == StoredAs(d.c, vaaBytes).record
  {
    hide Vaas.Decode, Payload.Decode, Quorum.HasQuorum, Digests.AttestationId;
  }

  /** A fixture that has this outcome, or is frozen, takes it no more. */
  lemma TakenForFixture(d: Deployment, b: Base, next: Base, f: int, a: Level4Attestation, other: Level4Attestation)
    requires Consumed(d, b, f, a) == Ok(next) && other.record == a.record
    ensures Consumed(d, next, f, other).Err?
  {
    hide PutRow, RowOf;
    var g := b.registry;
    PutReadsBack(g, f, TryReport(RowOf(g, f), ProofLane, a.record).value);
  }

  lemma DeployedInv(d: Deployment)
    ensures Inv(d, DEPLOYED)
  {
  }

  /** The registry never overwrites, the fast lane's receiver does: after a second report with another
      id for a fixture, the receiver shows the second and the registry the first, frozen. */
  lemma ReceiverOverwrites(d: Deployment, r: Level3Report, s: Level3Report)
    requires r.fixtureId == s.fixtureId && r.attestationId != s.attestationId
    requires 1 <= r.result <= 3 && 1 <= s.result <= 3
    ensures var b := AfterTx(d, AfterTx(d, DEPLOYED, OnReport(true, r)), OnReport(true, s));
            && b.level3 == map[r.fixtureId := s]
            && RowOf(b.registry, r.fixtureId) == Row(Conflict, Some(RecordOf(r)), None)
  {
  }

  /** The fast lane's receiver and the registry show the same for this fixture. */
  predicate SameFastLane(b: Base, f: int) {
    RowOf(b.registry, f).level3 == if f in b.level3 then Some(RecordOf(b.level3[f])) else None
  }

  /** They go on showing the same exactly when the registry had no fast-lane record yet. */
  lemma ReceiverAgreesIff(d: Deployment, b: Base, r: Level3Report)
    requires Inv(d, b) && SameFastLane(b, r.fixtureId) && TryOnReport(b, true, r).Ok?
    ensures SameFastLane(TryOnReport(b, true, r).value, r.fixtureId) <==> RowOf(b.registry, r.fixtureId).level3 == None
    ensures forall f | f != r.fixtureId :: SameFastLane(TryOnReport(b, true, r).value, f) <==> SameFastLane(b, f)
  {
    hide TryReport, PutRow, RowInv, RowOf;
    var f := r.fixtureId;
    assert Stored(b, f);
    ReportKeepsRow(RowOf(b.registry, f), FastLane, RecordOf(r));
    if RowOf(b.registry, f).level3.Some? { NewId(RowOf(b.registry, f), RecordOf(r)); }
    PutReadsBack(b.registry, f, TryReport(RowOf(b.registry, f), FastLane, RecordOf(r)).value);
  }

  lemma NewId(row: Row, r: Record)
    requires TryReport(row, FastLane, r).Ok? && row.level3.Some?
    ensures row.level3.value != r
  {
  }

  // -------------------------------------------------------------------------
  // The tamper lab's copy of the checks
  // -------------------------------------------------------------------------

  /** Up to replay protection verifyLikeBase decides as the receiver does. */
  lemma MirrorMatches(d: Deployment, b: Base, lab: Tamper.BaseState, vaaBytes: bytes)
    requires lab.registeredEmitter == d.registeredEmitter && d.ourChainId == Tamper.WORMHOLE_CHAIN_BASE_SEPOLIA
    ensures (forall k | 0 <= k < 5 :: Tamper.Holds(k, d.c, lab, vaaBytes)) <==>
            TrySubmit(d, b, vaaBytes).Ok? ||
            TrySubmit(d, b, vaaBytes).error !in {InvalidVaa, WrongEmitterChain, WrongEmitter, BadPayload,
                                                 WrongDestinationChain}
  {
    StoreErrors();
    hide Vaas.Decode, Quorum.HasQuorum, BaseAttestationId, SigningDigest, TryStore;
    var all := forall k | 0 <= k < 5 :: Tamper.Holds(k, d.c, lab, vaaBytes);
    assert all <==>
      Tamper.Holds(0, d.c, lab, vaaBytes) && Tamper.Holds(1, d.c, lab, vaaBytes) && Tamper.Holds(2, d.c, lab, vaaBytes)
      && Tamper.Holds(3, d.c, lab, vaaBytes) && Tamper.Holds(4, d.c, lab, vaaBytes);
  }

  lemma StoreErrors()
    ensures forall b, f, a :: TryStore(b, f, a).Err? ==>
              TryStore(b, f, a).error in {DuplicateOutcome, InvalidResult, FixtureFrozen, FixtureFinalized,
                                          DuplicateReport}
  {
    hide PutRow, RowOf;
  }

  /** What the contract makes of a message that passed the first five checks. */
  predicate Admits(d: Deployment, b: Base, vaaBytes: bytes)
    requires Tamper.CarriesOutcome(vaaBytes)
  {
    var a, row := StoredAs(d.c, vaaBytes), RowOf(b.registry, FixtureOf(vaaBytes));
    && a.vaaHash !in b.consumedVaas && a.wormholeSequence !in b.consumedSequences
    && row.status !in {Conflict, DualFinalized}
    && (row.level4.Some? ==> row.level4.value.attestationId != a.record.attestationId)
  }

  lemma StoredRecordValid(c: Crypto, vaaBytes: bytes)
    requires Tamper.CarriesOutcome(vaaBytes)
    ensures 1 <= StoredAs(c, vaaBytes).record.result <= 3
  {
    Payload.LayoutOfDecode(Vaas.Decode(vaaBytes).value.body.payload);
  }

  predicate PassesFive(c: Crypto, lab: Tamper.BaseState, vaaBytes: bytes) {
    forall k | 0 <= k < 5 :: Tamper.Holds(k, c, lab, vaaBytes)
  }

  predicate PassesAll(c: Crypto, lab: Tamper.BaseState, vaaBytes: bytes) {
    forall k | 0 <= k < 7 :: Tamper.Holds(k, c, lab, vaaBytes)
  }

  predicate SamePlace(d: Deployment, lab: Tamper.BaseState) {
    lab.registeredEmitter == d.registeredEmitter && d.ourChainId == Tamper.WORMHOLE_CHAIN_BASE_SEPOLIA
  }

  lemma FiveAndReplay(c: Crypto, lab: Tamper.BaseState, vaaBytes: bytes)
    ensures PassesFive(c, lab, vaaBytes) ==> Tamper.CarriesOutcome(vaaBytes)
    ensures PassesAll(c, lab, vaaBytes) <==> PassesFive(c, lab, vaaBytes) && c.keccak(vaaBytes) !in lab.consumed
  {
    hide Vaas.Decode, Payload.Decode, Quorum.HasQuorum;
    if PassesFive(c, lab, vaaBytes) {
      assert Tamper.Holds(0, c, lab, vaaBytes) && Tamper.Holds(3, c, lab, vaaBytes);
      assert Tamper.Holds(6, c, lab, vaaBytes);
      assert Tamper.Holds(5, c, lab, vaaBytes) <==> c.keccak(vaaBytes) !in lab.consumed;
    }
    if PassesAll(c, lab, vaaBytes) { assert Tamper.Holds(5, c, lab, vaaBytes); }
  }

  lemma FivePassed(d: Deployment, lab: Tamper.BaseState, vaaBytes: bytes)
    requires SamePlace(d, lab)
    ensures PassesFive(d.c, lab, vaaBytes) <==> WellAddressed(d, vaaBytes)
  {
    hide Vaas.Decode, Payload.Decode, Quorum.HasQuorum;
    if PassesFive(d.c, lab, vaaBytes) {
      assert Tamper.Holds(0, d.c, lab, vaaBytes) && Tamper.Holds(1, d.c, lab, vaaBytes);
      assert Tamper.Holds(2, d.c, lab, vaaBytes);
      assert Tamper.Holds(3, d.c, lab, vaaBytes) && Tamper.Holds(4, d.c, lab, vaaBytes);
    }
  }

  lemma ReportsProofIff(row: Row, r: Record)
    requires 1 <= r.result <= 3
    ensures (row.level4.Some? ==> row.level4.value.attestationId != r.attestationId) ==>
              (TryReport(row, ProofLane, r).Ok? <==> row.status !in {Conflict, DualFinalized})
  {
  }

  lemma ConsumedIff(d: Deployment, b: Base, f: int, a: Level4Attestation)
    requires Stored(b, f) && 1 <= a.record.result <= 3
    ensures Consumed(d, b, f, a).Ok? <==>
            && a.vaaHash !in b.consumedVaas && a.wormholeSequence !in b.consumedSequences
            && RowOf(b.registry, f).status !in {Conflict, DualFinalized}
            && (RowOf(b.registry, f).level4.Some? ==>
                  RowOf(b.registry, f).level4.value.attestationId != a.record.attestationId)
  {
    hide RowOf, PutRow, TryReport;
    ReportsProofIff(RowOf(b.registry, f), a.record);
  }

  lemma AdmitsIff(d: Deployment, b: Base, vaaBytes: bytes)
    requires Inv(d, b) && WellAddressed(d, vaaBytes)
    ensures TrySubmit(d, b, vaaBytes).Ok? <==> Admits(d, b, vaaBytes)
  {
    hide WellAddressed, FixtureOf, StoredAs, RowOf, Stored, Consumed, TrySubmit;
    SubmitConsumes(d, b, vaaBytes);
    StoredRecordValid(d.c, vaaBytes);
    ConsumedIff(d, b, FixtureOf(vaaBytes), StoredAs(d.c, vaaBytes));
  }

  /** VERIFYLIKEBASE AND THE CONTRACT, EXACTLY: they decide alike exactly when one of the first five
      checks fails, or the copy knows these very bytes just when the contract knows the signed body or
      the sequence, or holds the fixture final, frozen or already with this id. */
  lemma MirrorAgreesIff(d: Deployment, b: Base, lab: Tamper.BaseState, vaaBytes: bytes)
    requires SamePlace(d, lab) && Inv(d, b)
    ensures PassesFive(d.c, lab, vaaBytes) ==> Tamper.CarriesOutcome(vaaBytes)
    ensures (PassesAll(d.c, lab, vaaBytes) <==> TrySubmit(d, b, vaaBytes).Ok?) <==>
            PassesFive(d.c, lab, vaaBytes) ==> (d.c.keccak(vaaBytes) in lab.consumed <==> !Admits(d, b, vaaBytes))
  {
    hide PassesFive, PassesAll, Admits, TrySubmit, Inv, Tamper.CarriesOutcome;
    FiveAndReplay(d.c, lab, vaaBytes);
    FivePassed(d, lab, vaaBytes);
    SubmitConsumes(d, b, vaaBytes);
    if WellAddressed(d, vaaBytes) { AdmitsIff(d, b, vaaBytes); }
  }

  /** Both sides have taken one message, and nothing else since. */
  ghost predicate AfterFirst(d: Deployment, b: Base, lab: Tamper.BaseState, first: bytes, again: bytes) {
    && SamePlace(d, lab) && TrySubmit(d, b, first).Ok? && WellAddressed(d, again) && WellAddressed(d, first)
    && lab.consumed == {d.c.keccak(first)} && NoCollision(d.c, again, first) && again != first
  }

  lemma LabTakesAgain(d: Deployment, b: Base, lab: Tamper.BaseState, first: bytes, again: bytes)
    requires AfterFirst(d, b, lab, first, again)
    ensures PassesAll(d.c, lab, again)
    ensures TrySubmit(d, b, first) == Consumed(d, b, FixtureOf(first), StoredAs(d.c, first))
    ensures var next := TrySubmit(d, b, first).value;
            TrySubmit(d, next, again) == Consumed(d, next, FixtureOf(again), StoredAs(d.c, again))
  {
    hide PassesFive, PassesAll, TrySubmit, WellAddressed, Consumed;
    FiveAndReplay(d.c, lab, again);
    FivePassed(d, lab, again);
    SubmitConsumes(d, b, first);
    SubmitConsumes(d, TrySubmit(d, b, first).value, again);
  }

  lemma ConsumedAgain(d: Deployment, b: Base, f: int, a: Level4Attestation, g: int, again: Level4Attestation)
    requires Consumed(d, b, f, a).Ok?
    ensures var next := Consumed(d, b, f, a).value;
            && (again.vaaHash == a.vaaHash ==> Consumed(d, next, g, again) == Err(VaaAlreadyConsumed))
            && (again.vaaHash !in next.consumedVaas && again.wormholeSequence == a.wormholeSequence ==>
                  Consumed(d, next, g, again) == Err(SequenceAlreadyConsumed))
            && (again.vaaHash !in next.consumedVaas && again.wormholeSequence !in next.consumedSequences &&
                f == g && f !in b.level4 && again.record.attestationId == a.record.attestationId ==>
                  Consumed(d, next, g, again) == Err(DuplicateOutcome))
  {
    hide TryPut;
  }

  lemma SameBodySameDigest(c: Crypto, first: bytes, again: bytes)
    requires Tamper.CarriesOutcome(first) && Tamper.CarriesOutcome(again)
    requires Vaas.Decode(again).value.body == Vaas.Decode(first).value.body
    ensures StoredAs(c, again).vaaHash == StoredAs(c, first).vaaHash
  {
    hide Vaas.Decode, Payload.Decode, OnChainId, SigningDigest;
  }

  /** MISSED: the same body under other guardians' signatures. */
  lemma MissesResigned(d: Deployment, b: Base, lab: Tamper.BaseState, first: bytes, again: bytes)
    requires AfterFirst(d, b, lab, first, again) && Vaas.Decode(again).value.body == Vaas.Decode(first).value.body
    ensures PassesAll(d.c, lab, again)
    ensures TrySubmit(d, TrySubmit(d, b, first).value, again) == Err(VaaAlreadyConsumed)
  {
    hide PassesAll, TrySubmit, WellAddressed, Consumed, StoredAs, FixtureOf, SamePlace, Tamper.CarriesOutcome,
         Vaas.Decode;
    LabTakesAgain(d, b, lab, first, again);
    SameBodySameDigest(d.c, first, again);
    ConsumedAgain(d, b, FixtureOf(first), StoredAs(d.c, first), FixtureOf(again), StoredAs(d.c, again));
  }

  /** MISSED: another body with the same sequence. */
  lemma MissesReusedSequence(d: Deployment, b: Base, lab: Tamper.BaseState, first: bytes, again: bytes)
    requires AfterFirst(d, b, lab, first, again)
    requires var a, next := StoredAs(d.c, again), TrySubmit(d, b, first).value;
             a.wormholeSequence == StoredAs(d.c, first).wormholeSequence && a.vaaHash !in next.consumedVaas
    ensures PassesAll(d.c, lab, again)
    ensures TrySubmit(d, TrySubmit(d, b, first).value, again) == Err(SequenceAlreadyConsumed)
  {
    hide PassesAll, TrySubmit, WellAddressed, Consumed, StoredAs, FixtureOf, SamePlace, Tamper.CarriesOutcome,
         Vaas.Decode;
    LabTakesAgain(d, b, lab, first, again);
    ConsumedAgain(d, b, FixtureOf(first), StoredAs(d.c, first), FixtureOf(again), StoredAs(d.c, again));
  }

  /** MISSED: a new message that says the same about the same fixture. */
  lemma MissesDuplicate(d: Deployment, b: Base, lab: Tamper.BaseState, first: bytes, again: bytes)
    requires AfterFirst(d, b, lab, first, again) && FixtureOf(again) == FixtureOf(first)
    requires FixtureOf(first) !in b.level4
    requires var a, next := StoredAs(d.c, again), TrySubmit(d, b, first).value;
             && a.record.attestationId == StoredAs(d.c, first).record.attestationId
             && a.vaaHash !in next.consumedVaas && a.wormholeSequence !in next.consumedSequences
    ensures PassesAll(d.c, lab, again)
    ensures TrySubmit(d, TrySubmit(d, b, first).value, again) == Err(DuplicateOutcome)
  {
    hide PassesAll, TrySubmit, WellAddressed, Consumed, StoredAs, FixtureOf, SamePlace, Tamper.CarriesOutcome,
         Vaas.Decode;
    LabTakesAgain(d, b, lab, first, again);
    ConsumedAgain(d, b, FixtureOf(first), StoredAs(d.c, first), FixtureOf(again), StoredAs(d.c, again));
  }

  /** MISSED: any new message, with an id not stored yet, for a fixture that is frozen or final. */
  lemma MissesVerdict(d: Deployment, b: Base, lab: Tamper.BaseState, vaaBytes: bytes)
    requires SamePlace(d, lab) && Inv(d, b) && WellAddressed(d, vaaBytes) && d.c.keccak(vaaBytes) !in lab.consumed
    requires RowOf(b.registry, FixtureOf(vaaBytes)).status in {Conflict, DualFinalized}
    requires var a, row := StoredAs(d.c, vaaBytes), RowOf(b.registry, FixtureOf(vaaBytes));
             && a.vaaHash !in b.consumedVaas && a.wormholeSequence !in b.consumedSequences
             && (row.level4.Some? ==> row.level4.value.attestationId != a.record.attestationId)
    ensures PassesAll(d.c, lab, vaaBytes)
    ensures TrySubmit(d, b, vaaBytes) ==
            Err(if RowOf(b.registry, FixtureOf(vaaBytes)).status == Conflict then FixtureFrozen else FixtureFinalized)
  {
    hide WellAddressed, FixtureOf, StoredAs, RowOf, PutRow, PassesAll, PassesFive, TrySubmit;
    FiveAndReplay(d.c, lab, vaaBytes);
    FivePassed(d, lab, vaaBytes);
    SubmitConsumes(d, b, vaaBytes);
    StoredRecordValid(d.c, vaaBytes);
    assert Stored(b, FixtureOf(vaaBytes));
  }

  /** AND THE OTHER WAY: a copy told that a message was consumed refuses what a contract that has not
      seen it accepts. */
  lemma RefusesFresh(d: Deployment, lab: Tamper.BaseState, vaaBytes: bytes)
    requires SamePlace(d, lab) && WellAddressed(d, vaaBytes) && lab.consumed == {d.c.keccak(vaaBytes)}
    ensures !PassesAll(d.c, lab, vaaBytes) && TrySubmit(d, DEPLOYED, vaaBytes).Ok?
  {
    hide PassesFive, PassesAll, TrySubmit, Inv, WellAddressed, FixtureOf, StoredAs;
    DeployedInv(d);
    FiveAndReplay(d.c, lab, vaaBytes);
    AdmitsIff(d, DEPLOYED, vaaBytes);
  }
}
