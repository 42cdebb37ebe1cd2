/** verifyLikeBase and the score-byte forgery of the tamper lab (apps/web/lib/tamper.ts). */
module Tamper {
  import opened Bytes
  import opened Digests
  import opened Quorum
  import Payload
  import Vaas

  const WORMHOLE_CHAIN_SOLANA := 1
  const WORMHOLE_CHAIN_BASE_SEPOLIA := 10004

  datatype CheckLabel =
    | Signatures | SourceChain | Emitter | PayloadDecodes | DestinationChain | Replay | StoreOutcome

  const ALL_CHECKS: seq<CheckLabel> :=
    [Signatures, SourceChain, Emitter, PayloadDecodes, DestinationChain, Replay, StoreOutcome]

  datatype CheckStatus = Pass | Fail | Skipped

  datatype BaseError =
    | InvalidVaa(vaaError: Vaas.VaaError) | BadSignatures(fault: SignatureFault)
    | WrongEmitterChain(got: int) | WrongEmitter | BadPayload(payloadError: Payload.PayloadError)
    | WrongDestinationChain(got: int) | VaaAlreadyConsumed

  datatype Verdict = Verdict(
    checks: seq<(CheckLabel, CheckStatus)>, accepted: bool, contractError: Option<BaseError>,
    attestationId: Option<bytes32>)

  /** What Base knows: the registered emitter and the VAAs it consumed. */
  datatype BaseState = BaseState(registeredEmitter: bytes32, consumed: set<bytes32>)

  /** The condition behind each check, for bytes that passed the ones before it. */
  predicate Holds(k: nat, c: Crypto, base: BaseState, b: bytes) {
    match Vaas.Decode(b)
    case Err(_) => false
    case Ok(v) =>
      if k == 0 then HasQuorum(c, v)
      else if k == 1 then v.body.emitterChainId == WORMHOLE_CHAIN_SOLANA
      else if k == 2 then v.body.emitterAddress == base.registeredEmitter
      else if k == 3 then Payload.Decode(v.body.payload).Ok?
      else if k == 4 then
        var o := Payload.Decode(v.body.payload);
        o.Ok? && o.value.destinationChain == WORMHOLE_CHAIN_BASE_SEPOLIA
      else if k == 5 then c.keccak(b) !in base.consumed
      else true
  }

  /** The identity Base derives from the message it decoded. */
  function DecodedIdentity(b: bytes): Option<Identity>
  {
    match Vaas.Decode(b)
    case Err(_) => None
    case Ok(v) =>
      match Payload.Decode(v.body.payload)
      case Err(_) => None
      case Ok(o) => Some(Identity(v.body.emitterAddress, o.fixtureId, o.scoreSequence,
                                  o.validationInstructionHash, o.proofBundleHash))
  }

  /** The rows of a verdict whose first failing check is number k (or that passed all seven). */
  function Report(k: nat): seq<(CheckLabel, CheckStatus)>
  {
    seq(7, i requires 0 <= i < 7 => (ALL_CHECKS[i], if i < k then Pass else if i == k then Fail else Skipped))
  }

  /** Appends the failure and every later label as skipped. */
  method Rejected(passed: seq<(CheckLabel, CheckStatus)>, error: BaseError) returns (v: Verdict)
    requires |passed| < 7 && passed == Report(|passed|)[..|passed|]
    ensures v == Verdict(Report(|passed|), false, Some(error), None)
  {
    var checks := passed + [(ALL_CHECKS[|passed|], Fail)];
    for i := |passed| + 1 to 7
      invariant |checks| == i && checks == Report(|passed|)[..i]
    {
      checks := checks + [(ALL_CHECKS[i], Skipped)];
    }
    assert checks == Report(|passed|);
    v := Verdict(checks, false, Some(error), None);
  }

  function Passed(n: nat): (r: seq<(CheckLabel, CheckStatus)>)
    requires n <= 7
    ensures |r| == n && r == Report(n)[..n]
  {
    seq(n, i requires 0 <= i < n => (ALL_CHECKS[i], Pass))
  }

  /** The first check from k on that does not hold, 7 if there is none. */
  function FirstFailing(k: nat, c: Crypto, base: BaseState, b: bytes): (r: nat)
    requires k <= 7
    ensures k <= r <= 7 && (forall j | k <= j < r :: Holds(j, c, base, b)) && (r < 7 ==> !Holds(r, c, base, b))
    decreases 7 - k
  {
    if k == 7 || !Holds(k, c, base, b) then k else FirstFailing(k + 1, c, base, b)
  }

  /** Row i passes if every check up to it holds, fails if it is the first that does not, and is skipped
      after that one. */
  lemma RowsSay(c: Crypto, base: BaseState, b: bytes, i: nat)
    requires i < 7
    ensures Report(FirstFailing(0, c, base, b))[i] ==
            (ALL_CHECKS[i], if forall j | 0 <= j <= i :: Holds(j, c, base, b) then Pass
                            else if forall j | 0 <= j < i :: Holds(j, c, base, b) then Fail else Skipped)
  {
    hide Holds;
    var r := FirstFailing(0, c, base, b);
  }

  lemma FailsFirst(r: nat, c: Crypto, base: BaseState, b: bytes)
    requires r <= 7 && (forall j | 0 <= j < r :: Holds(j, c, base, b)) && (r < 7 ==> !Holds(r, c, base, b))
    ensures FirstFailing(0, c, base, b) == r
  {
    var f := FirstFailing(0, c, base, b);
  }

  /** The verdict's seven rows, in contract order: passes, then the first check that does not hold,
      then skipped rows. Accepted exactly when every check holds, with the identity Base derives. */
  method VerifyLikeBase(c: Crypto, base: BaseState, b: bytes) returns (v: Verdict)
    ensures v.checks == Report(FirstFailing(0, c, base, b))
    ensures v.accepted <==> FirstFailing(0, c, base, b) == 7
    ensures v.accepted <==> v.contractError == None
    ensures v.accepted ==> DecodedIdentity(b).Some? && v.attestationId == AttestationId(c, DecodedIdentity(b).value)
  {
    hide Report, FirstFailing, Vaas.Decode, Payload.Decode, Payload.Layout, SigningDigest, IdentityPreimage;
    var decoded := Vaas.DecodeVaa(b);
    if decoded.Err? {
      v := Rejected(Passed(0), InvalidVaa(decoded.error));
      FailsFirst(0, c, base, b);
      return;
    }
    var vaa := decoded.value;
    var fault := CheckLikeBase(c, SigningDigest(c, vaa.body), vaa.signatures);
    if fault.Some? {
      v := Rejected(Passed(0), BadSignatures(fault.value));
      FailsFirst(0, c, base, b);
      return;
    }
    assert Holds(0, c, base, b);
    if vaa.body.emitterChainId != WORMHOLE_CHAIN_SOLANA {
      v := Rejected(Passed(1), WrongEmitterChain(vaa.body.emitterChainId));
      FailsFirst(1, c, base, b);
      return;
    }
    assert Holds(1, c, base, b);
    if vaa.body.emitterAddress != base.registeredEmitter {
      v := Rejected(Passed(2), WrongEmitter);
      FailsFirst(2, c, base, b);
      return;
    }
    assert Holds(2, c, base, b);
    var outcome := Payload.DecodeTs(vaa.body.payload);
    if outcome.Err? {
      v := Rejected(Passed(3), BadPayload(outcome.error));
      FailsFirst(3, c, base, b);
      return;
    }
    assert Holds(3, c, base, b);
    var o := outcome.value;
    if o.destinationChain != WORMHOLE_CHAIN_BASE_SEPOLIA {
      v := Rejected(Passed(4), WrongDestinationChain(o.destinationChain));
      FailsFirst(4, c, base, b);
      return;
    }
    assert Holds(4, c, base, b);
    if c.keccak(b) in base.consumed {
      v := Rejected(Passed(5), VaaAlreadyConsumed);
      FailsFirst(5, c, base, b);
      return;
    }
    assert Holds(5, c, base, b) && Holds(6, c, base, b);
    Payload.LayoutOfDecode(vaa.body.payload);
    var id := AttestationId(c, Identity(vaa.body.emitterAddress, o.fixtureId, o.scoreSequence,
                                        o.validationInstructionHash, o.proofBundleHash));
    FailsFirst(7, c, base, b);
    FullReport();
    v := Verdict(Passed(7), true, None, id);
  }

  lemma FullReport()
    ensures Passed(7) == Report(7)
  {
  }

  /** An accepted message always has an identity: decoded integers fit, so packing cannot throw. */
  lemma DecodedIdentityPackable(b: bytes)
    requires DecodedIdentity(b).Some?
    ensures Packable(DecodedIdentity(b).value)
  {
    Payload.LayoutOfDecode(Vaas.Decode(b).value.body.payload);
  }

  // -------------------------------------------------------------------------
  // The score-byte forgery
  // -------------------------------------------------------------------------

  function ScoreByteAt(b: bytes): int
    requires |b| >= 6
  {
    6 + 66 * (b[5] as int) + 51 + 43
  }

  /** A message whose payload is a MatchOutcomeV1. */
  predicate CarriesOutcome(b: bytes) {
    Vaas.Decode(b).Ok? && Payload.Decode(Vaas.Decode(b).value.body.payload).Ok?
  }

  /** Overwriting that byte leaves the header, every signature and every other body field as they
      were, and changes the decoded outcome only in the low byte of participant1Score. */
  lemma ScoreByteTamper(b: bytes, x: byte)
    requires CarriesOutcome(b)
    ensures ScoreByteAt(b) < |b|
    ensures var v, t := Vaas.Decode(b).value, b[ScoreByteAt(b) := x];
            var o := Payload.Decode(v.body.payload).value;
            && Vaas.Decode(t) == Ok(v.(body := v.body.(payload := v.body.payload[43 := x])))
            && Payload.Decode(v.body.payload[43 := x])
               == Ok(o.(participant1Score := o.participant1Score - b[ScoreByteAt(b)] + x))
  {
    hide Unsigned, Payload.Decode, Vaas.ReadSignatures, Vaas.ReadBody;
    PayloadLength(b);
    var v, at := Vaas.Decode(b).value, ScoreByteAt(b);
    var t := b[at := x];
    var bodyAt := 6 + 66 * (b[5] as int);
    assert t[1..5] == b[1..5] && t[6..bodyAt] == b[6..bodyAt] && t[bodyAt..] == b[bodyAt..][94 := x];
    TamperedBody(b[bodyAt..], x);
    Payload.TamperScoreByte(v.body.payload, x);
  }

  lemma PayloadLength(b: bytes)
    requires CarriesOutcome(b)
    ensures var bodyAt := 6 + 66 * (b[5] as int); |b| == bodyAt + 51 + 176
    ensures Vaas.Decode(b).value.body == Vaas.ReadBody(b[6 + 66 * (b[5] as int)..])
  {
    hide Unsigned, Vaas.ReadSignatures;
  }

  lemma TamperedBody(body: bytes, x: byte)
    requires |body| == 51 + 176
    ensures var v, w := Vaas.ReadBody(body), Vaas.ReadBody(body[94 := x]);
            && w == v.(payload := v.payload[43 := x]) && v.payload[43] == body[94]
  {
    hide Unsigned;
    var tampered := body[94 := x];
    assert tampered[51..] == body[51..][43 := x];
    assert tampered[..4] == body[..4] && tampered[4..8] == body[4..8] && tampered[8..10] == body[8..10];
    assert tampered[10..42] == body[10..42] && tampered[42..50] == body[42..50];
  }

  /** The hashes on the way to the two messages' signing digests do not collide. */
  predicate DigestsDoNotCollide(c: Crypto, v: Vaas.Body, w: Vaas.Body) {
    && NoCollision(c, Vaas.BodyBytes(v), Vaas.BodyBytes(w))
    && NoCollision(c, c.keccak(Vaas.BodyBytes(v)), c.keccak(Vaas.BodyBytes(w)))
  }

  /** A signature does not recover to its guardian for two different digests. */
  predicate BindsDigest(c: Crypto, s: Vaas.Signature, d: bytes32, e: bytes32) {
    RecoversToGuardian(c, d, s) && RecoversToGuardian(c, e, s) ==> d == e
  }

  /** So no message that had a quorum still has one after its score byte changed. */
  lemma TamperedScoreRejected(c: Crypto, b: bytes, x: byte)
    requires CarriesOutcome(b) && HasQuorum(c, Vaas.Decode(b).value)
    requires ScoreByteAt(b) < |b| && x != b[ScoreByteAt(b)]
    ensures Vaas.Decode(b[ScoreByteAt(b) := x]).Ok?
    ensures var v, w := Vaas.Decode(b).value, Vaas.Decode(b[ScoreByteAt(b) := x]).value;
            && DigestsDoNotCollide(c, v.body, w.body)
            && (exists s <- v.signatures :: BindsDigest(c, s, SigningDigest(c, v.body), SigningDigest(c, w.body)))
            ==> !HasQuorum(c, w)
  {
    var v := Vaas.Decode(b).value;
    ScoreByteTamper(b, x);
    var w := Vaas.Decode(b[ScoreByteAt(b) := x]).value;
    if DigestsDoNotCollide(c, v.body, w.body) {
      DifferentPayloadDifferentDigest(c, v.body, w.body);
      assert forall s <- v.signatures :: SignedByGuardian(c, SigningDigest(c, v.body), s);
    }
  }

  lemma DifferentPayloadDifferentDigest(c: Crypto, v: Vaas.Body, w: Vaas.Body)
    requires DigestsDoNotCollide(c, v, w) && v.payload != w.payload
    ensures SigningDigest(c, v) != SigningDigest(c, w)
  {
    var x, y := Vaas.BodyBytes(v), Vaas.BodyBytes(w);
    assert x[51..] == v.payload && y[51..] == w.payload;
  }
}
