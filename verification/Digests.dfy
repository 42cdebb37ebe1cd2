/** Hash functions, signatures and the digests both lanes derive. Cryptographic primitives are
    parameters: every statement holds for whatever functions they are. */
module Digests {
  import opened Bytes
  import opened Text
  import opened CanonicalJson
  import opened Vaas

  datatype Crypto = Crypto(
    keccak: bytes -> bytes32,
    /** recoverAddress(digest, r, s, v): None when it throws */
    recover: (bytes32, bytes32, bytes32, int) -> Option<bytes>,
    /** the (r, s, v) a dev guardian's key produces for a digest */
    sign: (bytes32, int) -> (bytes32, bytes32, int),
    guardianAddress: int -> bytes)

  /** keccak256(keccak256(body)) */
  function SigningDigest(c: Crypto, body: Body): bytes32 { c.keccak(c.keccak(BodyBytes(body))) }

  function ProofBundleHash(c: Crypto, bundle: Json): bytes32 { c.keccak(Utf8(Canonical(bundle))) }

  function InstructionPreimage(program: bytes32, dailyRoot: bytes32, data: bytes): bytes { program + dailyRoot + data }

  function ValidationInstructionHash(c: Crypto, program: bytes32, dailyRoot: bytes32, data: bytes): bytes32
  {
    c.keccak(InstructionPreimage(program, dailyRoot, data))
  }

  datatype Identity = Identity(
    sourceEmitter: bytes32, fixtureId: int, scoreSequence: int,
    validationInstructionHash: bytes32, proofBundleHash: bytes32)

  /** encodePacked throws for an int64 argument out of range. */
  predicate Packable(i: Identity) { FitsSigned(i.fixtureId, 8) && FitsSigned(i.scoreSequence, 8) }

  const DOMAIN_STRING := "proofline.attestation.v1"

  function DomainSeparator(c: Crypto): bytes32 { c.keccak(Utf8(DOMAIN_STRING)) }

  function IdentityPreimage(c: Crypto, i: Identity): bytes
  {
    DomainSeparator(c) + i.sourceEmitter + Be(i.fixtureId, 8) + Be(i.scoreSequence, 8)
    + i.validationInstructionHash + i.proofBundleHash
  }

  function AttestationId(c: Crypto, i: Identity): Option<bytes32>
  {
    if Packable(i) then Some(c.keccak(IdentityPreimage(c, i))) else None
  }

  /** The packed preimage is unambiguous: equal bytes mean equal identities, field by field. */
  lemma IdentityPreimageInjective(c: Crypto, i: Identity, j: Identity)
    requires Packable(i) && Packable(j) && IdentityPreimage(c, i) == IdentityPreimage(c, j)
    ensures i == j
  {
    var p, q := IdentityPreimage(c, i), IdentityPreimage(c, j);
    PreimageFields(c, i, p);
    PreimageFields(c, j, q);
    SignedRoundTrip(i.fixtureId, 8);
    SignedRoundTrip(j.fixtureId, 8);
    SignedRoundTrip(i.scoreSequence, 8);
    SignedRoundTrip(j.scoreSequence, 8);
  }

  lemma PreimageFields(c: Crypto, i: Identity, p: bytes)
    requires p == IdentityPreimage(c, i)
    ensures |p| == 144 && p[32..64] == i.sourceEmitter && p[64..72] == Be(i.fixtureId, 8)
    ensures p[72..80] == Be(i.scoreSequence, 8)
    ensures p[80..112] == i.validationInstructionHash && p[112..144] == i.proofBundleHash
  {
    hide DomainSeparator;
  }

  lemma InstructionPreimageInjective(p: bytes32, r: bytes32, d: bytes, p': bytes32, r': bytes32, d': bytes)
    requires InstructionPreimage(p, r, d) == InstructionPreimage(p', r', d')
    ensures p == p' && r == r' && d == d'
  {
    var x, y := InstructionPreimage(p, r, d), InstructionPreimage(p', r', d');
    assert x[..32] == p && x[32..64] == r && x[64..] == d;
    assert y[..32] == p' && y[32..64] == r' && y[64..] == d';
  }

  /** These two inputs do not collide. Asked for only of the inputs a statement compares: no hash is
      injective on all byte strings. */
  predicate NoCollision(c: Crypto, x: bytes, y: bytes) { c.keccak(x) == c.keccak(y) ==> x == y }

  /** A dev guardian's own signature recovers to its address, with v 27 or 28. */
  ghost predicate SignaturesRecover(c: Crypto) {
    forall d: bytes32, i: int ::
      var (r, s, v) := c.sign(d, i); v in {27, 28} && c.recover(d, r, s, v) == Some(c.guardianAddress(i))
  }
}
