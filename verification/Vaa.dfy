/** The Wormhole VAA v1 wire format (packages/wormhole-sdk/src/vaa-decoder.ts). */
module Vaas {
  import opened Bytes

  const SIGNATURE_LENGTH := 66
  const BODY_PREFIX_LENGTH := 51

  datatype Signature = Signature(guardianIndex: int, r: bytes32, s: bytes32, v: int)

  datatype Body = Body(
    timestamp: int, nonce: int, emitterChainId: int, emitterAddress: bytes32,
    sequence: int, consistencyLevel: int, payload: bytes)

  datatype Vaa = Vaa(version: int, guardianSetIndex: int, signatures: seq<Signature>, body: Body)

  datatype VaaError = TooShort | UnsupportedVaaVersion | Truncated

  predicate SignatureInRange(s: Signature) { FitsUnsigned(s.guardianIndex, 1) && FitsUnsigned(s.v, 1) }

  predicate BodyInRange(b: Body) {
    && FitsUnsigned(b.timestamp, 4) && FitsUnsigned(b.nonce, 4) && FitsUnsigned(b.emitterChainId, 2)
    && FitsUnsigned(b.sequence, 8) && FitsUnsigned(b.consistencyLevel, 1)
  }

  predicate InRange(v: Vaa) {
    && v.version == 1 && FitsUnsigned(v.guardianSetIndex, 4) && |v.signatures| <= 255
    && (forall s <- v.signatures :: SignatureInRange(s)) && BodyInRange(v.body)
  }

  function BodyBytes(b: Body): (r: bytes)
    ensures |r| == BODY_PREFIX_LENGTH + |b.payload|
  {
    Be(b.timestamp, 4) + Be(b.nonce, 4) + Be(b.emitterChainId, 2) + b.emitterAddress
    + Be(b.sequence, 8) + Be(b.consistencyLevel, 1) + b.payload
  }

  function SignatureBytes(s: Signature): (r: bytes)
    ensures |r| == SIGNATURE_LENGTH
  {
    Be(s.guardianIndex, 1) + s.r + s.s + Be(s.v, 1)
  }

  function SignaturesBytes(ss: seq<Signature>): (r: bytes)
    ensures |r| == SIGNATURE_LENGTH * |ss|
  {
    if ss == [] then [] else SignaturesBytes(ss[..|ss| - 1]) + SignatureBytes(ss[|ss| - 1])
  }

  function Header(v: Vaa): (r: bytes)
    ensures |r| == 6
  {
    Be(v.version, 1) + Be(v.guardianSetIndex, 4) + Be(|v.signatures|, 1)
  }

  /** The whole message: header, then 66 bytes per signature, then the body. */
  function Encoding(v: Vaa): (r: bytes)
    ensures |r| == 6 + SIGNATURE_LENGTH * |v.signatures| + BODY_PREFIX_LENGTH + |v.body.payload|
  {
    Header(v) + SignaturesBytes(v.signatures) + BodyBytes(v.body)
  }

  function ReadSignature(b: bytes): Signature
    requires |b| == SIGNATURE_LENGTH
  {
    Signature(b[0], b[1..33], b[33..65], b[65])
  }

  function ReadSignatures(b: bytes, n: nat): (ss: seq<Signature>)
    requires |b| == SIGNATURE_LENGTH * n
    ensures |ss| == n
    decreases n
  {
    if n == 0 then []
    else var m := SIGNATURE_LENGTH * (n - 1); ReadSignatures(b[..m], n - 1) + [ReadSignature(b[m..])]
  }

  function ReadBody(b: bytes): Body
    requires |b| >= BODY_PREFIX_LENGTH
  {
    Body(Unsigned(b[..4]), Unsigned(b[4..8]), Unsigned(b[8..10]), b[10..42], Unsigned(b[42..50]), b[50], b[51..])
  }

  function Decode(b: bytes): Result<Vaa, VaaError>
  {
    if |b| < 6 then Err(TooShort)
    else if b[0] != 1 then Err(UnsupportedVaaVersion)
    else
      var bodyAt := 6 + SIGNATURE_LENGTH * b[5];
      if |b| < bodyAt + BODY_PREFIX_LENGTH then Err(Truncated)
      else Ok(Vaa(b[0], Unsigned(b[1..5]), ReadSignatures(b[6..bodyAt], b[5]), ReadBody(b[bodyAt..])))
  }

  /** A message as its reader sees it: every integer field reduced to its width. */
  function WrapSignature(s: Signature): Signature { s.(guardianIndex := s.guardianIndex % 256, v := s.v % 256) }

  function WrapBody(b: Body): Body {
    b.(timestamp := b.timestamp % Pow256(4), nonce := b.nonce % Pow256(4),
       emitterChainId := b.emitterChainId % Pow256(2), sequence := b.sequence % Pow256(8),
       consistencyLevel := b.consistencyLevel % 256)
  }

  function WrapSignatures(ss: seq<Signature>): seq<Signature> {
    seq(|ss|, i requires 0 <= i < |ss| => WrapSignature(ss[i]))
  }

  function WrapVaa(v: Vaa): Vaa {
    Vaa(v.version, v.guardianSetIndex % Pow256(4), WrapSignatures(v.signatures), WrapBody(v.body))
  }

  // -------------------------------------------------------------------------
  // Reading what was written
  // -------------------------------------------------------------------------

  lemma OneByte(n: int)
    ensures Be(n, 1) == [n % 256]
  {
    assert Be(n / 256, 0) == [];
  }

  lemma ReadSignatureBytes(s: Signature)
    ensures ReadSignature(SignatureBytes(s)) == WrapSignature(s)
  {
    OneByte(s.guardianIndex);
    OneByte(s.v);
    var b := SignatureBytes(s);
    assert b[1..33] == s.r && b[33..65] == s.s;
  }

  lemma {:induction false} ReadSignaturesBytes(ss: seq<Signature>)
    ensures ReadSignatures(SignaturesBytes(ss), |ss|) == WrapSignatures(ss)
  {
    if ss != [] {
      var n := |ss| - 1;
      var b, m := SignaturesBytes(ss), SIGNATURE_LENGTH * n;
      assert b[..m] == SignaturesBytes(ss[..n]) && b[m..] == SignatureBytes(ss[n]);
      ReadSignaturesBytes(ss[..n]);
      ReadSignatureBytes(ss[n]);
    }
  }

  lemma ReadBodyBytes(b: Body)
    ensures ReadBody(BodyBytes(b)) == WrapBody(b)
  {
    var r := BodyBytes(b);
    assert r[..4] == Be(b.timestamp, 4) && r[4..8] == Be(b.nonce, 4) && r[8..10] == Be(b.emitterChainId, 2);
    assert r[10..42] == b.emitterAddress && r[42..50] == Be(b.sequence, 8) && r[51..] == b.payload;
    UnsignedOfBe(b.timestamp, 4);
    UnsignedOfBe(b.nonce, 4);
    UnsignedOfBe(b.emitterChainId, 2);
    UnsignedOfBe(b.sequence, 8);
    OneByte(b.consistencyLevel);
    assert r[50] == Be(b.consistencyLevel, 1)[0];
  }

  lemma EncodingParts(v: Vaa)
    ensures var e := Encoding(v); var bodyAt := 6 + SIGNATURE_LENGTH * |v.signatures|;
            && e[0] == v.version % 256 && e[1..5] == Be(v.guardianSetIndex, 4) && e[5] == |v.signatures| % 256
            && e[6..bodyAt] == SignaturesBytes(v.signatures) && e[bodyAt..] == BodyBytes(v.body)
  {
    OneByte(v.version);
    OneByte(|v.signatures|);
    var h := Header(v);
    assert h[0] == Be(v.version, 1)[0] && h[1..5] == Be(v.guardianSetIndex, 4) && h[5] == Be(|v.signatures|, 1)[0];
    assert Encoding(v)[1..5] == h[1..5];
  }

  lemma {:induction false} SignatureAt(b: bytes, n: nat, k: nat)
    requires |b| == 66 * n && k < n
    ensures ReadSignatures(b, n)[k] ==
            Signature(b[66 * k], b[66 * k + 1..66 * k + 33], b[66 * k + 33..66 * k + 65], b[66 * k + 65])
    decreases n
  {
    var m := 66 * (n - 1);
    if k < n - 1 {
      SignatureAt(b[..m], n - 1, k);
      assert b[..m][66 * k + 1..66 * k + 33] == b[66 * k + 1..66 * k + 33];
      assert b[..m][66 * k + 33..66 * k + 65] == b[66 * k + 33..66 * k + 65];
    } else {
      assert b[m..][1..33] == b[m + 1..m + 33] && b[m..][33..65] == b[m + 33..m + 65];
    }
  }

  /** WHERE EVERY FIELD STANDS in an accepted message of n signatures. */
  lemma FieldsAt(b: bytes, at: nat)
    requires Decode(b).Ok? && at == 6 + 66 * (b[5] as int)
    ensures at + 51 <= |b|
    ensures var v := Decode(b).value;
            && v.version == b[0] as int == 1 && v.guardianSetIndex == Unsigned(b[1..5]) && |v.signatures| == b[5] as int
            && (forall k | 0 <= k < |v.signatures| ::
                  v.signatures[k] == Signature(b[6 + 66 * k], b[7 + 66 * k..39 + 66 * k], b[39 + 66 * k..71 + 66 * k],
                                               b[71 + 66 * k]))
            && v.body.timestamp == Unsigned(b[at..at + 4]) && v.body.nonce == Unsigned(b[at + 4..at + 8])
            && v.body.emitterChainId == Unsigned(b[at + 8..at + 10]) && v.body.emitterAddress == b[at + 10..at + 42]
            && v.body.sequence == Unsigned(b[at + 42..at + 50]) && v.body.consistencyLevel == b[at + 50] as int
            && v.body.payload == b[at + 51..]
  {
    hide Unsigned, ReadSignatures;
    var body, ss := b[at..], b[6..at];
    assert body[..4] == b[at..at + 4] && body[4..8] == b[at + 4..at + 8] && body[8..10] == b[at + 8..at + 10];
    assert body[10..42] == b[at + 10..at + 42] && body[42..50] == b[at + 42..at + 50] && body[51..] == b[at + 51..];
    forall k: nat | k < b[5] as int
      ensures ReadSignatures(ss, b[5])[k] ==
              Signature(b[6 + 66 * k], b[7 + 66 * k..39 + 66 * k], b[39 + 66 * k..71 + 66 * k], b[71 + 66 * k])
    {
      SignatureAt(ss, b[5], k);
      assert ss[66 * k + 1..66 * k + 33] == b[7 + 66 * k..39 + 66 * k];
      assert ss[66 * k + 33..66 * k + 65] == b[39 + 66 * k..71 + 66 * k];
    }
  }

  lemma DecodeEncoding(v: Vaa)
    requires v.version == 1 && |v.signatures| <= 255
    ensures Decode(Encoding(v)) == Ok(WrapVaa(v))
  {
    hide Be, Unsigned, Encoding, SignaturesBytes, BodyBytes, ReadSignatures, ReadBody, Decode;
    var e, n := Encoding(v), |v.signatures|;
    EncodingParts(v);
    ReadSignaturesBytes(v.signatures);
    ReadBodyBytes(v.body);
    UnsignedOfBe(v.guardianSetIndex, 4);
    assert e[0] == 1 && e[5] == n;
    DecodeWith(e, n);
  }

  lemma DecodeWith(b: bytes, n: nat)
    requires |b| >= 6 && b[0] == 1 && b[5] == n && |b| >= 6 + SIGNATURE_LENGTH * n + BODY_PREFIX_LENGTH
    ensures var bodyAt := 6 + SIGNATURE_LENGTH * n;
            Decode(b) == Ok(Vaa(1, Unsigned(b[1..5]), ReadSignatures(b[6..bodyAt], n), ReadBody(b[bodyAt..])))
  {
  }

  lemma SmallMod(n: int, m: nat)
    requires m > 0
    ensures n % m == n <==> 0 <= n < m
  {
    if 0 <= n < m { DivModUnique(n, m, 0, n); }
  }

  lemma WrapFixpoint(v: Vaa)
    requires v.version == 1 && |v.signatures| <= 255
    ensures WrapVaa(v) == v <==> InRange(v)
  {
    SmallMod(v.guardianSetIndex, Pow256(4));
    SmallMod(v.body.timestamp, Pow256(4));
    SmallMod(v.body.nonce, Pow256(4));
    SmallMod(v.body.emitterChainId, Pow256(2));
    SmallMod(v.body.sequence, Pow256(8));
    Widths();
    assert forall i | 0 <= i < |v.signatures| ::
        WrapSignatures(v.signatures)[i] == v.signatures[i] <==> SignatureInRange(v.signatures[i]);
  }

  lemma DecodedInRange(b: bytes)
    requires Decode(b).Ok?
    ensures InRange(Decode(b).value)
  {
    Widths();
    var bodyAt := 6 + SIGNATURE_LENGTH * b[5];
    UnsignedBound(b[1..5]);
    BodyReadInRange(b[bodyAt..]);
    SignaturesReadInRange(b[6..bodyAt], b[5]);
  }

  lemma BodyReadInRange(b: bytes)
    requires |b| >= BODY_PREFIX_LENGTH
    ensures BodyInRange(ReadBody(b))
  {
    Widths();
    UnsignedBound(b[..4]);
    UnsignedBound(b[4..8]);
    UnsignedBound(b[8..10]);
    UnsignedBound(b[42..50]);
  }

  lemma {:induction false} SignaturesReadInRange(b: bytes, n: nat)
    requires |b| == SIGNATURE_LENGTH * n
    ensures forall s <- ReadSignatures(b, n) :: SignatureInRange(s)
    decreases n
  {
    Widths();
    if n > 0 {
      SignaturesReadInRange(b[..SIGNATURE_LENGTH * (n - 1)], n - 1);
    }
  }

  /** decodeVaa undoes encodeVaa for exactly the messages whose fields fit the wire. */
  lemma RoundTrip(v: Vaa)
    ensures Decode(Encoding(v)) == Ok(v) <==> InRange(v)
  {
    if Decode(Encoding(v)) == Ok(v) {
      DecodedInRange(Encoding(v));
    }
    if InRange(v) {
      DecodeEncoding(v);
      WrapFixpoint(v);
    }
  }

  // -------------------------------------------------------------------------
  // Writing what was read
  // -------------------------------------------------------------------------

  lemma BytesOfReadBody(b: bytes)
    requires |b| >= BODY_PREFIX_LENGTH
    ensures BodyBytes(ReadBody(b)) == b
  {
    hide Be, Unsigned;
    BeOfUnsigned(b[..4]);
    BeOfUnsigned(b[4..8]);
    BeOfUnsigned(b[8..10]);
    BeOfUnsigned(b[42..50]);
    OneByte(b[50]);
    assert b == b[..4] + b[4..8] + b[8..10] + b[10..42] + b[42..50] + [b[50]] + b[51..];
  }

  lemma {:induction false} BytesOfReadSignatures(b: bytes, n: nat)
    requires |b| == SIGNATURE_LENGTH * n
    ensures SignaturesBytes(ReadSignatures(b, n)) == b
    decreases n
  {
    if n > 0 {
      var m := SIGNATURE_LENGTH * (n - 1);
      BytesOfReadSignatures(b[..m], n - 1);
      BytesOfReadSignature(b[m..]);
      assert ReadSignatures(b, n)[..n - 1] == ReadSignatures(b[..m], n - 1);
      assert b == b[..m] + b[m..];
    }
  }

  lemma BytesOfReadSignature(b: bytes)
    requires |b| == SIGNATURE_LENGTH
    ensures SignatureBytes(ReadSignature(b)) == b
  {
    OneByte(b[0]);
    OneByte(b[65]);
    assert b == [b[0]] + b[1..33] + b[33..65] + [b[65]];
  }

  /** Every accepted byte string is the encoding of the message it decodes to. */
  lemma EncodingOfDecode(b: bytes)
    requires Decode(b).Ok?
    ensures Encoding(Decode(b).value) == b
  {
    hide Be, Unsigned, ReadSignatures, ReadBody, SignaturesBytes, BodyBytes;
    var bodyAt := 6 + SIGNATURE_LENGTH * b[5];
    BytesOfReadSignatures(b[6..bodyAt], b[5]);
    BytesOfReadBody(b[bodyAt..]);
    HeaderOfDecode(b, Decode(b).value);
    assert b == b[..6] + b[6..bodyAt] + b[bodyAt..];
  }

  lemma HeaderOfDecode(b: bytes, v: Vaa)
    requires |b| >= 6 && v.version == b[0] && v.guardianSetIndex == Unsigned(b[1..5]) && |v.signatures| == b[5]
    ensures Header(v) == b[..6]
  {
    hide Be, Unsigned;
    BeOfUnsigned(b[1..5]);
    OneByte(b[0]);
    OneByte(b[5]);
    assert b[..6] == [b[0]] + b[1..5] + [b[5]];
  }

  lemma DecodeAccepts(b: bytes)
    ensures Decode(b).Ok? <==> |b| >= 6 && b[0] == 1 && |b| >= 6 + 66 * (b[5] as int) + 51
    ensures Decode(b).Err? ==>
              Decode(b).error == if |b| < 6 then TooShort else if b[0] != 1 then UnsupportedVaaVersion else Truncated
  {
  }

  /** Wrapping a body does not change its bytes, so it does not change what guardians sign. */
  lemma WrapKeepsBodyBytes(b: Body)
    ensures BodyBytes(WrapBody(b)) == BodyBytes(b)
  {
    ReadBodyBytes(b);
    BytesOfReadBody(BodyBytes(b));
  }

  // -------------------------------------------------------------------------
  // The encoder and decoder as written: buffers, offsets and loops
  // -------------------------------------------------------------------------

  method EncodeVaaBody(body: Body) returns (r: bytes)
    ensures r == BodyBytes(body)
  {
    var out := new byte[BODY_PREFIX_LENGTH + |body.payload|](i => 0);
    Put(out, 0, Be(body.timestamp, 4));
    Put(out, 4, Be(body.nonce, 4));
    Put(out, 8, Be(body.emitterChainId, 2));
    assert out[..10] == Be(body.timestamp, 4) + Be(body.nonce, 4) + Be(body.emitterChainId, 2);
    Put(out, 10, body.emitterAddress);
    Put(out, 42, Be(body.sequence, 8));
    assert out[..50] == out[..10] + body.emitterAddress + Be(body.sequence, 8);
    Put(out, 50, Be(body.consistencyLevel, 1));
    Put(out, 51, body.payload);
    assert out[..] == out[..50] + Be(body.consistencyLevel, 1) + body.payload;
    r := out[..];
  }

  method EncodeVaa(v: Vaa) returns (r: bytes)
    ensures r == Encoding(v)
  {
    var body := EncodeVaaBody(v.body);
    var n := |v.signatures|;
    var out := new byte[1 + 4 + 1 + n * 66 + |body|](i => 0);
    Put(out, 0, Be(v.version, 1));
    Put(out, 1, Be(v.guardianSetIndex, 4));
    Put(out, 5, Be(n, 1));
    assert out[..6] == Header(v);
    var off := WriteSignatures(out, v.signatures);
    Put(out, off, body);
    assert out[..] == out[..off] + body;
    r := out[..];
  }

  method WriteSignatures(out: array<byte>, signatures: seq<Signature>) returns (off: nat)
    requires 6 + SIGNATURE_LENGTH * |signatures| <= out.Length
    modifies out
    ensures off == 6 + SIGNATURE_LENGTH * |signatures|
    ensures out[..off] == old(out[..6]) + SignaturesBytes(signatures)
  {
    off := 6;
    for i := 0 to |signatures|
      invariant off == 6 + SIGNATURE_LENGTH * i
      invariant out[..off] == old(out[..6]) + SignaturesBytes(signatures[..i])
    {
      WriteSignature(out, off, signatures[i]);
      assert signatures[..i + 1][..i] == signatures[..i];
      off := off + SIGNATURE_LENGTH;
    }
    assert signatures[..|signatures|] == signatures;
  }

  method WriteSignature(out: array<byte>, off: nat, sig: Signature)
    requires off + SIGNATURE_LENGTH <= out.Length
    modifies out
    ensures out[..off + SIGNATURE_LENGTH] == old(out[..off]) + SignatureBytes(sig)
  {
    ghost var before := out[..off];
    Put(out, off, Be(sig.guardianIndex, 1));
    Put(out, off + 1, sig.r);
    Put(out, off + 33, sig.s);
    Put(out, off + 65, Be(sig.v, 1));
    assert out[..off + 66] == before + Be(sig.guardianIndex, 1) + sig.r + sig.s + Be(sig.v, 1);
  }

  method DecodeVaa(b: bytes) returns (r: Result<Vaa, VaaError>)
    ensures r == Decode(b)
  {
    if |b| < 6 {
      return Err(TooShort);
    }
    var version := b[0];
    if version != 1 {
      return Err(UnsupportedVaaVersion);
    }
    var numSigs: int := b[5];
    var off := 6;
    if |b| < off + numSigs * 66 + 51 {
      return Err(Truncated);
    }
    var signatures: seq<Signature> := [];
    for i := 0 to numSigs
      invariant off == 6 + SIGNATURE_LENGTH * i
      invariant signatures == ReadSignatures(b[6..off], i)
    {
      var sig := Signature(b[off], b[off + 1..off + 33], b[off + 33..off + 65], b[off + 65]);
      ReadNextSignature(b, off, i, sig);
      signatures := signatures + [sig];
      off := off + 66;
    }
    ReadBodyAt(b, off);
    var body := Body(
      Unsigned(b[off..off + 4]), Unsigned(b[off + 4..off + 8]), Unsigned(b[off + 8..off + 10]),
      b[off + 10..off + 42], Unsigned(b[off + 42..off + 50]), b[off + 50], b[off + 51..]);
    r := Ok(Vaa(version, Unsigned(b[1..5]), signatures, body));
  }

  lemma ReadNextSignature(b: bytes, off: nat, i: nat, sig: Signature)
    requires off == 6 + SIGNATURE_LENGTH * i && off + SIGNATURE_LENGTH <= |b|
    requires sig == Signature(b[off], b[off + 1..off + 33], b[off + 33..off + 65], b[off + 65])
    ensures ReadSignatures(b[6..off + SIGNATURE_LENGTH], i + 1) == ReadSignatures(b[6..off], i) + [sig]
  {
    var next, last := b[6..off + SIGNATURE_LENGTH], b[off..off + SIGNATURE_LENGTH];
    SliceOfSlice(b, off, off + SIGNATURE_LENGTH, 1, 33);
    SliceOfSlice(b, off, off + SIGNATURE_LENGTH, 33, 65);
    assert ReadSignature(last) == sig;
    assert next[..SIGNATURE_LENGTH * i] == b[6..off] && next[SIGNATURE_LENGTH * i..] == last;
  }

  lemma ReadBodyAt(b: bytes, off: nat)
    requires off + BODY_PREFIX_LENGTH <= |b|
    ensures ReadBody(b[off..]) == Body(
      Unsigned(b[off..off + 4]), Unsigned(b[off + 4..off + 8]), Unsigned(b[off + 8..off + 10]),
      b[off + 10..off + 42], Unsigned(b[off + 42..off + 50]), b[off + 50], b[off + 51..])
  {
    var t := b[off..];
    assert t[..4] == b[off..off + 4] && t[4..8] == b[off + 4..off + 8] && t[8..10] == b[off + 8..off + 10];
    assert t[10..42] == b[off + 10..off + 42] && t[42..50] == b[off + 42..off + 50] && t[51..] == b[off + 51..];
  }
}
