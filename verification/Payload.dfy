/** MatchOutcomeV1, the fixed 176-byte cross-chain message (packages/protocol/src/payload.ts and
    wormhole/payload.rs). A 0x-hex string of 32 bytes is represented by the bytes it spells. */
module Payload {
  import opened Bytes

  const MAGIC: bytes := [0x50, 0x52, 0x46, 0x4c]
  const LENGTH := 176
  const RESULT_HOME := 1
  const RESULT_DRAW := 2
  const RESULT_AWAY := 3

  datatype MatchOutcome = MatchOutcome(
    flags: int, destinationChain: int, sourceValidationVersion: int, result: int,
    fixtureId: int, scoreSequence: int, proofTimestampMs: int,
    period: int, participant1Score: int, participant2Score: int,
    txlineProgramId: bytes, dailyRootAccount: bytes, validationInstructionHash: bytes, proofBundleHash: bytes)

  datatype PayloadError =
    | BadHexLength | BadLength | BadMagic | UnsupportedVersion | UnsupportedMessageType | InvalidResult

  predicate Has32(o: MatchOutcome) {
    |o.txlineProgramId| == |o.dailyRootAccount| == |o.validationInstructionHash| == |o.proofBundleHash| == 32
  }

  /** The values the declared field types (u8, u16, i32, i64, result code) can hold. */
  predicate InRange(o: MatchOutcome) {
    && Has32(o)
    && FitsUnsigned(o.flags, 2) && FitsUnsigned(o.destinationChain, 2) && FitsUnsigned(o.sourceValidationVersion, 1)
    && RESULT_HOME <= o.result <= RESULT_AWAY
    && FitsSigned(o.fixtureId, 8) && FitsSigned(o.scoreSequence, 8) && FitsSigned(o.proofTimestampMs, 8)
    && FitsSigned(o.period, 4) && FitsSigned(o.participant1Score, 4) && FitsSigned(o.participant2Score, 4)
  }

  /** The documented offset / size / field table, one byte at a time. */
  function ByteAt(o: MatchOutcome, i: nat): byte
    requires Has32(o) && i < LENGTH
  {
    if i < 4 then MAGIC[i]
    else if i < 6 then 1
    else if i < 8 then Be(o.flags, 2)[i - 6]
    else if i < 10 then Be(o.destinationChain, 2)[i - 8]
    else if i < 11 then Be(o.sourceValidationVersion, 1)[i - 10]
    else if i < 12 then Be(o.result, 1)[i - 11]
    else if i < 20 then Be(o.fixtureId, 8)[i - 12]
    else if i < 28 then Be(o.scoreSequence, 8)[i - 20]
    else if i < 36 then Be(o.proofTimestampMs, 8)[i - 28]
    else if i < 40 then Be(o.period, 4)[i - 36]
    else if i < 44 then Be(o.participant1Score, 4)[i - 40]
    else if i < 48 then Be(o.participant2Score, 4)[i - 44]
    else if i < 80 then o.txlineProgramId[i - 48]
    else if i < 112 then o.dailyRootAccount[i - 80]
    else if i < 144 then o.validationInstructionHash[i - 112]
    else o.proofBundleHash[i - 144]
  }

  function Layout(o: MatchOutcome): (b: bytes)
    requires Has32(o)
    ensures |b| == LENGTH
  {
    seq(LENGTH, i requires 0 <= i < LENGTH => ByteAt(o, i))
  }

  lemma LayoutIntegers(o: MatchOutcome, b: bytes)
    requires Has32(o) && b == Layout(o)
    ensures b[..4] == MAGIC && b[4] == 1 && b[5] == 1
    ensures b[6..8] == Be(o.flags, 2) && b[8..10] == Be(o.destinationChain, 2)
    ensures b[10..11] == Be(o.sourceValidationVersion, 1) && b[11..12] == Be(o.result, 1)
    ensures b[12..20] == Be(o.fixtureId, 8) && b[20..28] == Be(o.scoreSequence, 8)
    ensures b[28..36] == Be(o.proofTimestampMs, 8) && b[36..40] == Be(o.period, 4)
    ensures b[40..44] == Be(o.participant1Score, 4) && b[44..48] == Be(o.participant2Score, 4)
  {
    hide Be;
  }

  lemma LayoutHashes(o: MatchOutcome, b: bytes)
    requires Has32(o) && b == Layout(o)
    ensures b[48..80] == o.txlineProgramId && b[80..112] == o.dailyRootAccount
    ensures b[112..144] == o.validationInstructionHash && b[144..176] == o.proofBundleHash
  {
  }

  /** One in-place write that extends the part of a already equal to target. */
  method PutField(a: array<byte>, off: nat, b: bytes, ghost target: bytes)
    requires off + |b| <= a.Length == |target|
    requires a[..off] == target[..off] && b == target[off..off + |b|]
    modifies a
    ensures a[..off + |b|] == target[..off + |b|]
  {
    Put(a, off, b);
    assert target[..off + |b|] == target[..off] + b;
  }

  method EncodeTs(o: MatchOutcome) returns (r: Result<bytes, PayloadError>)
    ensures r == if Has32(o) then Ok(Layout(o)) else Err(BadHexLength)
  {
    if !Has32(o) {
      return Err(BadHexLength);
    }
    hide Be, Layout, ByteAt;
    ghost var target := Layout(o);
    LayoutIntegers(o, target);
    LayoutHashes(o, target);
    var buf := new byte[LENGTH](i => 0);
    PutField(buf, 0, MAGIC, target);
    PutField(buf, 4, [1], target);
    PutField(buf, 5, [1], target);
    PutField(buf, 6, Be(o.flags, 2), target);
    PutField(buf, 8, Be(o.destinationChain, 2), target);
    PutField(buf, 10, Be(o.sourceValidationVersion, 1), target);
    PutField(buf, 11, Be(o.result, 1), target);
    PutField(buf, 12, Be(o.fixtureId, 8), target);
    PutField(buf, 20, Be(o.scoreSequence, 8), target);
    PutField(buf, 28, Be(o.proofTimestampMs, 8), target);
    PutField(buf, 36, Be(o.period, 4), target);
    PutField(buf, 40, Be(o.participant1Score, 4), target);
    PutField(buf, 44, Be(o.participant2Score, 4), target);
    PutField(buf, 48, o.txlineProgramId, target);
    PutField(buf, 80, o.dailyRootAccount, target);
    PutField(buf, 112, o.validationInstructionHash, target);
    PutField(buf, 144, o.proofBundleHash, target);
    assert buf[..] == buf[..LENGTH] && target == target[..LENGTH];
    r := Ok(buf[..]);
  }

  function Decode(b: bytes): Result<MatchOutcome, PayloadError>
  {
    if |b| != LENGTH then Err(BadLength)
    else if b[..4] != MAGIC then Err(BadMagic)
    else if b[4] != 1 then Err(UnsupportedVersion)
    else if b[5] != 1 then Err(UnsupportedMessageType)
    else if b[11] < RESULT_HOME || b[11] > RESULT_AWAY then Err(InvalidResult)
    else Ok(MatchOutcome(
      Unsigned(b[6..8]), Unsigned(b[8..10]), b[10], b[11],
      Signed(b[12..20]), Signed(b[20..28]), Signed(b[28..36]),
      Signed(b[36..40]), Signed(b[40..44]), Signed(b[44..48]),
      b[48..80], b[80..112], b[112..144], b[144..176]))
  }

  /** What a decoder sees after an encoder reduced every field to its width. */
  function Wrapped(o: MatchOutcome): MatchOutcome
  {
    MatchOutcome(
      Unsigned(Be(o.flags, 2)), Unsigned(Be(o.destinationChain, 2)),
      Unsigned(Be(o.sourceValidationVersion, 1)), Unsigned(Be(o.result, 1)),
      Signed(Be(o.fixtureId, 8)), Signed(Be(o.scoreSequence, 8)), Signed(Be(o.proofTimestampMs, 8)),
      Signed(Be(o.period, 4)), Signed(Be(o.participant1Score, 4)), Signed(Be(o.participant2Score, 4)),
      o.txlineProgramId, o.dailyRootAccount, o.validationInstructionHash, o.proofBundleHash)
  }

  lemma SingleByte(b: bytes)
    requires |b| == 1
    ensures Unsigned(b) == b[0] && Be(b[0], 1) == b
  {
    assert b[..0] == [] && b == [b[0]];
    assert Be(b[0] / 256, 0) == [];
  }

  lemma DecodeLayout(o: MatchOutcome)
    requires Has32(o)
    ensures Decode(Layout(o)) ==
            if RESULT_HOME <= o.result % 256 <= RESULT_AWAY then Ok(Wrapped(o)) else Err(InvalidResult)
  {
    var b := Layout(o);
    LayoutIntegers(o, b);
    LayoutHashes(o, b);
    SingleByte(b[10..11]);
    SingleByte(b[11..12]);
    assert b[11] == o.result % 256 by { UnsignedOfBe(o.result, 1); Widths(); }
  }

  /** Encoding then decoding gives back the outcome exactly when every field fits its width. */
  lemma RoundTrip(o: MatchOutcome)
    requires Has32(o)
    ensures Decode(Layout(o)) == Ok(o) <==> InRange(o)
  {
    DecodeLayout(o);
    Widths();
    UnsignedRoundTrip(o.flags, 2);
    UnsignedRoundTrip(o.destinationChain, 2);
    UnsignedRoundTrip(o.sourceValidationVersion, 1);
    UnsignedRoundTrip(o.result, 1);
    SignedRoundTrip(o.fixtureId, 8);
    SignedRoundTrip(o.scoreSequence, 8);
    SignedRoundTrip(o.proofTimestampMs, 8);
    SignedRoundTrip(o.period, 4);
    SignedRoundTrip(o.participant1Score, 4);
    SignedRoundTrip(o.participant2Score, 4);
    UnsignedOfBe(o.result, 1);
  }

  /** Every accepted byte string is the encoding of what it decodes to. */
  lemma LayoutOfDecode(b: bytes)
    requires Decode(b).Ok?
    ensures InRange(Decode(b).value) && Layout(Decode(b).value) == b
  {
    hide Be, Unsigned, Signed;
    var o := Decode(b).value;
    Widths();
    Reread(b[6..8]);
    Reread(b[8..10]);
    SingleByte(b[10..11]);
    SingleByte(b[11..12]);
    Reread(b[12..20]);
    Reread(b[20..28]);
    Reread(b[28..36]);
    Reread(b[36..40]);
    Reread(b[40..44]);
    Reread(b[44..48]);
    assert b[..4] == MAGIC;
  }

  lemma Reread(b: bytes)
    requires b != []
    ensures Be(Unsigned(b), |b|) == b && FitsUnsigned(Unsigned(b), |b|)
    ensures Be(Signed(b), |b|) == b && FitsSigned(Signed(b), |b|)
  {
    UnsignedBound(b);
    BeOfUnsigned(b);
    BeOfSigned(b);
  }

  /** Acceptance, in terms of the bytes alone. */
  lemma DecodeAccepts(b: bytes)
    ensures Decode(b).Ok? <==> |b| == 176 && b[0] == 0x50 && b[1] == 0x52 && b[2] == 0x46 && b[3] == 0x4c
                               && b[4] == 1 && b[5] == 1 && b[11] in {1, 2, 3}
  {
    if |b| == 176 {
      assert b[..4] == [b[0], b[1], b[2], b[3]];
    }
  }

  /** Overwriting payload byte 43 touches nothing but the low byte of participant1Score. */
  lemma TamperScoreByte(b: bytes, v: byte)
    requires Decode(b).Ok?
    ensures var o := Decode(b).value;
            Decode(b[43 := v]) == Ok(o.(participant1Score := o.participant1Score - b[43] + v))
  {
    var t := b[43 := v];
    assert t[..4] == b[..4] && t[6..8] == b[6..8] && t[8..10] == b[8..10];
    assert t[12..20] == b[12..20] && t[20..28] == b[20..28] && t[28..36] == b[28..36];
    assert t[36..40] == b[36..40] && t[44..48] == b[44..48];
    assert t[48..80] == b[48..80] && t[80..112] == b[80..112];
    assert t[112..144] == b[112..144] && t[144..176] == b[144..176];
    LowByte(b[40..44], v);
    assert t[40..44] == b[40..44][3 := v];
  }

  lemma LowByte(b: bytes, v: byte)
    requires |b| == 4
    ensures Signed(b[3 := v]) == Signed(b) - b[3] + v
  {
    var t := b[3 := v];
    assert t[..3] == b[..3];
    var h := Unsigned(b[..3]);
    assert Unsigned(b) == 256 * h + b[3] && Unsigned(t) == 256 * h + v;
    Widths();
  }

  method DecodeTs(b: bytes) returns (r: Result<MatchOutcome, PayloadError>)
    ensures r == Decode(b)
  {
    if |b| != LENGTH {
      return Err(BadLength);
    }
    for i := 0 to 4
      invariant b[..i] == MAGIC[..i]
    {
      if b[i] != MAGIC[i] {
        assert b[..4][i] != MAGIC[i];
        return Err(BadMagic);
      }
    }
    if b[4] != 1 {
      return Err(UnsupportedVersion);
    }
    if b[5] != 1 {
      return Err(UnsupportedMessageType);
    }
    var result := b[11];
    if result < 1 || result > 3 {
      return Err(InvalidResult);
    }
    return Ok(MatchOutcome(
      Unsigned(b[6..8]), Unsigned(b[8..10]), b[10], result,
      Signed(b[12..20]), Signed(b[20..28]), Signed(b[28..36]),
      Signed(b[36..40]), Signed(b[40..44]), Signed(b[44..48]),
      b[48..80], b[80..112], b[112..144], b[144..176]));
  }

  /** Rust's encode: the field types hold the ranges, so it cannot fail and always decodes back. */
  method EncodeRust(o: MatchOutcome) returns (b: bytes)
    requires Has32(o)
    ensures b == Layout(o)
  {
    hide Be, Layout, ByteAt;
    ghost var target := Layout(o);
    LayoutIntegers(o, target);
    LayoutHashes(o, target);
    var a := new byte[LENGTH](i => 0);
    PutField(a, 0, MAGIC, target);
    PutField(a, 4, [1], target);
    PutField(a, 5, [1], target);
    PutField(a, 6, Be(o.flags, 2), target);
    PutField(a, 8, Be(o.destinationChain, 2), target);
    PutField(a, 10, Be(o.sourceValidationVersion, 1), target);
    PutField(a, 11, Be(o.result, 1), target);
    PutField(a, 12, Be(o.fixtureId, 8), target);
    PutField(a, 20, Be(o.scoreSequence, 8), target);
    PutField(a, 28, Be(o.proofTimestampMs, 8), target);
    PutField(a, 36, Be(o.period, 4), target);
    PutField(a, 40, Be(o.participant1Score, 4), target);
    PutField(a, 44, Be(o.participant2Score, 4), target);
    PutField(a, 48, o.txlineProgramId, target);
    PutField(a, 80, o.dailyRootAccount, target);
    PutField(a, 112, o.validationInstructionHash, target);
    PutField(a, 144, o.proofBundleHash, target);
    assert a[..] == a[..LENGTH] && target == target[..LENGTH];
    b := a[..];
  }

  /** The code of the winner: 1 for the first side, 2 for a draw, 3 for the second side. */
  predicate NamesWinner(result: int, score1: int, score2: int) {
    && (result == 1 <==> score1 > score2)
    && (result == 2 <==> score1 == score2)
    && (result == 3 <==> score1 < score2)
  }

  function DeriveResult(score1: int, score2: int): (r: int)
    ensures NamesWinner(r, score1, score2)
  {
    if score1 > score2 then RESULT_HOME else if score1 == score2 then RESULT_DRAW else RESULT_AWAY
  }
}
