/** The canonical validate_stat_v2 simulation transaction: predicate text, shortvec lengths, the
    serialized legacy transaction and its decoder (packages/config/src/cre-runtime.ts). JavaScript's
    32-bit bitwise operators and out-of-range reads and slices are written out. */
module SolanaTx {
  import opened Bytes
  import opened Text

  // -------------------------------------------------------------------------
  // Predicate text
  // -------------------------------------------------------------------------

  datatype Predicate = Predicate(fixtureId: string, participant1Score: int, participant2Score: int, period: int)

  const NAME := "validate_stat_v2"
  const FIXTURE := "fixture="
  const P1 := "p1="
  const P2 := "p2="
  const PERIOD := "period="

  function Parts(p: Predicate): (parts: seq<string>)
    ensures |parts| == 5
  {
    [NAME, FIXTURE + p.fixtureId, P1 + IntText(p.participant1Score), P2 + IntText(p.participant2Score),
     PERIOD + IntText(p.period)]
  }

  function PredicateText(p: Predicate): string { Join(Parts(p), ':') }

  function PredicateData(p: Predicate): bytes { Utf8(PredicateText(p)) }

  /** The regular expression of parseValidateStatV2Data. None of its literal pieces and no numeral
      contains ':', so matching it is matching the five parts between colons. */
  function MatchPredicate(text: string): Option<Predicate>
  {
    var parts := Split(text, ':');
    if |parts| != 5 || parts[0] != NAME then None
    else
      match (TaggedNumeral(parts[1], FIXTURE), TaggedNumeral(parts[2], P1),
             TaggedNumeral(parts[3], P2), TaggedNumeral(parts[4], PERIOD))
      case (Some(f), Some(a), Some(b), Some(q)) =>
        Some(Predicate(f, NumeralValue(a), NumeralValue(b), NumeralValue(q)))
      case _ => None
  }

  /** TextDecoder drops a byte-order mark, and any byte above 0x7f decodes to a character outside
      ASCII, which the regular expression never matches. */
  function ParsePredicateData(data: bytes): Option<Predicate>
  {
    var body := if |data| >= 3 && data[..3] == [0xEF, 0xBB, 0xBF] then data[3..] else data;
    if IsAscii(body) then MatchPredicate(AsciiText(body)) else None
  }

  /** A byte-order mark in front is not read, and nothing outside ASCII is. */
  lemma MarkDropped(data: bytes)
    ensures !([0xEF, 0xBB, 0xBF] <= data) ==> ParsePredicateData([0xEF, 0xBB, 0xBF] + data) == ParsePredicateData(data)
    ensures !([0xEF, 0xBB, 0xBF] <= data) && (exists b <- data :: b > 127) ==> ParsePredicateData(data) == None
  {
    hide MatchPredicate;
    assert ([0xEF, 0xBB, 0xBF] + data)[..3] == [0xEF, 0xBB, 0xBF] && ([0xEF, 0xBB, 0xBF] + data)[3..] == data;
  }

  lemma NumeralHasNo(s: string, sep: char)
    requires IsNumeral(s) && !IsDigit(sep)
    ensures sep !in s
  {
  }

  lemma TaggedIntHasNoColon(tag: string, n: int)
    requires ':' !in tag
    ensures Whole(tag + IntText(n))
  {
    if n < 0 { NumeralHasNo(NatText(-n), ':'); } else { NumeralHasNo(NatText(n), ':'); }
    SplitWhole(tag + IntText(n), ':');
  }

  lemma PredicateParts(p: Predicate)
    ensures Split(PredicateText(p), ':') == [Parts(p)[0]] + Split(Parts(p)[1], ':') + Parts(p)[2..]
  {
    var parts := Parts(p);
    SplitOfJoin(parts, ':');
    TagsHaveNoColon();
    SplitWhole(parts[0], ':');
    assert Whole(parts[2]) by { TaggedIntHasNoColon(P1, p.participant1Score); }
    assert Whole(parts[3]) by { TaggedIntHasNoColon(P2, p.participant2Score); }
    assert Whole(parts[4]) by { TaggedIntHasNoColon(PERIOD, p.period); }
    SplitAllButSecond(parts);
  }

  predicate Whole(part: string) { Split(part, ':') == [part] }

  lemma TagsHaveNoColon()
    ensures ':' !in NAME && ':' !in P1 && ':' !in P2 && ':' !in PERIOD
  {
  }

  lemma SplitAllButSecond(parts: seq<string>)
    requires |parts| == 5 && Whole(parts[0]) && Whole(parts[2]) && Whole(parts[3]) && Whole(parts[4])
    ensures SplitAll(parts, ':') == [parts[0]] + Split(parts[1], ':') + parts[2..]
  {
    SplitAllSingle(parts[2..]);
    assert parts[1..][1..] == parts[2..];
  }

  lemma {:induction false} SplitAllSingle(parts: seq<string>)
    requires forall i :: 0 <= i < |parts| ==> Split(parts[i], ':') == [parts[i]]
    ensures SplitAll(parts, ':') == parts
  {
    if parts != [] {
      SplitAllSingle(parts[1..]);
    }
  }

  predicate Printable(p: Predicate) {
    IsNumeral(p.fixtureId) && p.participant1Score >= 0 && p.participant2Score >= 0 && p.period >= 0
  }

  /** The printed predicate parses back to itself exactly for a decimal fixture id and non-negative
      numbers, and does not parse at all otherwise. */
  lemma PredicateRoundTrip(p: Predicate)
    ensures ParsePredicateData(PredicateData(p)) == if Printable(p) then Some(p) else None
  {
    hide PredicateText, Utf8, MatchPredicate, AsciiText, Printable;
    var text := PredicateText(p);
    StartsWithName(p);
    StartsAscii(text);
    Utf8OfAscii(text);
    PredicateMatches(p);
    if Printable(p) {
      PrintableIsAscii(p);
    }
  }

  lemma StartsWithName(p: Predicate)
    ensures |PredicateText(p)| >= 1 && PredicateText(p)[0] == 'v'
  {
    assert NAME[0] == 'v';
  }

  lemma StartsAscii(text: string)
    requires |text| >= 1 && text[0] == 'v'
    ensures |Utf8(text)| >= 1 && Utf8(text)[0] == 0x76
  {
    assert EncodeChar('v') == [0x76];
  }

  lemma PrintableIsAscii(p: Predicate)
    requires Printable(p)
    ensures IsAsciiText(PredicateText(p))
  {
    JoinIsAscii(Parts(p), ':');
  }

  lemma PredicateMatches(p: Predicate)
    ensures MatchPredicate(PredicateText(p)) == if Printable(p) then Some(p) else None
  {
    var parts := Split(PredicateText(p), ':');
    PredicateParts(p);
    SplitWhole(Parts(p)[1], ':');
    if ':' in p.fixtureId {
      assert ':' in Parts(p)[1] && !IsDigit(':');
      assert |parts| > 5;
    } else {
      assert parts == Parts(p);
      TaggedNumeralOf(FIXTURE, p.fixtureId);
      TaggedInt(P1, p.participant1Score);
      TaggedInt(P2, p.participant2Score);
      TaggedInt(PERIOD, p.period);
    }
  }

  lemma TaggedInt(tag: string, n: int)
    ensures TaggedNumeral(tag + IntText(n), tag) == if n >= 0 then Some(IntText(n)) else None
    ensures n >= 0 ==> NumeralValue(IntText(n)) == n
  {
    TaggedNumeralOf(tag, IntText(n));
    NumeralIntText(n);
    if n >= 0 { ValueOfNatText(n); }
  }

  // -------------------------------------------------------------------------
  // JavaScript's 32-bit operators
  // -------------------------------------------------------------------------

  function Pow2(k: nat): (p: nat)
    ensures p > 0
  {
    if k == 0 then 1 else 2 * Pow2(k - 1)
  }

  /** Bitwise | of two non-negative integers. */
  function Or(a: nat, b: nat): nat
  {
    if a == 0 then b else if b == 0 then a
    else 2 * Or(a / 2, b / 2) + (if a % 2 == 1 || b % 2 == 1 then 1 else 0)
  }

  /** x << shift as 32 unsigned bits; the shift count is taken modulo 32. */
  function Shl32(x: nat, shift: nat): nat { x * Pow2(shift % 32) % 0x1_0000_0000 }

  /** The signed reading of 32 bits. */
  function Int32(x: nat): int { if x < 0x8000_0000 then x else x - 0x1_0000_0000 }

  lemma Int32Is(x: nat)
    requires x < 0x1_0000_0000
    ensures -0x8000_0000 <= Int32(x) < 0x8000_0000 && (x - Int32(x) == 0 || x - Int32(x) == 0x1_0000_0000)
  {
  }

  lemma {:induction false} OrIsSum(a: nat, b: nat, k: nat)
    requires a < Pow2(k)
    ensures Or(a, b * Pow2(k)) == a + b * Pow2(k)
  {
    if a > 0 && b > 0 {
      var m := b * Pow2(k - 1);
      assert b * Pow2(k) == 2 * m by { MulTwo(b, Pow2(k - 1)); }
      OrIsSum(a / 2, b, k - 1);
    }
  }

  lemma MulTwo(b: nat, p: nat)
    ensures b * (2 * p) == 2 * (b * p)
  {
  }

  // -------------------------------------------------------------------------
  // Shortvec lengths
  // -------------------------------------------------------------------------

  function ShortVec(n: nat): (b: bytes)
    ensures |b| > 0
  {
    if n < 128 then [n] else [n % 128 + 128] + ShortVec(n / 128)
  }

  /** shortVec's loop: v & 0x7f is v % 128, v >>= 7 is v / 128, byte | 0x80 adds 128. */
  method WriteShortVec(n: nat) returns (out: bytes)
    requires n < 0x8000_0000
    ensures out == ShortVec(n)
  {
    out := [];
    var v := n;
    while true
      invariant out + ShortVec(v) == ShortVec(n)
      decreases v
    {
      var b := v % 128;
      ghost var rest := v;
      v := v / 128;
      if v == 0 {
        out := out + [b];
        return;
      }
      assert out + ([b + 128] + ShortVec(v)) == out + [b + 128] + ShortVec(v);
      out := out + [b + 128];
    }
  }

  /** tx[off], with the undefined of a read outside the array acting as 0. */
  function At(tx: bytes, off: int): byte { if 0 <= off < |tx| then tx[off] else 0 }

  /** readShortVec from a position with `value` gathered so far: the length and the next position. */
  function ReadShortVec(tx: bytes, off: int, value: nat, shift: nat): (int, int)
    decreases if 0 <= off < |tx| then |tx| - off else 0
  {
    var b := At(tx, off);
    var v := Or(value, Shl32(b % 128, shift));
    if b < 128 then (Int32(v), off + 1) else ReadShortVec(tx, off + 1, v, shift + 7)
  }

  method ReadLength(tx: bytes, start: int) returns (length: int, off: int)
    ensures (length, off) == ReadShortVec(tx, start, 0, 0)
  {
    var value, shift := 0, 0;
    off := start;
    while true
      invariant ReadShortVec(tx, off, value, shift) == ReadShortVec(tx, start, 0, 0)
      decreases if 0 <= off < |tx| then |tx| - off else 0
    {
      var b := At(tx, off);
      off := off + 1;
      value := Or(value, Shl32(b % 128, shift));
      if b < 128 {
        return Int32(value), off;
      }
      shift := shift + 7;
    }
  }

  predicate WrittenAt(tx: bytes, off: nat, b: bytes) { off + |b| <= |tx| && tx[off..off + |b|] == b }

  /** Reading a length back, at any position of any stream. */
  lemma ShortVecRoundTrip(tx: bytes, off: nat, n: nat)
    requires n < 0x8000_0000 && WrittenAt(tx, off, ShortVec(n))
    ensures ReadShortVec(tx, off, 0, 0) == (n, off + |ShortVec(n)|)
  {
    ReadRest(tx, off, 0, n, 0);
  }

  lemma Powers()
    ensures Pow2(0) == 1 && Pow2(7) == 128 && Pow2(14) == 0x4000 && Pow2(21) == 0x20_0000
    ensures Pow2(28) == 0x1000_0000
  {
    assert Pow2(7) == 128;
    assert Pow2(14) == 0x4000;
    assert Pow2(21) == 0x20_0000;
  }

  lemma {:induction false} ReadRest(tx: bytes, off: nat, value: nat, v: nat, shift: nat)
    requires shift in {0, 7, 14, 21, 28}
    requires value < Pow2(shift) && value + v * Pow2(shift) < 0x8000_0000
    requires WrittenAt(tx, off, ShortVec(v))
    ensures ReadShortVec(tx, off, value, shift) == (value + v * Pow2(shift), off + |ShortVec(v)|)
    decreases v
  {
    hide Pow2, Or, Shl32, ShortVec, WrittenAt, At, ReadShortVec;
    var sum := value + v % 128 * Pow2(shift);
    FirstByte(tx, off, v);
    ReadStep(tx, off, value, shift);
    GatherBits(value, v, shift);
    if v < 128 {
      assert v % 128 == v && At(tx, off) % 128 == v;
    } else {
      WrittenRest(tx, off, v);
      ReadRest(tx, off + 1, sum, v / 128, shift + 7);
    }
  }

  lemma FirstByte(tx: bytes, off: nat, v: nat)
    requires WrittenAt(tx, off, ShortVec(v))
    ensures At(tx, off) == if v < 128 then v else v % 128 + 128
    ensures At(tx, off) % 128 == v % 128
    ensures |ShortVec(v)| == if v < 128 then 1 else 1 + |ShortVec(v / 128)|
  {
    assert tx[off..off + |ShortVec(v)|][0] == tx[off];
  }

  lemma ReadStep(tx: bytes, off: int, value: nat, shift: nat)
    ensures var v := Or(value, Shl32(At(tx, off) % 128, shift));
            ReadShortVec(tx, off, value, shift) ==
            if At(tx, off) < 128 then (Int32(v), off + 1) else ReadShortVec(tx, off + 1, v, shift + 7)
  {
    hide Or, Shl32, At;
  }

  /** One 7-bit group lands above everything gathered so far, so | adds it. */
  lemma GatherBits(value: nat, v: nat, shift: nat)
    requires shift in {0, 7, 14, 21, 28}
    requires value < Pow2(shift) && value + v * Pow2(shift) < 0x8000_0000
    ensures Or(value, Shl32(v % 128, shift)) == value + v % 128 * Pow2(shift) < 0x8000_0000
    ensures v >= 128 ==>
      && shift < 28 && value + v % 128 * Pow2(shift) < Pow2(shift + 7)
      && value + v * Pow2(shift) == value + v % 128 * Pow2(shift) + v / 128 * Pow2(shift + 7)
  {
    hide Or, Shl32;
    Powers();
    var b, p := v % 128, Pow2(shift);
    GatherSum(value, v, p);
    GroupLands(value, b, shift);
    if v >= 128 {
      assert Pow2(shift + 7) == 128 * p;
    }
  }

  lemma GatherSum(value: nat, v: nat, p: nat)
    requires p in {1, 128, 0x4000, 0x20_0000, 0x1000_0000} && value < p && value + v * p < 0x8000_0000
    ensures value + v % 128 * p < 0x8000_0000
    ensures v >= 128 ==>
      p < 0x1000_0000 && value + v % 128 * p < 128 * p && value + v * p == value + v % 128 * p + v / 128 * (128 * p)
  {
    MulMonotone(p, v % 128, v);
    Regroup(v, v / 128, v % 128, p);
    if v >= 128 {
      MulMonotone(p, v % 128, 127);
      MulMonotone(p, 128, v);
    }
  }

  lemma GroupLands(value: nat, b: nat, shift: nat)
    requires shift in {0, 7, 14, 21, 28} && b < 128
    requires value < Pow2(shift) && value + b * Pow2(shift) < 0x8000_0000
    ensures Or(value, Shl32(b, shift)) == value + b * Pow2(shift)
  {
    hide Or, Pow2;
    OrIsSum(value, b, shift);
    DivModUnique(b * Pow2(shift), 0x1_0000_0000, 0, b * Pow2(shift));
    assert shift % 32 == shift;
  }

  lemma WrittenRest(tx: bytes, off: nat, v: nat)
    requires v >= 128 && WrittenAt(tx, off, ShortVec(v))
    ensures WrittenAt(tx, off + 1, ShortVec(v / 128))
  {
    var s := ShortVec(v);
    SliceOfSlice(tx, off, off + |s|, 1, |s|);
    assert s[1..] == ShortVec(v / 128);
  }

  lemma Regroup(v: nat, q: nat, b: nat, p: nat)
    requires v == 128 * q + b
    ensures v * p == b * p + q * (128 * p)
  {
  }

  // -------------------------------------------------------------------------
  // The serialized legacy transaction
  // -------------------------------------------------------------------------

  function Zeros(n: nat): (b: bytes)
    ensures |b| == n
  {
    seq(n, i => 0)
  }

  const PREFIX_LENGTH := 201

  /** Everything before the instruction data's length: one empty signature, the message header, three
      keys, an empty blockhash and one instruction on program 2 with the single account 1. */
  function TxPrefix(payer: bytes32, dailyRoot: bytes32, program: bytes32): (b: bytes)
    ensures |b| == PREFIX_LENGTH
  {
    [1] + Zeros(64) + [1, 0, 2] + [3] + payer + dailyRoot + program + Zeros(32) + [1] + [2] + [1] + [1]
  }

  function TxBytes(payer: bytes32, dailyRoot: bytes32, program: bytes32, data: bytes): bytes
  {
    TxPrefix(payer, dailyRoot, program) + ShortVec(|data|) + data
  }

  /** WHERE EVERYTHING STANDS in a built transaction: one empty signature, a header of one signer and two
      read-only accounts, payer, daily root and program, an empty blockhash, one instruction on the third
      account with the second, and the data behind its length. */
  lemma TxTable(payer: bytes32, dailyRoot: bytes32, program: bytes32, data: bytes)
    ensures var b := TxBytes(payer, dailyRoot, program, data);
            && |b| >= 201 + |data| && b[0] == 1 && (forall k | 1 <= k < 65 :: b[k] == 0)
            && b[65..69] == [1, 0, 2, 3] && b[69..101] == payer && b[101..133] == dailyRoot && b[133..165] == program
            && (forall k | 165 <= k < 197 :: b[k] == 0) && b[197..201] == [1, 2, 1, 1]
            && b[|b| - |data|..] == data
            && (|data| < 128 ==> b[201..|b| - |data|] == [|data|])
            && (128 <= |data| < 16384 ==> b[201..|b| - |data|] == [|data| % 128 + 128, |data| / 128])
  {
    hide Zeros, ShortVec;
    var b, p, n := TxBytes(payer, dailyRoot, program, data), TxPrefix(payer, dailyRoot, program), ShortVec(|data|);
    assert b[..201] == p && b[201..201 + |n|] == n;
    PrefixTable(payer, dailyRoot, program);
    assert forall k | 0 <= k < 201 :: b[k] == p[k];
    assert b[65..69] == p[65..69] && b[69..101] == p[69..101] && b[101..133] == p[101..133];
    assert b[133..165] == p[133..165] && b[197..201] == p[197..201];
    ShortLengths(|data|);
  }

  lemma PrefixTable(payer: bytes32, dailyRoot: bytes32, program: bytes32)
    ensures var p := TxPrefix(payer, dailyRoot, program);
            && p[0] == 1 && (forall k | 1 <= k < 65 :: p[k] == 0) && p[65..69] == [1, 0, 2, 3]
            && p[69..101] == payer && p[101..133] == dailyRoot && p[133..165] == program
            && (forall k | 165 <= k < 197 :: p[k] == 0) && p[197..201] == [1, 2, 1, 1]
  {
  }

  lemma ShortLengths(n: nat)
    ensures n < 128 ==> ShortVec(n) == [n]
    ensures 128 <= n < 16384 ==> ShortVec(n) == [n % 128 + 128, n / 128]
  {
    if 128 <= n < 16384 {
      assert ShortVec(n / 128) == [n / 128];
    }
  }

  /** buildValidateStatV2Transaction: the message is pushed piece by piece, then framed. */
  method BuildTransaction(payer: bytes32, dailyRoot: bytes32, program: bytes32, data: bytes) returns (tx: bytes)
    requires |data| < 0x8000_0000
    ensures tx == TxBytes(payer, dailyRoot, program, data)
  {
    var message: bytes := [1, 0, 2];
    var three := WriteShortVec(3);
    message := message + three + payer + dailyRoot + program;
    message := message + Zeros(32);
    var one := WriteShortVec(1);
    message := message + one;
    message := message + [2];
    message := message + one + [1];
    var length := WriteShortVec(|data|);
    message := message + length + data;
    tx := one + Zeros(64) + message;
    assert one == [1] && three == [3];
    assert message ==
           ([1, 0, 2] + [3] + payer + dailyRoot + program + Zeros(32) + [1] + [2] + [1] + [1]) + length + data;
  }

  datatype DecodedTx = DecodedTx(program: bytes, dailyRoot: bytes, instructionData: bytes)

  datatype TxError = NotOneInstruction | NoSuchKey

  /** Uint8Array.slice: negative positions count from the end, and both ends are clamped. */
  function JsSlice(s: bytes, a: int, b: int): bytes
  {
    var lo := Clamp(s, a);
    var hi := Clamp(s, b);
    if lo <= hi then s[lo..hi] else []
  }

  function Clamp(s: bytes, a: int): (r: nat)
    ensures r <= |s|
  {
    if a < -|s| then 0 else if a < 0 then |s| + a else if a <= |s| then a else |s|
  }

  function Pos(n: int): nat { if n < 0 then 0 else n }

  /** keys[tx[at]] out of n keys stored from keysAt; reading past the transaction or the keys throws. */
  function KeyAt(tx: bytes, keysAt: int, n: int, at: int): Result<bytes, TxError>
  {
    if 0 <= at < |tx| && (tx[at] as int) < n then
      var k := keysAt + 32 * (tx[at] as int);
      Ok(JsSlice(tx, k, k + 32))
    else Err(NoSuchKey)
  }

  function DecodeTx(tx: bytes): Result<DecodedTx, TxError>
  {
    var (numSigs, off1) := ReadShortVec(tx, 0, 0, 0);
    var (numKeys, keysAt) := ReadShortVec(tx, off1 + 64 * numSigs + 3, 0, 0);
    var (numInstructions, programAt) := ReadShortVec(tx, keysAt + 32 * Pos(numKeys) + 32, 0, 0);
    if numInstructions != 1 then Err(NotOneInstruction)
    else
      var (numAccounts, accountsAt) := ReadShortVec(tx, programAt + 1, 0, 0);
      var (dataLen, dataAt) := ReadShortVec(tx, accountsAt + Pos(numAccounts), 0, 0);
      var program :- KeyAt(tx, keysAt, numKeys, programAt);
      var dailyRoot :- KeyAt(tx, keysAt, numKeys, if numAccounts > 0 then accountsAt else -1);
      Ok(DecodedTx(program, dailyRoot, JsSlice(tx, dataAt, dataAt + dataLen)))
  }

  method DecodeTransaction(tx: bytes) returns (r: Result<DecodedTx, TxError>)
    ensures r == DecodeTx(tx)
  {
    hide ReadShortVec, JsSlice, KeyAt;
    var numSigs, off := ReadLength(tx, 0);
    off := off + numSigs * 64 + 3;
    var numKeys;
    numKeys, off := ReadLength(tx, off);
    ghost var keysAt := off;
    var keys := ReadKeys(tx, off, numKeys);
    off := off + 32 * |keys| + 32;
    var numInstructions;
    numInstructions, off := ReadLength(tx, off);
    if numInstructions != 1 {
      return Err(NotOneInstruction);
    }
    var programIdIndex := if 0 <= off < |tx| then Some(tx[off]) else None;
    KeyFound(tx, keysAt, numKeys, keys, off, programIdIndex);
    off := off + 1;
    var numAccounts;
    numAccounts, off := ReadLength(tx, off);
    var accountIndices := ReadAccounts(tx, off, numAccounts);
    KeyFound(tx, keysAt, numKeys, keys, if numAccounts > 0 then off else -1,
             if accountIndices == [] then None else accountIndices[0]);
    off := off + |accountIndices|;
    var dataLen;
    dataLen, off := ReadLength(tx, off);
    var instructionData := JsSlice(tx, off, off + dataLen);
    if programIdIndex == None || programIdIndex.value >= |keys| {
      return Err(NoSuchKey);
    }
    if accountIndices == [] || accountIndices[0] == None || accountIndices[0].value >= |keys| {
      return Err(NoSuchKey);
    }
    r := Ok(DecodedTx(keys[programIdIndex.value], keys[accountIndices[0].value], instructionData));
  }

  /** Looking a key up in the list that was read. */
  lemma KeyFound(tx: bytes, keysAt: int, n: int, keys: seq<bytes>, at: int, index: Option<byte>)
    requires |keys| == Pos(n)
    requires forall k :: 0 <= k < |keys| ==> keys[k] == JsSlice(tx, keysAt + 32 * k, keysAt + 32 * k + 32)
    requires index == if 0 <= at < |tx| then Some(tx[at]) else None
    ensures KeyAt(tx, keysAt, n, at) ==
            if index == None || index.value >= |keys| then Err(NoSuchKey) else Ok(keys[index.value])
  {
    hide JsSlice;
  }

  method ReadKeys(tx: bytes, keysAt: int, n: int) returns (keys: seq<bytes>)
    ensures |keys| == Pos(n)
    ensures forall k :: 0 <= k < |keys| ==> keys[k] == JsSlice(tx, keysAt + 32 * k, keysAt + 32 * k + 32)
  {
    keys := [];
    var off := keysAt;
    while |keys| < n
      invariant |keys| <= Pos(n) && off == keysAt + 32 * |keys|
      invariant forall k :: 0 <= k < |keys| ==> keys[k] == JsSlice(tx, keysAt + 32 * k, keysAt + 32 * k + 32)
    {
      keys := keys + [JsSlice(tx, off, off + 32)];
      off := off + 32;
    }
  }

  method ReadAccounts(tx: bytes, accountsAt: int, n: int) returns (indices: seq<Option<byte>>)
    ensures |indices| == Pos(n)
    ensures n > 0 ==> indices[0] == if 0 <= accountsAt < |tx| then Some(tx[accountsAt]) else None
  {
    indices := [];
    var off := accountsAt;
    while |indices| < n
      invariant |indices| <= Pos(n) && off == accountsAt + |indices|
      invariant indices != [] ==> indices[0] == if 0 <= accountsAt < |tx| then Some(tx[accountsAt]) else None
    {
      indices := indices + [if 0 <= off < |tx| then Some(tx[off]) else None];
      off := off + 1;
    }
  }

  lemma PrefixBytes(payer: bytes32, dailyRoot: bytes32, program: bytes32, t: bytes)
    requires t == TxPrefix(payer, dailyRoot, program)
    ensures t[0] == 1 && t[68] == 3 && t[197] == 1 && t[198] == 2 && t[199] == 1 && t[200] == 1
    ensures t[101..133] == dailyRoot && t[133..165] == program
  {
  }

  lemma ReadSmall(tx: bytes, off: nat, n: nat)
    requires off < |tx| && tx[off] == n && n < 128
    ensures ReadShortVec(tx, off, 0, 0) == (n, off + 1)
  {
    assert ShortVec(n) == [n] && tx[off..off + 1] == [n];
    ShortVecRoundTrip(tx, off, n);
  }

  /** Decoding a built transaction recovers exactly the program, the daily root and the data. */
  lemma DecodeBuilt(payer: bytes32, dailyRoot: bytes32, program: bytes32, data: bytes)
    requires |data| < 0x8000_0000
    ensures DecodeTx(TxBytes(payer, dailyRoot, program, data)) == Ok(DecodedTx(program, dailyRoot, data))
  {
    hide ReadShortVec, ShortVec, TxPrefix, TxBytes, JsSlice;
    var tx, len := TxBytes(payer, dailyRoot, program, data), ShortVec(|data|);
    BuiltBytes(payer, dailyRoot, program, data);
    ReadSmall(tx, 0, 1);
    ReadSmall(tx, 68, 3);
    ReadSmall(tx, 197, 1);
    ReadSmall(tx, 199, 1);
    ShortVecRoundTrip(tx, 201, |data|);
  }

  /** Where everything ends up. */
  lemma BuiltBytes(payer: bytes32, dailyRoot: bytes32, program: bytes32, data: bytes)
    ensures var tx, len := TxBytes(payer, dailyRoot, program, data), ShortVec(|data|);
            && |tx| == 201 + |len| + |data| && tx[0] == 1 && tx[68] == 3 && tx[197] == 1 && tx[198] == 2 && tx[199] == 1
            && tx[200] == 1 && tx[201..201 + |len|] == len
            && JsSlice(tx, 133, 165) == program && JsSlice(tx, 101, 133) == dailyRoot
            && JsSlice(tx, 201 + |len|, 201 + |len| + |data|) == data
  {
    hide ShortVec, TxPrefix;
    var t := TxPrefix(payer, dailyRoot, program);
    var tx, len := TxBytes(payer, dailyRoot, program, data), ShortVec(|data|);
    PrefixBytes(payer, dailyRoot, program, t);
    assert forall i :: 0 <= i < PREFIX_LENGTH ==> tx[i] == t[i];
    assert tx[133..165] == t[133..165] && tx[101..133] == t[101..133];
    assert tx[201 + |len|..] == data;
  }
}
