/** Base58 account keys as 32 raw bytes (base58ToHex32, packages/protocol/src/hashing.ts). */
module Base58 {
  import opened Bytes

  datatype Base58Error = InvalidChar | Exceeds32Bytes

  /** The alphabet: digits, capitals and small letters without 0, I, O and l. */
  function Symbol(d: nat): char
    requires d < 58
  {
    if d < 9 then '1' + d as char
    else if d < 17 then 'A' + (d - 9) as char
    else if d < 22 then 'J' + (d - 17) as char
    else if d < 33 then 'P' + (d - 22) as char
    else if d < 44 then 'a' + (d - 33) as char
    else 'm' + (d - 44) as char
  }

  /** Position in the alphabet, or -1. */
  function Digit(c: char): (d: int)
    ensures -1 <= d < 58
    ensures d >= 0 ==> Symbol(d) == c
  {
    if '1' <= c <= '9' then c as int - '1' as int
    else if 'A' <= c <= 'H' then c as int - 'A' as int + 9
    else if 'J' <= c <= 'N' then c as int - 'J' as int + 17
    else if 'P' <= c <= 'Z' then c as int - 'P' as int + 22
    else if 'a' <= c <= 'k' then c as int - 'a' as int + 33
    else if 'm' <= c <= 'z' then c as int - 'm' as int + 44
    else -1
  }

  lemma DigitOfSymbol(d: nat)
    requires d < 58
    ensures Digit(Symbol(d)) == d
  {
  }

  /** The symbols in their order. */
  lemma SymbolIs(d: nat)
    requires d < 58
    ensures Digit(Symbol(d)) == d
    ensures Symbol(d) == if d < 9 then "123456789"[d] else if d < 17 then "ABCDEFGH"[d - 9]
                         else if d < 22 then "JKLMN"[d - 17] else if d < 33 then "PQRSTUVWXYZ"[d - 22]
                         else if d < 44 then "abcdefghijk"[d - 33] else "mnopqrstuvwxyz"[d - 44]
  {
    hide Symbol, Digit;
    DigitOfSymbol(d);
    if d < 33 { CapitalIs(d); } else { SmallIs(d); }
  }

  lemma CapitalIs(d: nat)
    requires d < 33
    ensures Symbol(d) == if d < 9 then "123456789"[d] else if d < 17 then "ABCDEFGH"[d - 9]
                         else if d < 22 then "JKLMN"[d - 17] else "PQRSTUVWXYZ"[d - 22]
  {
  }

  lemma SmallIs(d: nat)
    requires 33 <= d < 58
    ensures Symbol(d) == if d < 44 then "abcdefghijk"[d - 33] else "mnopqrstuvwxyz"[d - 44]
  {
  }

  predicate IsBase58(s: string) { forall c <- s :: Digit(c) >= 0 }

  function Value(s: string): nat
    requires IsBase58(s)
  {
    if s == "" then 0 else 58 * Value(s[..|s| - 1]) + Digit(s[|s| - 1])
  }

  /** The number of leading '1' characters. */
  function LeadingOnes(s: string): (n: nat)
    ensures n > 0 <==> s != "" && s[0] == '1'
  {
    if s != "" && s[0] == '1' then 1 + LeadingOnes(s[1..]) else 0
  }

  predicate Accepted(s: string) {
    IsBase58(s) && (s == "" || s[0] != '1') && Value(s) < Pow256(32)
  }

  /** The 32-byte big-endian value of an accepted key. */
  function ToBytes32(s: string): Result<bytes32, Base58Error>
  {
    if !IsBase58(s) then Err(InvalidChar)
    else if !Accepted(s) then Err(Exceeds32Bytes)
    else Ok(Be(Value(s), 32))
  }

  /** A string that is not a key is refused for a character outside the alphabet, or else as too long. */
  lemma WhyRefused(s: string)
    ensures ToBytes32(s) == Err(InvalidChar) <==> exists c <- s :: forall d: nat | d < 58 :: c != Symbol(d)
    ensures ToBytes32(s).Err? ==> ToBytes32(s).error in {InvalidChar, Exceeds32Bytes}
  {
  }

  // -------------------------------------------------------------------------
  // Hexadecimal text
  // -------------------------------------------------------------------------

  function HexChar(d: nat): char
    requires d < 16
  {
    if d < 10 then '0' + d as char else 'a' + (d - 10) as char
  }

  lemma HexCharIs(d: nat)
    requires d < 16
    ensures HexChar(d) == "0123456789abcdef"[d]
  {
  }

  /** n.toString(16) */
  function HexNumber(n: nat): (s: string)
    ensures s != ""
  {
    if n < 16 then [HexChar(n)] else HexNumber(n / 16) + [HexChar(n % 16)]
  }

  /** Two digits a byte, as bytesToHex writes them. */
  function HexText(b: bytes): (s: string)
    ensures |s| == 2 * |b|
  {
    if b == [] then ""
    else var x: int := b[|b| - 1]; HexText(b[..|b| - 1]) + [HexChar(x / 16), HexChar(x % 16)]
  }

  function Repeat(c: char, n: nat): (s: string)
    ensures |s| == n
  {
    seq(n, i => c)
  }

  function PadStart(s: string, width: nat): string
  {
    if |s| >= width then s else Repeat('0', width - |s|) + s
  }

  lemma {:induction false} PaddedHex(n: nat, w: nat)
    requires w > 0
    ensures n < Pow256(w) ==> |HexNumber(n)| <= 2 * w && PadStart(HexNumber(n), 2 * w) == HexText(Be(n, w))
    ensures n >= Pow256(w) ==> |HexNumber(n)| > 2 * w
    decreases w
  {
    hide Be, HexNumber, HexText, HexByte, PadStart;
    HexTextSplit(n, w);
    HexNumberSplit(n);
    assert n < Pow256(w) <==> n / 256 < Pow256(w - 1);
    if n < 256 {
      ZeroHex(w - 1);
      PadsOver(HexNumber(n), w);
    } else if w > 1 {
      PaddedHex(n / 256, w - 1);
      PadsBefore(HexNumber(n / 256), HexByte(n % 256), w);
    }
  }

  lemma PadsOver(s: string, w: nat)
    requires w > 0 && |s| <= 2
    ensures PadStart(s, 2 * w) == Repeat('0', 2 * (w - 1)) + PadStart(s, 2)
  {
  }

  lemma PadsBefore(s: string, t: string, w: nat)
    requires w > 0 && |t| == 2
    ensures PadStart(s + t, 2 * w) == PadStart(s, 2 * (w - 1)) + t
  {
  }

  function HexByte(x: nat): (s: string)
    requires x < 256
    ensures |s| == 2
  {
    [HexChar(x / 16), HexChar(x % 16)]
  }

  lemma HexTextSplit(n: nat, w: nat)
    requires w > 0
    ensures HexText(Be(n, w)) == HexText(Be(n / 256, w - 1)) + HexByte(n % 256)
  {
    var b := Be(n, w);
    assert b[..w - 1] == Be(n / 256, w - 1) && b[w - 1] == n % 256;
  }

  lemma HexNumberSplit(n: nat)
    ensures n >= 256 ==> HexNumber(n) == HexNumber(n / 256) + HexByte(n % 256)
    ensures n < 256 ==> |HexNumber(n)| <= 2 && PadStart(HexNumber(n), 2) == HexByte(n)
  {
    var h := n / 16;
    assert n % 256 / 16 == h % 16 && n % 256 % 16 == n % 16 && h / 16 == n / 256;
    if n >= 256 {
      assert HexNumber(n) == HexNumber(h) + [HexChar(n % 16)];
      assert HexNumber(h) == HexNumber(n / 256) + [HexChar(h % 16)];
    } else if n >= 16 {
      assert HexNumber(h) == [HexChar(h)];
    }
  }

  lemma {:induction false} ZeroHex(w: nat)
    ensures HexText(Be(0, w)) == Repeat('0', 2 * w)
  {
    hide HexText, Be;
    if w == 0 { NoHex(); }
    if w > 0 {
      ZeroHex(w - 1);
      ZeroBytes(w);
      OneZeroMore(Be(0, w - 1));
      assert Repeat('0', 2 * w) == Repeat('0', 2 * w - 2) + ['0', '0'];
    }
  }

  lemma NoHex()
    ensures Be(0, 0) == [] && HexText([]) == "" && Repeat('0', 0) == ""
  {
  }

  lemma ZeroBytes(w: nat)
    requires w > 0
    ensures Be(0, w) == Be(0, w - 1) + [0]
  {
  }

  lemma OneZeroMore(b: bytes)
    ensures HexText(b + [0]) == HexText(b) + ['0', '0']
  {
    assert (b + [0])[..|b|] == b;
  }

  // -------------------------------------------------------------------------
  // The decoder as written
  // -------------------------------------------------------------------------

  /** The zero bytes of leading '1's are prepended to text already padded to 64 digits, so any key
      that starts with '1' is too long and is rejected. */
  method Base58ToHex32(b58: string) returns (r: Result<string, Base58Error>)
    ensures r == match ToBytes32(b58) case Ok(b) => Ok(HexText(b)) case Err(e) => Err(e)
  {
    var number := Accumulate(b58);
    if number == None {
      return Err(InvalidChar);
    }
    var n := number.value;
    var hex := PadStart(HexNumber(n), 64);
    var leading := CountLeadingOnes(b58);
    hex := Repeat('0', 2 * leading) + hex;
    PaddedHex(n, 32);
    if |hex| > 64 {
      return Err(Exceeds32Bytes);
    }
    assert hex == PadStart(HexNumber(n), 64);
    r := Ok(PadStart(hex, 64));
  }

  method Accumulate(b58: string) returns (n: Option<nat>)
    ensures n == if IsBase58(b58) then Some(Value(b58)) else None
  {
    var total: nat := 0;
    for k := 0 to |b58|
      invariant IsBase58(b58[..k]) && total == Value(b58[..k])
    {
      var i := Digit(b58[k]);
      if i < 0 {
        assert b58[k] in b58;
        return None;
      }
      total := total * 58 + i;
      assert b58[..k + 1][..k] == b58[..k];
    }
    assert b58[..|b58|] == b58;
    n := Some(total);
  }

  method CountLeadingOnes(b58: string) returns (leading: nat)
    ensures leading == LeadingOnes(b58)
  {
    leading := 0;
    while leading < |b58| && b58[leading] == '1'
      invariant leading <= |b58| && LeadingOnes(b58) == leading + LeadingOnes(b58[leading..])
    {
      leading := leading + 1;
    }
  }

  // -------------------------------------------------------------------------
  // Distinct accepted keys are distinct accounts
  // -------------------------------------------------------------------------

  lemma {:induction false} ValuePositive(s: string)
    requires IsBase58(s) && s != "" && s[0] != '1'
    ensures Value(s) > 0
  {
    var t := s[..|s| - 1];
    if t == "" {
      assert s == [s[0]] && Symbol(0) == '1';
    } else {
      ValuePositive(t);
    }
  }

  lemma LastDigit(s: string)
    requires IsBase58(s) && s != ""
    ensures Digit(s[|s| - 1]) >= 0 && IsBase58(s[..|s| - 1])
    ensures Value(s) / 58 == Value(s[..|s| - 1]) && Value(s) % 58 == Digit(s[|s| - 1])
  {
    hide Digit;
    assert Value(s) == 58 * Value(s[..|s| - 1]) + Digit(s[|s| - 1]);
  }

  lemma {:induction false} ValueInjective(s: string, t: string)
    requires IsBase58(s) && (s == "" || s[0] != '1')
    requires IsBase58(t) && (t == "" || t[0] != '1')
    requires Value(s) == Value(t)
    ensures s == t
  {
    if s != "" { ValuePositive(s); }
    if t != "" { ValuePositive(t); }
    if s != "" && t != "" {
      var x, y := s[|s| - 1], t[|t| - 1];
      LastDigit(s);
      LastDigit(t);
      hide Digit, Symbol, Value;
      assert Symbol(Digit(x)) == Symbol(Digit(y));
      ValueInjective(s[..|s| - 1], t[..|t| - 1]);
      assert s == s[..|s| - 1] + [x] && t == t[..|t| - 1] + [y];
    }
  }

  /** No two accepted strings name the same 32 bytes. */
  lemma ToBytes32Injective(s: string, t: string)
    requires ToBytes32(s).Ok? && ToBytes32(s) == ToBytes32(t)
    ensures s == t
  {
    UnsignedRoundTrip(Value(s), 32);
    UnsignedRoundTrip(Value(t), 32);
    ValueInjective(s, t);
  }

  /** Every 32-byte value is some accepted key. */
  lemma {:induction false} EveryValueHasAKey(n: nat) returns (s: string)
    ensures IsBase58(s) && (s == "" || s[0] != '1') && Value(s) == n
  {
    if n == 0 {
      s := "";
    } else {
      var t := EveryValueHasAKey(n / 58);
      var c := Symbol(n % 58);
      DigitOfSymbol(n % 58);
      s := t + [c];
      assert s[..|s| - 1] == t;
      if t == "" {
        assert n < 58;
      }
    }
  }
}
