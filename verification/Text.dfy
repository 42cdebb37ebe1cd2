/** Strings: UTF-8, decimal numerals and splitting. A string is a sequence of Unicode scalar values. */
module Text {
  import opened Bytes

  // -------------------------------------------------------------------------
  // UTF-8 (TextEncoder.encode)
  // -------------------------------------------------------------------------

  function EncodeChar(c: char): (b: bytes)
    ensures |b| > 0
  {
    var n := c as int;
    if n < 0x80 then [n]
    else if n < 0x800 then [0xC0 + n / 64, 0x80 + n % 64]
    else if n < 0x1_0000 then [0xE0 + n / 4096, 0x80 + n / 64 % 64, 0x80 + n % 64]
    else [0xF0 + n / 262144, 0x80 + n / 4096 % 64, 0x80 + n / 64 % 64, 0x80 + n % 64]
  }

  function Utf8(s: string): bytes
  {
    if s == "" then [] else EncodeChar(s[0]) + Utf8(s[1..])
  }

  /** The code point spelled by the first character of a UTF-8 string. */
  function FirstCodePoint(b: bytes): int
    requires |b| > 0
  {
    var x: int := b[0];
    if x < 0x80 then x
    else if x < 0xE0 then (x - 0xC0) * 64 + Low6(b, 1)
    else if x < 0xF0 then (x - 0xE0) * 4096 + Low6(b, 1) * 64 + Low6(b, 2)
    else (x - 0xF0) * 262144 + Low6(b, 1) * 4096 + Low6(b, 2) * 64 + Low6(b, 3)
  }

  function Low6(b: bytes, i: nat): int {
    if i < |b| then (b[i] as int) - 0x80 else 0
  }

  lemma FirstOfEncoding(c: char, rest: bytes)
    ensures FirstCodePoint(EncodeChar(c) + rest) == c as int
  {
    var n := c as int;
    assert n / 4096 == n / 64 / 64 && n / 262144 == n / 4096 / 64;
  }

  lemma {:induction false} Utf8Injective(a: string, b: string)
    requires Utf8(a) == Utf8(b)
    ensures a == b
  {
    if a != "" && b != "" {
      FirstOfEncoding(a[0], Utf8(a[1..]));
      FirstOfEncoding(b[0], Utf8(b[1..]));
      assert a[0] == b[0];
      var k := |EncodeChar(a[0])|;
      assert Utf8(a)[k..] == Utf8(a[1..]) && Utf8(b)[k..] == Utf8(b[1..]);
      Utf8Injective(a[1..], b[1..]);
      assert a == [a[0]] + a[1..] && b == [b[0]] + b[1..];
    }
  }

  predicate IsAscii(b: bytes) { forall x <- b :: x < 0x80 }

  /** TextDecoder on data with no byte above 0x7f. */
  function AsciiText(b: bytes): string
    requires IsAscii(b)
  {
    seq(|b|, i requires 0 <= i < |b| => b[i] as char)
  }

  predicate IsAsciiText(s: string) { forall c <- s :: c < 0x80 as char }

  lemma {:induction false} Utf8OfAscii(s: string)
    ensures IsAsciiText(s) ==> IsAscii(Utf8(s)) && |Utf8(s)| == |s| && AsciiText(Utf8(s)) == s
    ensures !IsAsciiText(s) ==> !IsAscii(Utf8(s))
  {
    if s != "" {
      var h, t := EncodeChar(s[0]), Utf8(s[1..]);
      Utf8OfAscii(s[1..]);
      assert s == [s[0]] + s[1..];
      assert forall x <- t :: x in h + t;
      if s[0] >= 0x80 as char {
        assert h[0] in h + t && h[0] >= 0x80;
      } else {
        assert h == [s[0] as int];
      }
      assert forall c <- s[1..] :: c in s;
      assert s[0] in s;
    }
  }

  // -------------------------------------------------------------------------
  // Decimal numerals
  // -------------------------------------------------------------------------

  predicate IsDigit(c: char) { '0' <= c <= '9' }

  /** \d+ */
  predicate IsNumeral(s: string) { s != "" && forall c <- s :: IsDigit(c) }

  function DigitChar(d: nat): char
    requires d < 10
  {
    '0' + d as char
  }

  function NatText(n: nat): (s: string)
    ensures IsNumeral(s)
  {
    if n < 10 then [DigitChar(n)] else NatText(n / 10) + [DigitChar(n % 10)]
  }

  /** String(n) for an integer n. */
  function IntText(n: int): string
  {
    if n < 0 then "-" + NatText(-n) else NatText(n)
  }

  function DigitValue(c: char): nat { if IsDigit(c) then c as int - '0' as int else 0 }

  /** Number(s) and BigInt(s) for a numeral s. */
  function NumeralValue(s: string): nat
  {
    if s == "" then 0 else 10 * NumeralValue(s[..|s| - 1]) + DigitValue(s[|s| - 1])
  }

  lemma {:induction false} ValueOfNatText(n: nat)
    ensures NumeralValue(NatText(n)) == n
  {
    var s := NatText(n);
    if n < 10 {
      assert s[..0] == "";
    } else {
      ValueOfNatText(n / 10);
      assert s[..|s| - 1] == NatText(n / 10);
    }
  }

  lemma NumeralIntText(n: int)
    ensures IsNumeral(IntText(n)) <==> n >= 0
  {
    if n < 0 {
      assert IntText(n)[0] == '-' && !IsDigit('-');
    }
  }

  // -------------------------------------------------------------------------
  // Splitting (String.prototype.split on one character)
  // -------------------------------------------------------------------------

  function Split(s: string, sep: char): (parts: seq<string>)
    ensures |parts| > 0
  {
    if s == "" then [""]
    else
      var rest := Split(s[1..], sep);
      if s[0] == sep then [""] + rest else [[s[0]] + rest[0]] + rest[1..]
  }

  lemma {:induction false} SplitWhole(s: string, sep: char)
    ensures Split(s, sep) == [s] <==> sep !in s
    ensures |Split(s, sep)| == 1 <==> sep !in s
  {
    if s != "" {
      SplitWhole(s[1..], sep);
      assert s == [s[0]] + s[1..];
      assert sep in s <==> s[0] == sep || sep in s[1..];
    }
  }

  lemma {:induction false} SplitAt(a: string, sep: char, b: string)
    ensures Split(a + [sep] + b, sep) == Split(a, sep) + Split(b, sep)
  {
    var s := a + [sep] + b;
    if a == "" {
      assert s[1..] == b;
    } else {
      assert s[1..] == a[1..] + [sep] + b;
      SplitAt(a[1..], sep, b);
    }
  }

  function Join(parts: seq<string>, sep: char): string
    requires |parts| > 0
  {
    if |parts| == 1 then parts[0] else parts[0] + [sep] + Join(parts[1..], sep)
  }

  lemma {:induction false} JoinOfSplit(s: string, sep: char)
    ensures Join(Split(s, sep), sep) == s
  {
    if s != "" {
      var rest := Split(s[1..], sep);
      JoinOfSplit(s[1..], sep);
      assert s == [s[0]] + s[1..];
      if s[0] == sep {
        assert ([""] + rest)[1..] == rest && "" + [sep] + s[1..] == s;
      } else if |rest| > 1 {
        assert ([[s[0]] + rest[0]] + rest[1..])[1..] == rest[1..];
        assert [s[0]] + rest[0] + [sep] + Join(rest[1..], sep) == [s[0]] + (rest[0] + [sep] + Join(rest[1..], sep));
      }
    }
  }

  function SplitAll(parts: seq<string>, sep: char): seq<string>
  {
    if parts == [] then [] else Split(parts[0], sep) + SplitAll(parts[1..], sep)
  }

  lemma {:induction false} SplitOfJoin(parts: seq<string>, sep: char)
    requires |parts| > 0
    ensures Split(Join(parts, sep), sep) == SplitAll(parts, sep)
  {
    if |parts| > 1 {
      SplitAt(parts[0], sep, Join(parts[1..], sep));
      SplitOfJoin(parts[1..], sep);
    } else {
      assert SplitAll(parts[1..], sep) == [];
    }
  }

  lemma {:induction false} JoinIsAscii(parts: seq<string>, sep: char)
    requires |parts| > 0 && sep < 0x80 as char && forall p <- parts :: IsAsciiText(p)
    ensures IsAsciiText(Join(parts, sep))
  {
    if |parts| > 1 {
      JoinIsAscii(parts[1..], sep);
    }
    assert parts[0] in parts;
  }

  /** The part after a fixed tag such as "p1=", when it is a numeral. */
  function TaggedNumeral(part: string, tag: string): Option<string>
  {
    if |part| > |tag| && part[..|tag|] == tag && IsNumeral(part[|tag|..]) then Some(part[|tag|..]) else None
  }

  lemma TaggedNumeralOf(tag: string, v: string)
    ensures TaggedNumeral(tag + v, tag) == if IsNumeral(v) then Some(v) else None
  {
    assert (tag + v)[..|tag|] == tag && (tag + v)[|tag|..] == v;
  }
}
