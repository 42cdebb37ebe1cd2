/** What canonical JSON looks like, character by character: read back as section 7 of RFC 8259 has it,
    and with keys ascending by UTF-16 code units. */
module JsonText {
  import opened Bytes
  import opened CanonicalJson

  // -------------------------------------------------------------------------
  // Strings
  // -------------------------------------------------------------------------

  predicate IsHex(c: char) { '0' <= c <= '9' || 'a' <= c <= 'f' || 'A' <= c <= 'F' }

  function HexValue(c: char): nat
    requires IsHex(c)
  {
    if c <= '9' then c as int - '0' as int
    else if c <= 'F' then c as int - 'A' as int + 10 else c as int - 'a' as int + 10
  }

  /** A character of a string literal, and how many characters it is written with. */
  function ReadChar(t: string): Option<(char, nat)>
  {
    if t == "" || t[0] == '"' || t[0] as int < 0x20 then None
    else if t[0] != '\\' then Some((t[0], 1))
    else if |t| < 2 then None
    else if t[1] in {'"', '\\', '/'} then Some((t[1], 2))
    else if t[1] == 'b' then Some((0x08 as char, 2))
    else if t[1] == 'f' then Some((0x0C as char, 2))
    else if t[1] == 'n' then Some((0x0A as char, 2))
    else if t[1] == 'r' then Some((0x0D as char, 2))
    else if t[1] == 't' then Some((0x09 as char, 2))
    else if t[1] == 'u' && |t| >= 6 && IsHex(t[2]) && IsHex(t[3]) && IsHex(t[4]) && IsHex(t[5]) then
      var unit := ((HexValue(t[2]) * 16 + HexValue(t[3])) * 16 + HexValue(t[4])) * 16 + HexValue(t[5]);
      if 0xD800 <= unit < 0xE000 then None else Some((unit as char, 6))
    else None
  }

  /** The string a literal stands for, from after its opening quote, and what follows its closing one. */
  function ReadString(t: string): Option<(string, string)>
    decreases |t|
  {
    if t != "" && t[0] == '"' then Some(("", t[1..]))
    else
      match ReadChar(t)
      case None => None
      case Some((c, n)) =>
        if n == 0 || n > |t| then None
        else
          match ReadString(t[n..])
          case None => None
          case Some((s, rest)) => Some(([c] + s, rest))
  }

  /** Every escaped character reads back as itself, and no way of writing it is shorter. */
  lemma CharReadsBack(c: char, x: string)
    ensures ReadChar(EscapeChar(c) + x) == Some((c, |EscapeChar(c)|))
    ensures forall t: string :: ReadChar(t).Some? && ReadChar(t).value.0 == c ==> |EscapeChar(c)| <= ReadChar(t).value.1
  {
    var t := EscapeChar(c) + x;
    assert t[0] == EscapeChar(c)[0];
    if |EscapeChar(c)| >= 2 { assert t[1] == EscapeChar(c)[1]; }
    if |EscapeChar(c)| == 6 {
      assert t[2] == '0' && t[3] == '0' && t[4] == EscapeChar(c)[4] && t[5] == EscapeChar(c)[5];
    }
  }

  /** A printed string reads back, whatever stands after it. */
  lemma {:induction false} StringReadsBack(s: string, x: string)
    ensures Quote(s) + x != "" && (Quote(s) + x)[0] == '"'
    ensures ReadString((Quote(s) + x)[1..]) == Some((s, x))
  {
    assert (Quote(s) + x)[1..] == Escape(s) + "\"" + x;
    EscapeReadsBack(s, x);
  }

  lemma {:induction false} EscapeReadsBack(s: string, x: string)
    ensures ReadString(Escape(s) + "\"" + x) == Some((s, x))
  {
    hide EscapeChar, ReadChar;
    if s == "" {
      assert Escape(s) + "\"" + x == "\"" + x && ("\"" + x)[1..] == x;
    } else {
      var rest := Escape(s[1..]) + "\"" + x;
      var t := EscapeChar(s[0]) + rest;
      EscapeStep(s, x);
      CharReadsBack(s[0], rest);
      QuoteEndsEscape(s, x);
      assert t[|EscapeChar(s[0])|..] == rest;
      EscapeReadsBack(s[1..], x);
      assert s == [s[0]] + s[1..];
    }
  }

  // -------------------------------------------------------------------------
  // Keys ascend
  // -------------------------------------------------------------------------

  /** The UTF-16 code units of a character, as in section 3.9 of the Unicode Standard. */
  function UnitsOf(c: char): (u: seq<int>)
    ensures |u| > 0
  {
    var n := c as int;
    if n < 0x1_0000 then [n] else [0xD800 + (n - 0x1_0000) / 0x400, 0xDC00 + (n - 0x1_0000) % 0x400]
  }

  function Units(s: string): seq<int> { if s == "" then [] else UnitsOf(s[0]) + Units(s[1..]) }

  /** At the first position where the two differ the smaller unit comes first, and a proper prefix comes
      before what it is a prefix of. */
  predicate Before(a: seq<int>, b: seq<int>) {
    || (|a| < |b| && a == b[..|a|])
    || exists k | 0 <= k < |a| && k < |b| :: a[..k] == b[..k] && a[k] < b[k]
  }

  lemma BeforeAfter(p: seq<int>, a: seq<int>, b: seq<int>)
    requires Before(a, b)
    ensures Before(p + a, p + b)
  {
    if |a| < |b| && a == b[..|a|] {
      assert (p + b)[..|p + a|] == p + a;
    } else {
      var k :| 0 <= k < |a| && k < |b| && a[..k] == b[..k] && a[k] < b[k];
      assert (p + a)[..|p| + k] == p + a[..k] && (p + b)[..|p| + k] == p + b[..k];
      assert (p + a)[|p| + k] < (p + b)[|p| + k];
    }
  }

  lemma CharsBefore(c: char, d: char, a: seq<int>, b: seq<int>)
    requires Rank(c) < Rank(d)
    ensures Before(UnitsOf(c) + a, UnitsOf(d) + b)
  {
    var x, y := UnitsOf(c) + a, UnitsOf(d) + b;
    var k := if x[0] == y[0] then 1 else 0;
    assert x[0] == UnitsOf(c)[0] && y[0] == UnitsOf(d)[0];
    if k == 1 { assert x[1] == UnitsOf(c)[1] && y[1] == UnitsOf(d)[1]; }
    assert x[..k] == y[..k];
    assert x[k] < y[k];
  }

  lemma {:induction false} LessIsBefore(a: string, b: string)
    requires Less(a, b)
    ensures Before(Units(a), Units(b))
  {
    if a == "" {
      assert Units(a) == Units(b)[..0] && |Units(b)| > 0;
    } else if a[0] == b[0] {
      LessIsBefore(a[1..], b[1..]);
      BeforeAfter(UnitsOf(a[0]), Units(a[1..]), Units(b[1..]));
    } else {
      CharsBefore(a[0], b[0], Units(a[1..]), Units(b[1..]));
    }
  }

  // -------------------------------------------------------------------------
  // Values
  // -------------------------------------------------------------------------

  /** Texts with commas between them. */
  function Listed(parts: seq<string>): string
  {
    if parts == [] then "" else if |parts| == 1 then parts[0] else parts[0] + "," + Listed(parts[1..])
  }

  lemma {:induction false} JoinedIsListed(parts: seq<string>)
    ensures JoinComma(parts) == Listed(parts)
  {
    if |parts| > 1 { JoinedIsListed(parts[1..]); }
  }

  function InsertField(f: Field, fs: seq<Field>): (r: seq<Field>)
    ensures multiset(r) == multiset(fs) + multiset{f}
  {
    if fs == [] then [f]
    else if Less(f.key, fs[0].key) then [f] + fs
    else
      assert fs == [fs[0]] + fs[1..];
      [fs[0]] + InsertField(f, fs[1..])
  }

  function SortFields(fs: seq<Field>): (r: seq<Field>)
    ensures multiset(r) == multiset(fs)
  {
    if fs == [] then []
    else
      assert fs == [fs[0]] + fs[1..];
      InsertField(fs[0], SortFields(fs[1..]))
  }

  lemma {:induction false} InsertAlike(f: Field, fs: seq<Field>)
    ensures CanonicalEntries(InsertField(f, fs)) == Insert((f.key, Canonical(f.value)), CanonicalEntries(fs))
  {
    hide Canonical, Less;
    if fs != [] && !Less(f.key, fs[0].key) { InsertAlike(f, fs[1..]); }
  }

  lemma {:induction false} SortAlike(fs: seq<Field>)
    ensures CanonicalEntries(SortFields(fs)) == Sort(CanonicalEntries(fs))
  {
    hide Canonical;
    if fs != [] {
      SortAlike(fs[1..]);
      InsertAlike(fs[0], SortFields(fs[1..]));
    }
  }

  function MemberText(f: Field): string { Quote(f.key) + ":" + Canonical(f.value) }

  function MemberTexts(fields: seq<Field>): seq<string>
  {
    seq(|fields|, i requires 0 <= i < |fields| => MemberText(fields[i]))
  }

  lemma {:induction false} MembersAlike(fields: seq<Field>)
    ensures Members(CanonicalEntries(fields)) == MemberTexts(fields)
  {
    hide Quote, Canonical;
  }

  lemma {:induction false} SortedAscends(fields: seq<Field>)
    requires Sorted(CanonicalEntries(fields))
    ensures forall i, j | 0 <= i < j < |fields| :: Before(Units(fields[i].key), Units(fields[j].key))
  {
    hide Less, Before, Units, Canonical;
    var es := CanonicalEntries(fields);
    forall i, j | 0 <= i < j < |fields|
      ensures Before(Units(fields[i].key), Units(fields[j].key))
    {
      assert es[i].0 == fields[i].key && es[j].0 == fields[j].key;
      LessIsBefore(fields[i].key, fields[j].key);
    }
  }

  /** AN OBJECT'S TEXT is its members between braces with commas, each a quoted key, a colon and the
      value's text, in the arrangement in which the keys' code units strictly ascend. */
  lemma {:induction false} ObjectText(v: Json) returns (fields: seq<Field>)
    requires v.Obj? && Valid(v)
    ensures multiset(fields) == multiset(v.entries)
    ensures forall i, j | 0 <= i < j < |fields| :: Before(Units(fields[i].key), Units(fields[j].key))
    ensures Canonical(v) == "{" + Listed(MemberTexts(fields)) + "}"
  {
    hide Less, Before, Units, Quote, InsertField, JoinComma, Listed, Members, MemberTexts, Sorted;
    fields := SortFields(v.entries);
    SortAlike(v.entries);
    SortSorts(CanonicalEntries(v.entries));
    MembersAlike(fields);
    JoinedIsListed(MemberTexts(fields));
    SortedAscends(fields);
  }

  /** The other values: items in order between brackets with commas, strings quoted, numbers as their
      token, and the three words. */
  lemma OtherText(v: Json)
    requires !v.Obj?
    ensures v.Arr? ==>
              Canonical(v) ==
              "[" + Listed(seq(|v.items|, i requires 0 <= i < |v.items| => Canonical(v.items[i]))) + "]"
    ensures v.Str? ==> Canonical(v) == Quote(v.s)
    ensures v.Num? ==> Canonical(v) == v.token
    ensures v.Bool? ==> Canonical(v) == if v.b then "true" else "false"
    ensures v.Null? ==> Canonical(v) == "null"
  {
    hide Quote, JoinComma, Listed;
    if v.Arr? {
      var texts := seq(|v.items|, i requires 0 <= i < |v.items| => Canonical(v.items[i]));
      assert CanonicalItems(v.items) == texts;
      JoinedIsListed(texts);
    }
  }
}
