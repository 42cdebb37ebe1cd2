/** Canonical JSON (packages/protocol/src/hashing.ts and apps/mainnet-attestor/src/common.ts) over JSON
    values: sorted keys, no white space, strings escaped as in section 7 of RFC 8259. */
module CanonicalJson {
  import opened Bytes
  import opened Text

  /** A JSON value. A number is represented by the token JavaScript prints for it, which is different
      for different numbers. Object entries are in insertion order. */
  datatype Json =
    | Null
    | Bool(b: bool)
    | Num(token: string)
    | Str(s: string)
    | Arr(items: seq<Json>)
    | Obj(entries: seq<Field>)

  datatype Field = Field(key: string, value: Json)

  predicate IsNumberChar(c: char) { IsDigit(c) || c in {'-', '+', '.', 'e'} }

  predicate IsNumberToken(t: string) {
    t != "" && (t[0] == '-' || IsDigit(t[0])) && forall c <- t :: IsNumberChar(c)
  }

  predicate DistinctFields(es: seq<Field>) {
    forall i, j | 0 <= i < j < |es| :: es[i].key != es[j].key
  }

  predicate Valid(v: Json) {
    match v
    case Num(t) => IsNumberToken(t)
    case Arr(items) => forall i | 0 <= i < |items| :: Valid(items[i])
    case Obj(es) => DistinctFields(es) && forall i | 0 <= i < |es| :: Valid(es[i].value)
    case _ => true
  }

  /** Equal up to the order of object keys, at every depth. */
  ghost predicate Same(v: Json, w: Json) {
    match (v, w)
    case (Arr(xs), Arr(ys)) => |xs| == |ys| && forall i | 0 <= i < |xs| :: Same(xs[i], ys[i])
    case (Obj(es), Obj(fs)) =>
      |es| == |fs| &&
      forall i | 0 <= i < |es| :: exists j | 0 <= j < |fs| :: es[i].key == fs[j].key && Same(es[i].value, fs[j].value)
    case _ => v == w && !v.Arr? && !v.Obj?
  }

  // -------------------------------------------------------------------------
  // Strings
  // -------------------------------------------------------------------------

  function HexDigit(d: nat): char
    requires d < 16
  {
    if d < 10 then '0' + d as char else 'a' + (d - 10) as char
  }

  function EscapeChar(c: char): (s: string)
    ensures s != ""
  {
    if c == '"' then "\\\""
    else if c == '\\' then "\\\\"
    else if c == 8 as char then "\\b"
    else if c == 9 as char then "\\t"
    else if c == 10 as char then "\\n"
    else if c == 12 as char then "\\f"
    else if c == 13 as char then "\\r"
    else if c < 32 as char then "\\u00" + [HexDigit(c as int / 16), HexDigit(c as int % 16)]
    else [c]
  }

  function Escape(s: string): string
  {
    if s == "" then "" else EscapeChar(s[0]) + Escape(s[1..])
  }

  function Quote(s: string): string { "\"" + Escape(s) + "\"" }

  lemma EscapeCharSeparable(a: char, b: char, x: string, y: string)
    requires EscapeChar(a) + x == EscapeChar(b) + y
    ensures a == b && x == y
  {
    var ea, eb := EscapeChar(a), EscapeChar(b);
    assert (ea + x)[0] == ea[0] && (eb + y)[0] == eb[0];
    if ea[0] == '\\' {
      assert (ea + x)[1] == ea[1] && (eb + y)[1] == eb[1];
      if ea[1] == 'u' {
        assert (ea + x)[4] == ea[4] && (eb + y)[4] == eb[4];
        assert (ea + x)[5] == ea[5] && (eb + y)[5] == eb[5];
      }
    }
    assert a == b;
    assert x == (ea + x)[|ea|..] && y == (eb + y)[|eb|..];
  }

  lemma {:induction false} EscapeSeparable(a: string, b: string, x: string, y: string)
    requires Escape(a) + "\"" + x == Escape(b) + "\"" + y
    ensures a == b && x == y
  {
    hide Escape, EscapeChar;
    QuoteEndsEscape(a, x);
    QuoteEndsEscape(b, y);
    if a == "" || b == "" {
      assert x == ("\"" + x)[1..] && y == ("\"" + y)[1..];
    } else {
      EscapeStep(a, x);
      EscapeStep(b, y);
      EscapeCharSeparable(a[0], b[0], Escape(a[1..]) + "\"" + x, Escape(b[1..]) + "\"" + y);
      EscapeSeparable(a[1..], b[1..], x, y);
      assert a == [a[0]] + a[1..] && b == [b[0]] + b[1..];
    }
  }

  lemma EscapeStep(a: string, x: string)
    requires a != ""
    ensures Escape(a) + "\"" + x == EscapeChar(a[0]) + (Escape(a[1..]) + "\"" + x)
  {
    hide EscapeChar;
  }

  /** An escaped string never starts with the closing quote. */
  lemma QuoteEndsEscape(a: string, x: string)
    ensures (Escape(a) + "\"" + x)[0] == '"' <==> a == ""
    ensures a == "" ==> Escape(a) + "\"" + x == "\"" + x
  {
    if a != "" {
      assert (Escape(a) + "\"" + x)[0] == EscapeChar(a[0])[0];
    }
  }

  // -------------------------------------------------------------------------
  // Key order: UTF-16 code units, as JavaScript compares strings
  // -------------------------------------------------------------------------

  /** Characters above the basic plane are compared by their surrogates, which sort between U+D7FF
      and U+E000. */
  function Rank(c: char): int
  {
    var n := c as int;
    if n < 0xD800 then n else if n >= 0x1_0000 then n - 0x1_0000 + 0xD800 else n + 0x10_0000
  }

  predicate Less(a: string, b: string)
  {
    b != "" && (a == "" || (if a[0] == b[0] then Less(a[1..], b[1..]) else Rank(a[0]) < Rank(b[0])))
  }

  lemma {:induction false} LessTotal(a: string, b: string)
    ensures a == b || Less(a, b) || Less(b, a)
  {
    if a != "" && b != "" && a[0] == b[0] {
      LessTotal(a[1..], b[1..]);
      assert a == [a[0]] + a[1..] && b == [b[0]] + b[1..];
    }
  }

  lemma {:induction false} LessTransitive(a: string, b: string, c: string)
    requires Less(a, b) && Less(b, c)
    ensures Less(a, c)
  {
    if a != "" && a[0] == b[0] && b[0] == c[0] {
      LessTransitive(a[1..], b[1..], c[1..]);
    }
  }

  lemma {:induction false} LessIrreflexive(a: string)
    ensures !Less(a, a)
  {
    if a != "" { LessIrreflexive(a[1..]); }
  }

  // -------------------------------------------------------------------------
  // Sorting entries by key
  // -------------------------------------------------------------------------

  type Entry = (string, string)

  predicate DistinctKeys(es: seq<Entry>) {
    forall i, j | 0 <= i < j < |es| :: es[i].0 != es[j].0
  }

  /** Insert where a comparator returning -1, 0 or 1 puts it (protocol). */
  function Insert(e: Entry, es: seq<Entry>): (r: seq<Entry>)
    ensures |r| == |es| + 1 && multiset(r) == multiset(es) + multiset{e}
  {
    if es == [] then [e]
    else if Less(e.0, es[0].0) then [e] + es
    else
      assert es == [es[0]] + es[1..];
      [es[0]] + Insert(e, es[1..])
  }

  /** Insert with the comparator that never returns 0 (mainnet attestor). */
  function InsertStrict(e: Entry, es: seq<Entry>): (r: seq<Entry>)
    ensures |r| == |es| + 1 && multiset(r) == multiset(es) + multiset{e}
  {
    if es == [] then [e]
    else if !Less(es[0].0, e.0) then [e] + es
    else
      assert es == [es[0]] + es[1..];
      [es[0]] + InsertStrict(e, es[1..])
  }

  function Sort(es: seq<Entry>): (r: seq<Entry>)
    ensures |r| == |es| && multiset(r) == multiset(es)
  {
    if es == [] then []
    else
      assert es == [es[0]] + es[1..];
      Insert(es[0], Sort(es[1..]))
  }

  function SortStrict(es: seq<Entry>): (r: seq<Entry>)
    ensures |r| == |es| && multiset(r) == multiset(es)
  {
    if es == [] then []
    else
      assert es == [es[0]] + es[1..];
      InsertStrict(es[0], SortStrict(es[1..]))
  }

  predicate Sorted(es: seq<Entry>) { forall i, j | 0 <= i < j < |es| :: Less(es[i].0, es[j].0) }

  lemma {:induction false} InsertSorts(e: Entry, es: seq<Entry>)
    requires Sorted(es) && forall f <- es :: f.0 != e.0
    ensures Sorted(Insert(e, es)) && InsertStrict(e, es) == Insert(e, es)
  {
    if es != [] {
      LessTotal(e.0, es[0].0);
      if Less(e.0, es[0].0) {
        if Less(es[0].0, e.0) {
          LessTransitive(e.0, es[0].0, e.0);
          LessIrreflexive(e.0);
        }
        forall j | 0 < j < |es|
          ensures Less(e.0, es[j].0)
        {
          LessTransitive(e.0, es[0].0, es[j].0);
        }
      } else {
        InsertSorts(e, es[1..]);
        var r := Insert(e, es[1..]);
        forall j | 0 <= j < |r|
          ensures Less(es[0].0, r[j].0)
        {
          assert r[j] in multiset(r);
          assert r[j] == e || r[j] in es[1..];
        }
      }
    }
  }

  lemma {:induction false} SortSorts(es: seq<Entry>)
    requires DistinctKeys(es)
    ensures Sorted(Sort(es)) && SortStrict(es) == Sort(es)
  {
    if es != [] {
      SortSorts(es[1..]);
      var r := Sort(es[1..]);
      forall f | f in r
        ensures f.0 != es[0].0
      {
        assert f in multiset(es[1..]);
      }
      InsertSorts(es[0], r);
    }
  }

  /** There is only one sorted arrangement, whatever algorithm finds it. */
  lemma {:induction false} SortedUnique(a: seq<Entry>, b: seq<Entry>)
    requires Sorted(a) && Sorted(b) && multiset(a) == multiset(b)
    ensures a == b
  {
    hide Sorted;
    if a == [] || b == [] {
      assert |multiset(a)| == |a| && |multiset(b)| == |b|;
    } else {
      SameFirst(a, b);
      SortedTail(a);
      SortedTail(b);
      SortedUnique(a[1..], b[1..]);
    }
  }

  lemma SortedTail(a: seq<Entry>)
    requires Sorted(a) && a != []
    ensures Sorted(a[1..]) && a == [a[0]] + a[1..] && multiset(a[1..]) == multiset(a) - multiset{a[0]}
  {
    hide Less;
    assert a == [a[0]] + a[1..];
  }

  lemma SameFirst(a: seq<Entry>, b: seq<Entry>)
    requires Sorted(a) && Sorted(b) && multiset(a) == multiset(b) && a != [] && b != []
    ensures a[0] == b[0]
  {
    hide Less;
    assert a[0] in multiset(b) && b[0] in multiset(a);
    if a[0] != b[0] {
      assert Less(a[0].0, b[0].0) && Less(b[0].0, a[0].0);
      LessTransitive(a[0].0, b[0].0, a[0].0);
      LessIrreflexive(a[0].0);
    }
  }

  // -------------------------------------------------------------------------
  // The two printers
  // -------------------------------------------------------------------------

  function JoinComma(parts: seq<string>): string
  {
    if parts == [] then "" else Join(parts, ',')
  }

  function Member(e: Entry): string { Quote(e.0) + ":" + e.1 }

  function Members(es: seq<Entry>): (r: seq<string>)
    ensures |r| == |es| && forall i | 0 <= i < |es| :: r[i] == Member(es[i])
  {
    seq(|es|, i requires 0 <= i < |es| => Member(es[i]))
  }

  /** JSON.stringify of a value that is neither an array nor an object. */
  function Scalar(v: Json): string
    requires !v.Arr? && !v.Obj?
  {
    match v
    case Null => "null"
    case Bool(b) => if b then "true" else "false"
    case Num(t) => t
    case Str(s) => Quote(s)
  }

  /** canonicalJson of packages/protocol. */
  function Canonical(v: Json): string
    decreases v
  {
    if !v.Arr? && !v.Obj? then Scalar(v)
    else if v.Arr? then "[" + JoinComma(CanonicalItems(v.items)) + "]"
    else "{" + JoinComma(Members(Sort(CanonicalEntries(v.entries)))) + "}"
  }

  function CanonicalItems(items: seq<Json>): (r: seq<string>)
    ensures |r| == |items| && forall i | 0 <= i < |items| :: r[i] == Canonical(items[i])
    decreases items
  {
    if items == [] then [] else [Canonical(items[0])] + CanonicalItems(items[1..])
  }

  function CanonicalEntries(es: seq<Field>): (r: seq<Entry>)
    ensures |r| == |es| && forall i | 0 <= i < |es| :: r[i] == (es[i].key, Canonical(es[i].value))
    decreases es
  {
    if es == [] then [] else [(es[0].key, Canonical(es[0].value))] + CanonicalEntries(es[1..])
  }

  /** canonicalJson of apps/mainnet-attestor: arrays first, then objects, its own comparator. */
  function CanonicalMainnet(v: Json): string
    decreases v
  {
    if v.Arr? then "[" + JoinComma(MainnetItems(v.items)) + "]"
    else if v.Obj? then "{" + JoinComma(Members(SortStrict(MainnetEntries(v.entries)))) + "}"
    else Scalar(v)
  }

  function MainnetItems(items: seq<Json>): (r: seq<string>)
    ensures |r| == |items| && forall i | 0 <= i < |items| :: r[i] == CanonicalMainnet(items[i])
    decreases items
  {
    if items == [] then [] else [CanonicalMainnet(items[0])] + MainnetItems(items[1..])
  }

  function MainnetEntries(es: seq<Field>): (r: seq<Entry>)
    ensures |r| == |es| && forall i | 0 <= i < |es| :: r[i] == (es[i].key, CanonicalMainnet(es[i].value))
    decreases es
  {
    if es == [] then [] else [(es[0].key, CanonicalMainnet(es[0].value))] + MainnetEntries(es[1..])
  }

  /** Both copies print every JSON value the same way. */
  lemma {:induction false} CopiesAgree(v: Json)
    requires Valid(v)
    ensures CanonicalMainnet(v) == Canonical(v)
    decreases v
  {
    match v
    case Arr(items) =>
      forall i | 0 <= i < |items| { CopiesAgree(items[i]); }
      assert MainnetItems(items) == CanonicalItems(items);
    case Obj(es) =>
      forall i | 0 <= i < |es| { CopiesAgree(es[i].value); }
      assert MainnetEntries(es) == CanonicalEntries(es);
      SortSorts(CanonicalEntries(es));
    case _ =>
  }

  // -------------------------------------------------------------------------
  // Key order does not matter
  // -------------------------------------------------------------------------

  lemma {:induction false} SameEntriesSortAlike(a: seq<Entry>, b: seq<Entry>)
    requires DistinctKeys(a) && DistinctKeys(b) && |a| == |b| && forall e <- a :: e in b
    ensures Sort(a) == Sort(b)
  {
    SortSorts(a);
    SortSorts(b);
    SameMultiset(a, b);
    SortedUnique(Sort(a), Sort(b));
  }

  lemma {:induction false} SameMultiset(a: seq<Entry>, b: seq<Entry>)
    requires DistinctKeys(a) && |a| == |b| && forall e <- a :: e in b
    ensures multiset(a) == multiset(b)
  {
    if a != [] {
      assert a[0] in a;
      var j :| 0 <= j < |b| && b[j] == a[0];
      var rest := b[..j] + b[j + 1..];
      assert b == b[..j] + [b[j]] + b[j + 1..];
      forall e | e in a[1..]
        ensures e in rest
      {
        assert e in b && e != a[0];
      }
      SameMultiset(a[1..], rest);
      assert a == [a[0]] + a[1..];
    }
  }

  lemma {:induction false} KeyOrderIgnored(v: Json, w: Json)
    requires Valid(v) && Valid(w) && Same(v, w)
    ensures Canonical(v) == Canonical(w)
    decreases v
  {
    hide Sort, JoinComma, Members, CanonicalEntries, CanonicalItems;
    match (v, w)
    case (Arr(xs), Arr(ys)) =>
      forall i | 0 <= i < |xs| { KeyOrderIgnored(xs[i], ys[i]); }
      assert CanonicalItems(xs) == CanonicalItems(ys);
    case (Obj(es), Obj(fs)) =>
      var a, b := CanonicalEntries(es), CanonicalEntries(fs);
      forall i | 0 <= i < |es|
        ensures a[i] in b
      {
        var j :| 0 <= j < |fs| && es[i].key == fs[j].key && Same(es[i].value, fs[j].value);
        KeyOrderIgnored(es[i].value, fs[j].value);
        assert b[j] == a[i];
      }
      SameEntriesSortAlike(a, b);
    case _ =>
  }

  // -------------------------------------------------------------------------
  // Different values print differently
  // -------------------------------------------------------------------------

  /** What can follow a printed value inside a printed document. */
  predicate Ends(s: string) { s == "" || s[0] in {',', ']', '}'} }

  /** Two texts that cannot be confused with each other when something ends them. */
  ghost predicate Separable(a: string, b: string) {
    forall x, y | Ends(x) && Ends(y) && a + x == b + y :: a == b
  }

  /** A text that can be an item: not empty and not starting with an ending character. */
  predicate Item(a: string) { a != "" && a[0] !in {',', ']', '}'} }

  lemma {:induction false} ListSeparable(xs: seq<string>, ys: seq<string>, close: char, s: string, t: string)
    requires close in {']', '}'}
    requires (forall a <- xs :: Item(a)) && forall b <- ys :: Item(b)
    requires forall a, b | a in xs && b in ys :: Separable(a, b)
    requires JoinComma(xs) + [close] + s == JoinComma(ys) + [close] + t
    ensures xs == ys
  {
    if xs == [] || ys == [] {
      FirstOfList(xs, close, s);
      FirstOfList(ys, close, t);
    } else {
      var restX, restY := Rest(xs, close, s), Rest(ys, close, t);
      SplitFirst(xs, close, s);
      SplitFirst(ys, close, t);
      assert Separable(xs[0], ys[0]);
      assert xs[0] == ys[0];
      assert restX == (xs[0] + restX)[|xs[0]|..] && restY == (ys[0] + restY)[|ys[0]|..];
      if |xs| > 1 && |ys| > 1 {
        assert restX[1..] == JoinComma(xs[1..]) + [close] + s;
        assert restY[1..] == JoinComma(ys[1..]) + [close] + t;
        ListSeparable(xs[1..], ys[1..], close, s, t);
      }
      assert xs == [xs[0]] + xs[1..] && ys == [ys[0]] + ys[1..];
    }
  }

  function Rest(xs: seq<string>, close: char, s: string): string
    requires xs != []
  {
    if |xs| == 1 then [close] + s else "," + (JoinComma(xs[1..]) + [close] + s)
  }

  lemma SplitFirst(xs: seq<string>, close: char, s: string)
    requires xs != []
    ensures JoinComma(xs) + [close] + s == xs[0] + Rest(xs, close, s)
    ensures close in {']', '}'} ==> Ends(Rest(xs, close, s))
    ensures Rest(xs, close, s)[0] == if |xs| == 1 then close else ','
  {
  }

  lemma FirstOfList(xs: seq<string>, close: char, s: string)
    requires close in {']', '}'} && forall a <- xs :: Item(a)
    ensures (JoinComma(xs) + [close] + s)[0] == close <==> xs == []
  {
    if xs != [] {
      SplitFirst(xs, close, s);
      assert Item(xs[0]);
    }
  }

  function NumberLength(s: string): nat {
    if s != "" && IsNumberChar(s[0]) then 1 + NumberLength(s[1..]) else 0
  }

  lemma {:induction false} NumberEnds(a: string, x: string)
    requires (forall c <- a :: IsNumberChar(c)) && Ends(x)
    ensures NumberLength(a + x) == |a|
  {
    if a == "" {
      assert a + x == x;
    } else {
      NumberEnds(a[1..], x);
      assert (a + x)[1..] == a[1..] + x;
    }
  }

  lemma NumberSeparable(a: string, b: string, x: string, y: string)
    requires (forall c <- a :: IsNumberChar(c)) && (forall c <- b :: IsNumberChar(c))
    requires Ends(x) && Ends(y) && a + x == b + y
    ensures a == b
  {
    NumberEnds(a, x);
    NumberEnds(b, y);
    assert a == (a + x)[..|a|] && b == (b + y)[..|b|];
  }

  /** The first character of a printed value tells its kind. */
  function Kind(v: Json): int {
    match v
    case Null => 0
    case Bool(b) => if b then 1 else 2
    case Num(_) => 3
    case Str(_) => 4
    case Arr(_) => 5
    case Obj(_) => 6
  }

  function KindOfChar(c: char): int {
    if c == 'n' then 0 else if c == 't' then 1 else if c == 'f' then 2
    else if c == '"' then 4 else if c == '[' then 5 else if c == '{' then 6 else 3
  }

  lemma FirstChar(v: Json)
    requires Valid(v)
    ensures Item(Canonical(v)) && KindOfChar(Canonical(v)[0]) == Kind(v)
  {
  }

  lemma {:induction false} ValuesSeparable(v: Json, w: Json, x: string, y: string)
    requires Valid(v) && Valid(w) && Ends(x) && Ends(y) && Canonical(v) + x == Canonical(w) + y
    ensures Canonical(v) == Canonical(w)
    decreases v, 3
  {
    hide Escape, JoinComma, Sort, CanonicalItems, CanonicalEntries, Members, Ends;
    FirstChar(v);
    FirstChar(w);
    assert (Canonical(v) + x)[0] == Canonical(v)[0] && (Canonical(w) + y)[0] == Canonical(w)[0];
    assert Kind(v) == Kind(w);
    match (v, w)
    case (Num(a), Num(b)) => NumberSeparable(a, b, x, y);
    case (Str(a), Str(b)) => StringsSeparable(a, b, x, y);
    case (Arr(xs), Arr(ys)) => ArraysSeparable(v, w, x, y);
    case (Obj(es), Obj(fs)) => ObjectsSeparable(v, w, x, y);
    case _ =>
  }

  lemma StringsSeparable(a: string, b: string, x: string, y: string)
    requires Canonical(Str(a)) + x == Canonical(Str(b)) + y
    ensures a == b
  {
    hide Escape;
    assert (Canonical(Str(a)) + x)[1..] == Escape(a) + "\"" + x;
    assert (Canonical(Str(b)) + y)[1..] == Escape(b) + "\"" + y;
    EscapeSeparable(a, b, x, y);
  }

  lemma ArrayBody(v: Json, x: string)
    requires v.Arr?
    ensures (Canonical(v) + x)[1..] == JoinComma(CanonicalItems(v.items)) + "]" + x
  {
    hide JoinComma, CanonicalItems;
  }

  lemma ItemsOf(v: Json)
    requires v.Arr? && Valid(v)
    ensures forall a <- CanonicalItems(v.items) :: Item(a)
  {
    hide Canonical;
    forall i | 0 <= i < |v.items| ensures Item(Canonical(v.items[i])) { FirstChar(v.items[i]); }
  }

  lemma {:induction false} ArraysSeparable(v: Json, w: Json, x: string, y: string)
    requires v.Arr? && w.Arr? && Valid(v) && Valid(w) && Canonical(v) + x == Canonical(w) + y
    ensures CanonicalItems(v.items) == CanonicalItems(w.items)
    decreases v, 2
  {
    hide Canonical, JoinComma, Separable, Item;
    var xs, ys := v.items, w.items;
    var a, b := CanonicalItems(xs), CanonicalItems(ys);
    forall i, j | 0 <= i < |a| && 0 <= j < |b|
      ensures Separable(a[i], b[j])
    {
      ItemSeparable(v, xs[i], ys[j]);
    }
    ItemsOf(v);
    ItemsOf(w);
    ArrayBody(v, x);
    ArrayBody(w, y);
    ListSeparable(a, b, ']', x, y);
  }

  lemma {:induction false} ItemSeparable(parent: Json, v: Json, w: Json)
    requires v < parent && Valid(v) && Valid(w)
    ensures Item(Canonical(v)) && Item(Canonical(w)) && Separable(Canonical(v), Canonical(w))
    decreases parent, 0
  {
    FirstChar(v);
    FirstChar(w);
    forall x, y | Ends(x) && Ends(y) && Canonical(v) + x == Canonical(w) + y
      ensures Canonical(v) == Canonical(w)
    {
      ValuesSeparable(v, w, x, y);
    }
  }

  function SortedEntries(v: Json): (r: seq<Entry>)
    requires v.Obj?
    ensures Canonical(v) == "{" + JoinComma(Members(r)) + "}"
  {
    Sort(CanonicalEntries(v.entries))
  }

  lemma SortedComesFrom(v: Json, e: Entry) returns (i: nat)
    requires v.Obj? && e in SortedEntries(v)
    ensures i < |v.entries| && e == (v.entries[i].key, Canonical(v.entries[i].value))
  {
    assert e in multiset(CanonicalEntries(v.entries));
    i :| 0 <= i < |v.entries| && CanonicalEntries(v.entries)[i] == e;
  }

  lemma MemberPrefix(e: Entry, x: string, f: Entry, y: string)
    requires Member(e) + x == Member(f) + y
    ensures e.0 == f.0 && e.1 + x == f.1 + y
  {
    hide Escape;
    var restE, restF := ":" + (e.1 + x), ":" + (f.1 + y);
    assert (Member(e) + x)[1..] == Escape(e.0) + "\"" + restE;
    assert (Member(f) + y)[1..] == Escape(f.0) + "\"" + restF;
    EscapeSeparable(e.0, f.0, restE, restF);
    assert restE[1..] == e.1 + x && restF[1..] == f.1 + y;
  }

  lemma MemberSeparable(e: Entry, f: Entry)
    requires Separable(e.1, f.1)
    ensures Item(Member(e)) && Separable(Member(e), Member(f))
    ensures Member(e) == Member(f) ==> e == f
  {
    assert Member(e)[0] == '"';
    hide Escape, Member;
    forall x, y | Ends(x) && Ends(y) && Member(e) + x == Member(f) + y
      ensures e == f
    {
      MemberPrefix(e, x, f, y);
    }
    if Member(e) == Member(f) {
      MemberPrefix(e, "", f, "");
      assert e.1 + "" == e.1 && f.1 + "" == f.1;
    }
  }

  lemma {:induction false} EntriesSeparable(v: Json, w: Json, e: Entry, f: Entry)
    requires v.Obj? && w.Obj? && Valid(v) && Valid(w) && e in SortedEntries(v) && f in SortedEntries(w)
    ensures Item(Member(e)) && Item(Member(f)) && Separable(Member(e), Member(f))
    ensures Member(e) == Member(f) ==> e == f
    decreases v, 1
  {
    var i := SortedComesFrom(v, e);
    var j := SortedComesFrom(w, f);
    ItemSeparable(v, v.entries[i].value, w.entries[j].value);
    MemberSeparable(e, f);
  }

  lemma {:induction false} ObjectsSeparable(v: Json, w: Json, x: string, y: string)
    requires v.Obj? && w.Obj? && Valid(v) && Valid(w) && Canonical(v) + x == Canonical(w) + y
    ensures SortedEntries(v) == SortedEntries(w)
    decreases v, 2
  {
    hide Member, JoinComma, SortedEntries, Canonical;
    var a, b := SortedEntries(v), SortedEntries(w);
    var xs, ys := Members(a), Members(b);
    forall p, q | p in xs && q in ys
      ensures Separable(p, q)
    {
      var i :| 0 <= i < |xs| && xs[i] == p;
      var j :| 0 <= j < |ys| && ys[j] == q;
      EntriesSeparable(v, w, a[i], b[j]);
    }
    MembersAreItems(v);
    MembersAreItems(w);
    InsideBraces(v, x);
    InsideBraces(w, y);
    ListSeparable(xs, ys, '}', x, y);
    forall k | 0 <= k < |a|
      ensures a[k] == b[k]
    {
      assert xs[k] == ys[k];
      EntriesSeparable(v, w, a[k], b[k]);
    }
  }

  lemma InsideBraces(v: Json, x: string)
    requires v.Obj?
    ensures Canonical(v) + x != ""
    ensures (Canonical(v) + x)[1..] == JoinComma(Members(SortedEntries(v))) + ['}'] + x
  {
    hide Canonical, JoinComma, Members, Sort, CanonicalEntries;
    Braces(JoinComma(Members(SortedEntries(v))), x);
  }

  lemma Braces(s: string, x: string)
    ensures "{" + s + "}" + x != "" && ("{" + s + "}" + x)[1..] == s + ['}'] + x
  {
  }

  lemma MembersAreItems(v: Json)
    requires v.Obj?
    ensures forall p <- Members(SortedEntries(v)) :: Item(p)
  {
  }

  /** Values that print the same are the same up to key order. */
  lemma {:induction false} Injective(v: Json, w: Json)
    requires Valid(v) && Valid(w) && Canonical(v) == Canonical(w)
    ensures Same(v, w)
    decreases v
  {
    hide Sort, JoinComma, CanonicalItems, CanonicalEntries, Escape;
    FirstChar(v);
    FirstChar(w);
    assert Canonical(v) + "" == Canonical(w) + "";
    match (v, w)
    case (Str(a), Str(b)) => StringsSeparable(a, b, "", "");
    case (Arr(xs), Arr(ys)) =>
      ArraysMatch(v, w);
      forall i | 0 <= i < |xs| { Injective(xs[i], ys[i]); }
    case (Obj(es), Obj(fs)) =>
      ObjectsSeparable(v, w, "", "");
      forall i | 0 <= i < |es|
        ensures exists j | 0 <= j < |fs| :: es[i].key == fs[j].key && Same(es[i].value, fs[j].value)
      {
        var j := FieldMatch(v, w, i);
        Injective(es[i].value, fs[j].value);
      }
      assert |es| == |SortedEntries(v)| && |fs| == |SortedEntries(w)|;
    case _ =>
  }

  lemma FieldMatch(v: Json, w: Json, i: nat) returns (j: nat)
    requires v.Obj? && w.Obj? && SortedEntries(v) == SortedEntries(w) && i < |v.entries|
    ensures j < |w.entries| && v.entries[i].key == w.entries[j].key
    ensures Canonical(v.entries[i].value) == Canonical(w.entries[j].value)
  {
    var e := CanonicalEntries(v.entries)[i];
    assert e in multiset(CanonicalEntries(v.entries));
    assert e in multiset(SortedEntries(v));
    j := SortedComesFrom(w, e);
  }

  lemma ArraysMatch(v: Json, w: Json)
    requires v.Arr? && w.Arr? && Valid(v) && Valid(w) && Canonical(v) == Canonical(w)
    ensures CanonicalItems(v.items) == CanonicalItems(w.items)
  {
    assert Canonical(v) + "" == Canonical(w) + "";
    ArraysSeparable(v, w, "", "");
  }

  /** canonicalJson identifies a JSON value exactly up to key order. */
  lemma CanonicalIffSame(v: Json, w: Json)
    requires Valid(v) && Valid(w)
    ensures Canonical(v) == Canonical(w) <==> Same(v, w)
  {
    if Same(v, w) { KeyOrderIgnored(v, w); }
    if Canonical(v) == Canonical(w) { Injective(v, w); }
  }
}
