/** The mainnet attestor's memo (apps/mainnet-attestor/src/memo.ts): builder, grammar, decoder. */
module Memo {
  import opened Bytes
  import opened Text
  import Base58

  const HEADER := "proofline:v1"

  const KEYS := ["cluster", "fixture", "seq", "result", "root", "ix", "bundle", "proofTs", "txlineIdl", "supersedes"]

  const TXLINE_IDL_COMMIT := "f7e3bcd5db4c6744445f75dfab7eccc879c6d2de"

  const MAX_MEMO_BYTES := 566

  datatype MemoError = BadSchema | TooLong

  datatype Attestation = Attestation(
    fixtureId: string, seq_: int, result: string, rootPda: string, ixHash: string, bundleHash: string,
    proofTsMs: int, supersedes: Option<string>)

  predicate IsLowerHex(s: string) { forall c <- s :: IsDigit(c) || 'a' <= c <= 'f' }

  /** 0x[0-9a-f]{64} */
  predicate IsHash(s: string) { |s| == 66 && s[..2] == "0x" && IsLowerHex(s[2..]) }

  /** [1-9A-HJ-NP-Za-km-z]{lo,hi} */
  predicate IsKey(s: string, lo: nat, hi: nat) { lo <= |s| <= hi && Base58.IsBase58(s) }

  /** The pattern of field number i. */
  predicate FieldOk(i: nat, v: string) {
    if i == 0 then v == "mainnet-beta"
    else if i == 1 || i == 2 || i == 7 then IsNumeral(v)
    else if i == 3 then v in ["H", "D", "A"]
    else if i == 4 then IsKey(v, 32, 44)
    else if i == 5 || i == 6 then IsHash(v)
    else if i == 8 then |v| == 40 && IsLowerHex(v)
    else IsKey(v, 64, 88)
  }

  /** What the part starts with, and its value after that. */
  predicate HasTag(part: string, key: string) { |key| < |part| && part[..|key|] == key && part[|key|] == '=' }

  function AfterTag(part: string, key: string): string
    requires HasTag(part, key)
  {
    part[|key| + 1..]
  }

  /** MEMO_RE, decided part by part: no field pattern admits the separator. */
  predicate Matches(keys: seq<string>, memo: string)
    requires |keys| == 10
  {
    var p := Split(memo, '|');
    && (|p| == 10 || |p| == 11) && p[0] == HEADER
    && forall j | 1 <= j < |p| :: HasTag(p[j], keys[j - 1]) && FieldOk(j - 1, AfterTag(p[j], keys[j - 1]))
  }

  function Part(key: string, value: string): string { key + "=" + value }

  function Parts(keys: seq<string>, values: seq<string>): seq<string>
    requires |values| <= |keys|
  {
    [HEADER] + seq(|values|, i requires 0 <= i < |values| => Part(keys[i], values[i]))
  }

  /** The field texts in order; an absent or empty supersedes is left out. */
  function Values(a: Attestation): (v: seq<string>)
    ensures |v| == 9 || |v| == 10
    ensures v[8] == TXLINE_IDL_COMMIT
  {
    ["mainnet-beta", a.fixtureId, IntText(a.seq_), a.result, a.rootPda, a.ixHash, a.bundleHash,
     IntText(a.proofTsMs), TXLINE_IDL_COMMIT] +
    if a.supersedes.Some? && a.supersedes.value != "" then [a.supersedes.value] else []
  }

  function BuildMemo(a: Attestation): Result<string, MemoError>
  {
    var memo := Join(Parts(KEYS, Values(a)), '|');
    if !Matches(KEYS, memo) then Err(BadSchema)
    else if |Utf8(memo)| > MAX_MEMO_BYTES then Err(TooLong)
    else Ok(memo)
  }

  lemma PartIs(key: string, tag: string, value: string)
    requires tag == key + "="
    ensures Part(key, value) == tag + value
  {
  }

  /** What a built memo says, part by part. */
  lemma MemoText(a: Attestation)
    ensures BuildMemo(a).Ok? ==>
              BuildMemo(a).value ==
              Join(["proofline:v1", "cluster=" + "mainnet-beta", "fixture=" + a.fixtureId, "seq=" + IntText(a.seq_),
                    "result=" + a.result, "root=" + a.rootPda, "ix=" + a.ixHash, "bundle=" + a.bundleHash,
                    "proofTs=" + IntText(a.proofTsMs), "txlineIdl=" + "f7e3bcd5db4c6744445f75dfab7eccc879c6d2de"] +
                   (match a.supersedes case Some(s) => (if s == "" then [] else ["supersedes=" + s]) case None => []),
                   '|')
  {
    hide Join, IntText, Matches, Utf8, Parts;
    PartsAre(Values(a));
  }

  lemma PartsAre(v: seq<string>)
    requires |v| in {9, 10}
    ensures Parts(KEYS, v) ==
            ["proofline:v1", "cluster=" + v[0], "fixture=" + v[1], "seq=" + v[2], "result=" + v[3], "root=" + v[4],
             "ix=" + v[5], "bundle=" + v[6], "proofTs=" + v[7], "txlineIdl=" + v[8]] +
            (if |v| == 10 then ["supersedes=" + v[9]] else [])
  {
    hide Part;
    PartIs("cluster", "cluster=", v[0]);
    PartIs("fixture", "fixture=", v[1]);
    PartIs("seq", "seq=", v[2]);
    PartIs("result", "result=", v[3]);
    PartIs("root", "root=", v[4]);
    PartIs("ix", "ix=", v[5]);
    PartIs("bundle", "bundle=", v[6]);
    PartIs("proofTs", "proofTs=", v[7]);
    PartIs("txlineIdl", "txlineIdl=", v[8]);
    if |v| == 10 { PartIs("supersedes", "supersedes=", v[9]); }
  }

  // -------------------------------------------------------------------------
  // Decoding
  // -------------------------------------------------------------------------

  /** indexOf("="), or the length. */
  function EqualsAt(part: string): (n: nat)
    ensures n <= |part| && '=' !in part[..n] && (n < |part| ==> part[n] == '=')
  {
    if part == "" || part[0] == '=' then 0 else 1 + EqualsAt(part[1..])
  }

  function Entries(parts: seq<string>): map<string, string>
    requires forall p <- parts :: '=' in p
  {
    if parts == [] then map[]
    else
      var last := parts[|parts| - 1];
      WithEquals(last);
      Entries(parts[..|parts| - 1])[last[..EqualsAt(last)] := last[EqualsAt(last) + 1..]]
  }

  lemma WithEquals(part: string)
    requires '=' in part
    ensures EqualsAt(part) < |part|
  {
    assert part[..|part|] == part;
  }

  lemma TaggedHasEquals(keys: seq<string>, memo: string)
    requires |keys| == 10 && Matches(keys, memo)
    ensures forall p <- Split(memo, '|')[1..] :: '=' in p
  {
    var parts := Split(memo, '|');
    forall p | p in parts[1..]
      ensures '=' in p
    {
      var i :| 0 <= i < |parts[1..]| && parts[1..][i] == p;
      assert HasTag(parts[i + 1], keys[i]);
    }
  }

  method DecodeMemo(memo: string) returns (r: Result<map<string, string>, MemoError>)
    ensures r.Ok? <==> Matches(KEYS, memo)
    ensures r.Ok? ==> (forall p <- Split(memo, '|')[1..] :: '=' in p) && r.value == Entries(Split(memo, '|')[1..])
  {
    hide Matches, Split;
    if !Matches(KEYS, memo) { return Err(BadSchema); }
    TaggedHasEquals(KEYS, memo);
    var parts := Split(memo, '|')[1..];
    var out: map<string, string> := map[];
    for i := 0 to |parts|
      invariant out == Entries(parts[..i])
    {
      var part := parts[i];
      assert part in parts && parts[..i + 1][..i] == parts[..i];
      WithEquals(part);
      var eq := EqualsAt(part);
      out := out[part[..eq] := part[eq + 1..]];
    }
    assert parts[..|parts|] == parts;
    r := Ok(out);
  }

  // -------------------------------------------------------------------------
  // What the grammar accepts
  // -------------------------------------------------------------------------

  lemma {:induction false} SplitAllCount(parts: seq<string>, sep: char)
    ensures |SplitAll(parts, sep)| >= |parts|
    ensures |SplitAll(parts, sep)| == |parts| ==> SplitAll(parts, sep) == parts && forall p <- parts :: sep !in p
  {
    if parts != [] {
      SplitAllCount(parts[1..], sep);
      SplitWhole(parts[0], sep);
      assert parts == [parts[0]] + parts[1..];
    }
  }

  lemma {:induction false} SplitAllLast(parts: seq<string>, sep: char)
    requires parts != [] && sep !in parts[|parts| - 1]
    ensures SplitAll(parts, sep) != [] && SplitAll(parts, sep)[|SplitAll(parts, sep)| - 1] == parts[|parts| - 1]
  {
    SplitWhole(parts[0], sep);
    if |parts| > 1 {
      SplitAllLast(parts[1..], sep);
    } else {
      assert SplitAll(parts[1..], sep) == [];
    }
  }

  lemma {:induction false} SplitAllClean(parts: seq<string>, sep: char)
    requires forall p <- parts :: sep !in p
    ensures SplitAll(parts, sep) == parts
  {
    if parts != [] {
      assert parts[0] in parts && forall p <- parts[1..] :: p in parts;
      SplitAllClean(parts[1..], sep);
      SplitWhole(parts[0], sep);
    }
  }

  lemma FieldIsClean(i: nat, v: string)
    requires FieldOk(i, v)
    ensures '|' !in v
  {
    assert Base58.Digit('|') < 0;
    assert IsHash(v) ==> v == "0x" + v[2..];
  }

  lemma PartTag(key: string, v: string)
    ensures HasTag(Part(key, v), key) && AfterTag(Part(key, v), key) == v
  {
  }

  /** What the grammar needs of its keys and of the fixed parts. */
  ghost predicate GoodKeys(keys: seq<string>) {
    && |keys| == 10
    && (forall i | 0 <= i < 10 :: '|' !in keys[i] && '=' !in keys[i])
    && (forall i, j | 0 <= i < j < 10 :: keys[i] != keys[j])
    && (forall v :: !HasTag(Part(keys[8], v), keys[9]))
    && '|' !in HEADER && '|' !in TXLINE_IDL_COMMIT
  }

  lemma KeyFacts(keys: seq<string>)
    requires keys == KEYS
    ensures GoodKeys(keys)
  {
    KeysAreClean(keys);
    KeysDiffer(keys);
    assert keys[8][0] == 't' && keys[9][0] == 's';
  }

  lemma KeysAreClean(keys: seq<string>)
    requires keys == KEYS
    ensures forall i | 0 <= i < 10 :: '|' !in keys[i] && '=' !in keys[i]
  {
    forall i | 0 <= i < 10
      ensures '|' !in keys[i] && '=' !in keys[i]
    {
      assert keys[i] in KEYS;
    }
  }

  lemma KeysDiffer(keys: seq<string>)
    requires keys == KEYS
    ensures forall i, j | 0 <= i < j < 10 :: keys[i] != keys[j]
  {
  }

  /** The parts of a built memo are the ones it was built from, or the memo fails the grammar: no field,
      whatever it contains, can shift the others. */
  lemma SplitOfBuilt(keys: seq<string>, values: seq<string>)
    requires GoodKeys(keys) && |values| in {9, 10} && values[8] == TXLINE_IDL_COMMIT
    requires Matches(keys, Join(Parts(keys, values), '|'))
    ensures Split(Join(Parts(keys, values), '|'), '|') == Parts(keys, values)
  {
    hide FieldOk, Split, SplitAll, Join, HasTag;
    var parts := Parts(keys, values);
    SplitOfJoin(parts, '|');
    SplitAllCount(parts, '|');
    var p := SplitAll(parts, '|');
    if |values| == 9 { CommitIsLast(keys, values); }
  }

  lemma CommitIsLast(keys: seq<string>, values: seq<string>)
    requires GoodKeys(keys) && |values| == 9 && values[8] == TXLINE_IDL_COMMIT
    ensures var p := SplitAll(Parts(keys, values), '|'); p != [] && !HasTag(p[|p| - 1], keys[9])
  {
    hide HasTag, SplitAll;
    CleanPart(keys[8], values[8]);
    SplitAllLast(Parts(keys, values), '|');
  }

  lemma CleanPart(key: string, v: string)
    requires '|' !in key && '|' !in v
    ensures '|' !in Part(key, v)
  {
  }

  /** The grammar accepts what was built from these field values exactly when every value fits its own
      pattern - for arbitrary strings, separators included. */
  lemma MatchesIff(keys: seq<string>, values: seq<string>)
    requires GoodKeys(keys) && |values| in {9, 10} && values[8] == TXLINE_IDL_COMMIT
    ensures Matches(keys, Join(Parts(keys, values), '|')) <==> forall i | 0 <= i < |values| :: FieldOk(i, values[i])
  {
    hide FieldOk, AfterTag, HasTag, Split, SplitAll, Join;
    var parts := Parts(keys, values);
    forall j | 1 <= j < |parts|
      ensures HasTag(parts[j], keys[j - 1]) && AfterTag(parts[j], keys[j - 1]) == values[j - 1]
    {
      PartTag(keys[j - 1], values[j - 1]);
    }
    if Matches(keys, Join(parts, '|')) {
      SplitOfBuilt(keys, values);
      forall i | 0 <= i < |values| ensures FieldOk(i, values[i]) {
        assert AfterTag(parts[i + 1], keys[i]) == values[i];
      }
    }
    if forall i | 0 <= i < |values| :: FieldOk(i, values[i]) {
      CleanParts(keys, values);
      SplitOfJoin(parts, '|');
      SplitAllClean(parts, '|');
    }
  }

  /** The language of the anchored expression: the literals with one text per field, each of its own
      pattern, in between. */
  ghost predicate InLanguage(keys: seq<string>, memo: string)
    requires |keys| == 10
  {
    exists values: seq<string> :: |values| in {9, 10} && SpelledBy(keys, values, memo)
  }

  predicate SpelledBy(keys: seq<string>, values: seq<string>, memo: string)
    requires |values| <= |keys|
  {
    memo == Join(Parts(keys, values), '|') && forall i | 0 <= i < |values| :: FieldOk(i, values[i])
  }

  lemma PartOfTag(part: string, key: string)
    requires HasTag(part, key)
    ensures Part(key, AfterTag(part, key)) == part
  {
  }

  lemma CleanParts(keys: seq<string>, values: seq<string>)
    requires |values| <= |keys| && '|' !in HEADER && (forall i | 0 <= i < |keys| :: '|' !in keys[i])
    requires forall i | 0 <= i < |values| :: FieldOk(i, values[i])
    ensures forall p <- Parts(keys, values) :: '|' !in p
  {
    hide FieldOk, Part;
    var parts := Parts(keys, values);
    forall p <- parts
      ensures '|' !in p
    {
      var i :| 0 <= i < |parts| && parts[i] == p;
      if i > 0 {
        FieldIsClean(i - 1, values[i - 1]);
        CleanPart(keys[i - 1], values[i - 1]);
      }
    }
  }

  /** Splitting at the separator and looking at the parts accepts exactly this language. */
  lemma MatchesLanguage(keys: seq<string>, memo: string)
    requires GoodKeys(keys)
    ensures Matches(keys, memo) <==> InLanguage(keys, memo)
  {
    hide FieldOk, HasTag, Split, Join, Part, GoodKeys;
    CleanKeys(keys);
    if Matches(keys, memo) {
      var p := Split(memo, '|');
      var values := seq(|p| - 1, i requires 0 <= i < |p| - 1 => AfterTag(p[i + 1], keys[i]));
      forall i | 0 <= i < |values|
        ensures Part(keys[i], values[i]) == p[i + 1] && FieldOk(i, values[i])
      {
        PartOfTag(p[i + 1], keys[i]);
      }
      JoinOfSplit(memo, '|');
      assert Parts(keys, values) == p;
      assert SpelledBy(keys, values, memo);
    }
    if InLanguage(keys, memo) {
      var values: seq<string> :| |values| in {9, 10} && SpelledBy(keys, values, memo);
      var parts := Parts(keys, values);
      CleanParts(keys, values);
      SplitOfJoin(parts, '|');
      SplitAllClean(parts, '|');
      forall j | 1 <= j < |parts|
        ensures HasTag(parts[j], keys[j - 1]) && FieldOk(j - 1, AfterTag(parts[j], keys[j - 1]))
      {
        PartTag(keys[j - 1], values[j - 1]);
      }
    }
  }

  lemma CleanKeys(keys: seq<string>)
    requires GoodKeys(keys)
    ensures |keys| == 10 && '|' !in HEADER && forall i | 0 <= i < |keys| :: '|' !in keys[i]
  {
    hide HasTag;
  }

  lemma {:induction false} EqualsAtTag(key: string, v: string)
    requires '=' !in key
    ensures EqualsAt(Part(key, v)) == |key| && '=' in Part(key, v)
  {
    var part := Part(key, v);
    assert part[|key|] == '=';
    if key != "" {
      assert part[1..] == Part(key[1..], v);
      EqualsAtTag(key[1..], v);
    }
  }

  lemma {:induction false} EntriesOf(keys: seq<string>, values: seq<string>, parts: seq<string>)
    requires |values| <= |keys| && |parts| == |values|
    requires forall i | 0 <= i < |keys| :: '=' !in keys[i]
    requires forall i, j | 0 <= i < j < |keys| :: keys[i] != keys[j]
    requires forall i | 0 <= i < |parts| :: parts[i] == Part(keys[i], values[i])
    requires forall p <- parts :: '=' in p
    ensures forall k :: k in Entries(parts) <==> exists i | 0 <= i < |values| :: keys[i] == k
    ensures forall i | 0 <= i < |values| :: keys[i] in Entries(parts) && Entries(parts)[keys[i]] == values[i]
    decreases |parts|
  {
    hide EqualsAt, Part, Entries;
    if parts != [] {
      var n := |parts| - 1;
      LastEntry(keys[n], values[n], parts);
      EntriesOf(keys, values[..n], parts[..n]);
    } else {
      NoEntries();
    }
  }

  lemma NoEntries()
    ensures Entries([]) == map[]
  {
  }

  lemma LastEntry(key: string, value: string, parts: seq<string>)
    requires parts != [] && (forall p <- parts :: '=' in p)
    requires '=' !in key && parts[|parts| - 1] == Part(key, value)
    ensures Entries(parts) == Entries(parts[..|parts| - 1])[key := value]
  {
    var last := parts[|parts| - 1];
    EqualsAtTag(key, value);
    assert last[..|key|] == key && last[|key| + 1..] == value;
  }

  /** What a reader of the memo is told. */
  predicate Tells(keys: seq<string>, values: seq<string>, entries: map<string, string>)
    requires |values| <= |keys|
  {
    && (forall k <- entries :: exists i | 0 <= i < |values| :: keys[i] == k)
    && (forall i | 0 <= i < |values| :: keys[i] in entries && entries[keys[i]] == values[i])
  }

  /** Decoding a built memo gives back every field, exactly, under its own key, and nothing else. */
  lemma MemoRoundTrip(a: Attestation)
    requires BuildMemo(a).Ok?
    ensures Matches(KEYS, BuildMemo(a).value)
    ensures forall p <- Split(BuildMemo(a).value, '|')[1..] :: '=' in p
    ensures Tells(KEYS, Values(a), Entries(Split(BuildMemo(a).value, '|')[1..]))
  {
    KeyFacts(KEYS);
    RoundTripAt(KEYS, Values(a), BuildMemo(a).value);
  }

  lemma RoundTripAt(keys: seq<string>, values: seq<string>, memo: string)
    requires GoodKeys(keys) && |values| in {9, 10} && values[8] == TXLINE_IDL_COMMIT
    requires memo == Join(Parts(keys, values), '|') && Matches(keys, memo)
    ensures forall p <- Split(memo, '|')[1..] :: '=' in p
    ensures Tells(keys, values, Entries(Split(memo, '|')[1..]))
  {
    hide Matches, Split, Join, Entries, Part, EqualsAt, GoodKeys, Parts;
    PlainKeys(keys);
    SplitOfBuilt(keys, values);
    TaggedHasEquals(keys, memo);
    PartsTail(keys, values);
    EntriesOf(keys, values, Parts(keys, values)[1..]);
  }

  lemma PlainKeys(keys: seq<string>)
    requires GoodKeys(keys)
    ensures |keys| == 10 && forall i | 0 <= i < |keys| :: '=' !in keys[i]
    ensures forall i, j | 0 <= i < j < |keys| :: keys[i] != keys[j]
  {
    hide HasTag;
  }

  lemma PartsTail(keys: seq<string>, values: seq<string>)
    requires |values| <= |keys|
    ensures |Parts(keys, values)| == |values| + 1
    ensures forall i | 0 <= i < |values| :: Parts(keys, values)[1..][i] == Part(keys[i], values[i])
  {
    hide Part;
  }

  /** A memo is built exactly when every field is well formed by itself and the whole fits one
      transaction. */
  lemma BuildsIff(a: Attestation)
    ensures BuildMemo(a).Ok? <==>
            && IsNumeral(a.fixtureId) && a.seq_ >= 0 && a.result in ["H", "D", "A"] && IsKey(a.rootPda, 32, 44)
            && IsHash(a.ixHash) && IsHash(a.bundleHash) && a.proofTsMs >= 0
            && (a.supersedes.Some? && a.supersedes.value != "" ==> IsKey(a.supersedes.value, 64, 88))
            && |Utf8(Join(Parts(KEYS, Values(a)), '|'))| <= MAX_MEMO_BYTES
  {
    BuildsAt(KEYS, Values(a), a);
  }

  lemma BuildsAt(keys: seq<string>, values: seq<string>, a: Attestation)
    requires keys == KEYS && values == Values(a)
    ensures Matches(keys, Join(Parts(keys, values), '|')) <==>
            && IsNumeral(a.fixtureId) && a.seq_ >= 0 && a.result in ["H", "D", "A"] && IsKey(a.rootPda, 32, 44)
            && IsHash(a.ixHash) && IsHash(a.bundleHash) && a.proofTsMs >= 0
            && (a.supersedes.Some? && a.supersedes.value != "" ==> IsKey(a.supersedes.value, 64, 88))
  {
    hide IsNumeral, IsKey, IsHash, Parts, Join, Matches, FieldOk, Values;
    KeyFacts(keys);
    MatchesIff(keys, values);
    AllFieldsIff(values);
    FieldsOf(values, a);
  }

  lemma AllFieldsIff(values: seq<string>)
    requires |values| in {9, 10}
    ensures (forall i | 0 <= i < |values| :: FieldOk(i, values[i])) <==>
            && FieldOk(0, values[0]) && FieldOk(1, values[1]) && FieldOk(2, values[2]) && FieldOk(3, values[3])
            && FieldOk(4, values[4]) && FieldOk(5, values[5]) && FieldOk(6, values[6]) && FieldOk(7, values[7])
            && FieldOk(8, values[8]) && (|values| == 10 ==> FieldOk(9, values[9]))
  {
    hide FieldOk;
  }

  lemma ValuesAre(values: seq<string>, a: Attestation)
    requires values == Values(a)
    ensures values[0] == "mainnet-beta" && values[1] == a.fixtureId
    ensures values[2] == IntText(a.seq_) && values[3] == a.result
    ensures values[4] == a.rootPda && values[5] == a.ixHash
    ensures values[6] == a.bundleHash && values[7] == IntText(a.proofTsMs)
    ensures |values| == 10 <==> a.supersedes.Some? && a.supersedes.value != ""
    ensures |values| == 10 ==> values[9] == a.supersedes.value
  {
  }

  lemma FieldsOf(values: seq<string>, a: Attestation)
    requires values == Values(a)
    ensures FieldOk(0, values[0]) && FieldOk(8, values[8])
    ensures FieldOk(1, values[1]) <==> IsNumeral(a.fixtureId)
    ensures FieldOk(2, values[2]) <==> a.seq_ >= 0
    ensures FieldOk(3, values[3]) <==> a.result in ["H", "D", "A"]
    ensures FieldOk(4, values[4]) <==> IsKey(a.rootPda, 32, 44)
    ensures FieldOk(5, values[5]) <==> IsHash(a.ixHash)
    ensures FieldOk(6, values[6]) <==> IsHash(a.bundleHash)
    ensures FieldOk(7, values[7]) <==> a.proofTsMs >= 0
    ensures |values| == 10 <==> a.supersedes.Some? && a.supersedes.value != ""
    ensures |values| == 10 ==> (FieldOk(9, values[9]) <==> IsKey(a.supersedes.value, 64, 88))
  {
    hide IsNumeral, IsKey, IsHash, IntText, Values, IsLowerHex;
    ValuesAre(values, a);
    NumeralIntText(a.seq_);
    NumeralIntText(a.proofTsMs);
    CommitIsHex();
  }

  lemma CommitIsHex()
    ensures |TXLINE_IDL_COMMIT| == 40 && IsLowerHex(TXLINE_IDL_COMMIT)
  {
  }
}
