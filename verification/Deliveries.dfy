/** What the two lanes deliver, field by field and byte by byte, in terms of the fixture, the handoff and
    the primitives alone (workflows/cre-level3-attestor/main.ts, workflows/cre-vaa-executor/main.ts). */
module Deliveries {
  import opened Bytes
  import opened Text
  import opened CanonicalJson
  import opened Digests
  import opened JsonText
  import opened Lanes
  import opened SolanaTx
  import Payload
  import Quorum
  import Vaas

  // -------------------------------------------------------------------------
  // The final record
  // -------------------------------------------------------------------------

  /** The record both lanes take is the first finalised one: its marker, status and period. */
  lemma {:induction false} FinalRecordIs(records: seq<ScoreRecord>) returns (k: nat)
    ensures FindFinal(records).Some? ==>
              && k < |records| && FindFinal(records).value == records[k]
              && records[k].action == "game_finalised" && records[k].statusId == 100 && records[k].period == 100
    ensures FindFinal(records) == None ==> k == |records|
    ensures forall j | 0 <= j < k && j < |records| ::
              !(records[j].action == "game_finalised" && records[j].statusId == 100 && records[j].period == 100)
  {
    k := 0;
    if records != [] && !IsFinal(records[0]) {
      var later := FinalRecordIs(records[1..]);
      k := later + 1;
      forall j | 0 <= j < k && j < |records|
        ensures !(records[j].action == "game_finalised" && records[j].statusId == 100 && records[j].period == 100)
      {
        if j > 0 { assert records[j] == records[1..][j - 1]; }
      }
    }
  }

  /** The day whose root account is looked up: whole days of 86400 seconds since the epoch. */
  lemma DayOf(timestampMs: int)
    ensures timestampMs >= 0 ==> 86_400_000 * EpochDay(timestampMs) <= timestampMs
    ensures timestampMs >= 0 ==> timestampMs < 86_400_000 * (EpochDay(timestampMs) + 1)
    ensures timestampMs < 0 ==> EpochDay(timestampMs) == -EpochDay(-timestampMs)
  {
  }

  /** The recorded entry of that day; one that is absent or empty is an error. */
  lemma RootOfDay(f: Fixture, timestampMs: int, root: string)
    ensures DailyRootFor(f, timestampMs) == Ok(root) <==>
            && IntText(EpochDay(timestampMs)) in f.dailyRootPdaByEpochDay
            && f.dailyRootPdaByEpochDay[IntText(EpochDay(timestampMs))] == root && |root| > 0
  {
    hide EpochDay, IntText;
  }

  /** An integer prints in decimal: a minus sign if it is negative, then its digits, without a leading zero. */
  lemma {:induction false} DecimalText(n: nat)
    ensures IsNumeral(IntText(n)) && NumeralValue(IntText(n)) == n && (IntText(n)[0] == '0' ==> n == 0)
    ensures n > 0 ==> IntText(-(n as int)) == "-" + IntText(n)
  {
    ValueOfNatText(n);
    NoLeadingZero(n);
  }

  lemma {:induction false} NoLeadingZero(n: nat)
    ensures NatText(n)[0] == '0' ==> n == 0
  {
    if n >= 10 { NoLeadingZero(n / 10); }
  }

  // -------------------------------------------------------------------------
  // The evidence bundle
  // -------------------------------------------------------------------------

  function RecordFields(f: Fixture, r: ScoreRecord): seq<Field>
  {
    [Field("action", Str(r.action)), Field("fixtureId", Str(f.fixtureId)),
     Field("participant1", Str(f.participant1)), Field("participant1Score", IntJson(r.participant1Score)),
     Field("participant2", Str(f.participant2)), Field("participant2Score", IntJson(r.participant2Score)),
     Field("period", IntJson(r.period)), Field("sequence", Str(r.sequence)),
     Field("statusId", IntJson(r.statusId))]
  }

  /** The two differ at k first, or the first one ends there. */
  lemma {:induction false} LessFrom(a: string, b: string, k: nat)
    requires k <= |a| && k < |b| && a[..k] == b[..k] && (k < |a| ==> Rank(a[k]) < Rank(b[k]))
    ensures Less(a, b)
    decreases k
  {
    if k > 0 {
      assert a[0] == a[..k][0] == b[..k][0] == b[0];
      assert a[1..][..k - 1] == a[..k][1..] == b[..k][1..] == b[1..][..k - 1];
      LessFrom(a[1..], b[1..], k - 1);
    }
  }

  lemma RecordKeysAscend()
    ensures Less("action", "fixtureId") && Less("fixtureId", "participant1")
    ensures Less("participant2Score", "period") && Less("period", "sequence") && Less("sequence", "statusId")
  {
    LessFrom("action", "fixtureId", 0);
    LessFrom("fixtureId", "participant1", 0);
    LessFrom("participant2Score", "period", 1);
    LessFrom("period", "sequence", 0);
    LessFrom("sequence", "statusId", 1);
  }

  lemma FirstScoreAscends()
    ensures Less("participant1", "participant1Score") && Less("participant1Score", "participant2")
  {
    hide Less;
    Extends("participant1", "Score", "participant1Score");
    assert "participant1Score"[..11] == "participant2"[..11];
    LessFrom("participant1Score", "participant2", 11);
  }

  lemma SecondScoreAscends()
    ensures Less("participant2", "participant2Score")
  {
    Extends("participant2", "Score", "participant2Score");
  }

  lemma Extends(a: string, x: string, b: string)
    requires b == a + x && x != ""
    ensures Less(a, b)
  {
    LessFrom(a, b, |a|);
  }

  lemma BundleKeysAscend()
    ensures Less("finalRecord", "proof") && Less("proof", "rootAccount") && Less("rootAccount", "strategy")
  {
    LessFrom("finalRecord", "proof", 0);
    LessFrom("proof", "rootAccount", 0);
    LessFrom("rootAccount", "strategy", 0);
  }

  /** Neighbours that ascend are sorted. */
  lemma {:induction false} ChainSorted(es: seq<Entry>)
    requires forall i | 0 <= i < |es| - 1 :: Less(es[i].0, es[i + 1].0)
    ensures Sorted(es)
    decreases |es|
  {
    hide Less;
    if |es| > 1 {
      var rest := es[1..];
      forall i | 0 <= i < |rest| - 1
        ensures Less(rest[i].0, rest[i + 1].0)
      {
        assert rest[i] == es[i + 1] && rest[i + 1] == es[(i + 1) + 1];
      }
      ChainSorted(rest);
      forall j | 0 < j < |es|
        ensures Less(es[0].0, es[j].0)
      {
        if j > 1 {
          assert rest[0] == es[1] && rest[j - 1] == es[j];
          LessTransitive(es[0].0, es[1].0, es[j].0);
        }
      }
      forall i, j | 0 < i < j < |es| ensures Less(es[i].0, es[j].0) {
        assert rest[i - 1] == es[i] && rest[j - 1] == es[j];
      }
    }
  }

  /** The first list is the second one rearranged. */
  predicate Rearranged(es: seq<Field>, fs: seq<Field>, p: seq<nat>) {
    && |es| == |fs| == |p| && (forall i | 0 <= i < |p| :: p[i] < |p| && es[i] == fs[p[i]])
    && forall i, j | 0 <= i < j < |p| :: p[i] != p[j]
  }

  /** An object whose sorted fields are the given ones prints its members in that order. */
  lemma {:induction false} SortsTo(es: seq<Field>, fs: seq<Field>, p: seq<nat>)
    requires Rearranged(es, fs, p) && Sorted(CanonicalEntries(fs))
    ensures Canonical(Obj(es)) == "{" + Listed(MemberTexts(fs)) + "}"
  {
    hide Less, Sorted, Canonical, JoinComma, Listed;
    var a, b := CanonicalEntries(es), CanonicalEntries(fs);
    SortedKeysDistinct(b);
    RearrangedEntries(es, fs, p);
    SameEntriesSortAlike(a, b);
    SortSorts(b);
    SortedUnique(Sort(b), b);
    MembersAlike(fs);
    JoinedIsListed(MemberTexts(fs));
    PrintsSorted(es);
  }

  lemma SortedKeysDistinct(es: seq<Entry>)
    requires Sorted(es)
    ensures DistinctKeys(es)
  {
    hide Less;
    forall i, j | 0 <= i < j < |es|
      ensures es[i].0 != es[j].0
    {
      LessIrreflexive(es[i].0);
    }
  }

  lemma {:induction false} RearrangedEntries(es: seq<Field>, fs: seq<Field>, p: seq<nat>)
    requires Rearranged(es, fs, p) && DistinctKeys(CanonicalEntries(fs))
    ensures DistinctKeys(CanonicalEntries(es)) && forall e <- CanonicalEntries(es) :: e in CanonicalEntries(fs)
  {
    hide Canonical;
    var a, b := CanonicalEntries(es), CanonicalEntries(fs);
    forall i | 0 <= i < |a| ensures a[i] == b[p[i]] { }
    forall i, j | 0 <= i < j < |a|
      ensures a[i].0 != a[j].0
    {
      assert p[i] < p[j] || p[j] < p[i];
      assert a[i] == b[p[i]] && a[j] == b[p[j]];
    }
  }

  lemma {:induction false} PrintsSorted(es: seq<Field>)
    ensures Canonical(Obj(es)) == "{" + JoinComma(Members(Sort(CanonicalEntries(es)))) + "}"
  {
    hide Sort, JoinComma, Members;
  }

  function Pair(key: string, text: string): string { Quote(key) + ":" + text }

  /** The final record's members, keys ascending. */
  function RecordText(f: Fixture, r: ScoreRecord): string
  {
    "{" + Listed([
      Pair("action", Quote(r.action)), Pair("fixtureId", Quote(f.fixtureId)),
      Pair("participant1", Quote(f.participant1)), Pair("participant1Score", IntText(r.participant1Score)),
      Pair("participant2", Quote(f.participant2)), Pair("participant2Score", IntText(r.participant2Score)),
      Pair("period", IntText(r.period)), Pair("sequence", Quote(r.sequence)),
      Pair("statusId", IntText(r.statusId))]) + "}"
  }

  lemma RecordMembers(f: Fixture, r: ScoreRecord)
    ensures "{" + Listed(MemberTexts(RecordFields(f, r))) + "}" == RecordText(f, r)
  {
    hide Quote, Listed, IntText;
    assert MemberTexts(RecordFields(f, r)) == [
      Pair("action", Quote(r.action)), Pair("fixtureId", Quote(f.fixtureId)),
      Pair("participant1", Quote(f.participant1)), Pair("participant1Score", IntText(r.participant1Score)),
      Pair("participant2", Quote(f.participant2)), Pair("participant2Score", IntText(r.participant2Score)),
      Pair("period", IntText(r.period)), Pair("sequence", Quote(r.sequence)),
      Pair("statusId", IntText(r.statusId))];
  }

  lemma {:induction false} RecordSorted(f: Fixture, r: ScoreRecord)
    ensures Sorted(CanonicalEntries(RecordFields(f, r)))
  {
    hide Less, Canonical, Sorted;
    RecordKeysAscend();
    FirstScoreAscends();
    SecondScoreAscends();
    ChainSorted(CanonicalEntries(RecordFields(f, r)));
  }

  /** The record as the workflows write it down, in their own order. */
  function RecordObject(f: Fixture, r: ScoreRecord): seq<Field>
  {
    [Field("action", Str(r.action)), Field("fixtureId", Str(f.fixtureId)), Field("statusId", IntJson(r.statusId)),
     Field("period", IntJson(r.period)), Field("participant1", Str(f.participant1)),
     Field("participant2", Str(f.participant2)), Field("participant1Score", IntJson(r.participant1Score)),
     Field("participant2Score", IntJson(r.participant2Score)), Field("sequence", Str(r.sequence))]
  }

  lemma {:induction false} RecordPrints(f: Fixture, r: ScoreRecord)
    ensures Canonical(Obj(RecordObject(f, r))) == RecordText(f, r)
  {
    hide *;
    var p := RecordIsArranged(f, r);
    RecordSorted(f, r);
    SortsTo(RecordObject(f, r), RecordFields(f, r), p);
    RecordMembers(f, r);
  }

  lemma RecordIsArranged(f: Fixture, r: ScoreRecord) returns (p: seq<nat>)
    ensures Rearranged(RecordObject(f, r), RecordFields(f, r), p)
  {
    p := [0, 1, 8, 6, 2, 4, 3, 5, 7];
  }

  function BundleFields(f: Fixture, r: ScoreRecord): seq<Field>
  {
    [Field("finalRecord", Obj(RecordObject(f, r))), Field("proof", f.proof),
     Field("rootAccount", Str(f.rootAccount)), Field("strategy", Str(f.strategy))]
  }

  lemma {:induction false} BundleSorted(f: Fixture, r: ScoreRecord) returns (p: seq<nat>)
    ensures Sorted(CanonicalEntries(BundleFields(f, r))) && Rearranged(BundleFields(f, r), BundleFields(f, r), p)
  {
    hide Less, Canonical, Sorted, RecordObject;
    BundleKeysAscend();
    ChainSorted(CanonicalEntries(BundleFields(f, r)));
    p := [0, 1, 2, 3];
  }

  lemma BundleMembers(f: Fixture, r: ScoreRecord)
    requires Canonical(Obj(RecordObject(f, r))) == RecordText(f, r)
    ensures MemberTexts(BundleFields(f, r)) == [
              Pair("finalRecord", RecordText(f, r)), Pair("proof", Canonical(f.proof)),
              Pair("rootAccount", Quote(f.rootAccount)), Pair("strategy", Quote(f.strategy))]
  {
    hide Quote, RecordText, RecordObject, Canonical;
    TextPrints(f.rootAccount);
    TextPrints(f.strategy);
  }

  lemma TextPrints(s: string)
    ensures Canonical(Str(s)) == Quote(s)
  {
    hide Quote;
  }

  /** THE HASHED BUNDLE, character for character: what both lanes hash as the evidence and the dispatch
      workflow uploads. */
  lemma {:induction false} BundleText(f: Fixture, r: ScoreRecord)
    ensures Canonical(ProofBundle(f, r)) ==
            "{" + Listed([
              Pair("finalRecord", RecordText(f, r)), Pair("proof", Canonical(f.proof)),
              Pair("rootAccount", Quote(f.rootAccount)), Pair("strategy", Quote(f.strategy))]) + "}"
  {
    hide *;
    RecordPrints(f, r);
    var p := BundleSorted(f, r);
    SortsTo(BundleFields(f, r), BundleFields(f, r), p);
    BundleMembers(f, r);
    BundleIs(f, r);
  }

  lemma {:induction false} BundleIs(f: Fixture, r: ScoreRecord)
    ensures ProofBundle(f, r) == Obj(BundleFields(f, r))
  {
  }

  // -------------------------------------------------------------------------
  // The hashed bytes
  // -------------------------------------------------------------------------

  /** The 144 bytes an attestation id is the hash of. */
  predicate IdentityBytes(c: Crypto, p: bytes, emitter: bytes32, fixtureId: int, sequence: int,
                          instructionHash: bytes32, bundleHash: bytes32) {
    && |p| == 144 && p[..32] == c.keccak(Utf8("proofline.attestation.v1")) && p[32..64] == emitter
    && p[64..72] == Be(fixtureId, 8) && p[72..80] == Be(sequence, 8)
    && p[80..112] == instructionHash && p[112..] == bundleHash
  }

  /** The bytes a validation instruction's hash is the hash of: program, daily root, predicate text. */
  predicate InstructionBytes(p: bytes, program: bytes32, dailyRoot: bytes32, text: string) {
    |p| >= 64 && p[..32] == program && p[32..64] == dailyRoot && p[64..] == Utf8(text)
  }

  function PredicateWords(fixtureId: string, score1: int, score2: int, period: int): string
  {
    "validate_stat_v2" + ":" + ("fixture=" + fixtureId) + ":" + ("p1=" + IntText(score1)) +
    ":" + ("p2=" + IntText(score2)) + ":" + ("period=" + IntText(period))
  }

  lemma FiveJoined(a: string, b: string, c: string, d: string, e: string)
    ensures Join([a, b, c, d, e], ':') == a + ":" + b + ":" + c + ":" + d + ":" + e
  {
    assert [a, b, c, d, e][1..] == [b, c, d, e] && [b, c, d, e][1..] == [c, d, e];
    assert [c, d, e][1..] == [d, e] && [d, e][1..] == [e];
    assert Join([e], ':') == e && Join([d, e], ':') == d + ":" + e;
    assert Join([c, d, e], ':') == c + ":" + (d + ":" + e);
    assert Join([b, c, d, e], ':') == b + ":" + (c + ":" + (d + ":" + e));
  }

  lemma PredicateTextIs(p: Predicate)
    ensures PredicateText(p) == PredicateWords(p.fixtureId, p.participant1Score, p.participant2Score, p.period)
  {
    hide IntText, Join;
    var parts := Parts(p);
    FiveJoined(parts[0], parts[1], parts[2], parts[3], parts[4]);
    assert parts == [parts[0], parts[1], parts[2], parts[3], parts[4]];
  }

  lemma InstructionHashIs(c: Crypto, program: bytes32, dailyRoot: bytes32, q: Predicate) returns (p: bytes)
    ensures ValidationInstructionHash(c, program, dailyRoot, PredicateData(q)) == c.keccak(p)
    ensures InstructionBytes(p, program, dailyRoot,
                             PredicateWords(q.fixtureId, q.participant1Score, q.participant2Score, q.period))
  {
    hide PredicateText, PredicateWords, Utf8;
    PredicateTextIs(q);
    p := program + dailyRoot + PredicateData(q);
  }

  lemma AttestationIdIs(c: Crypto, i: Identity) returns (p: bytes)
    ensures AttestationId(c, i).Some? <==> -0x8000_0000_0000_0000 <= i.fixtureId < 0x8000_0000_0000_0000
                                           && -0x8000_0000_0000_0000 <= i.scoreSequence < 0x8000_0000_0000_0000
    ensures AttestationId(c, i).Some? ==> AttestationId(c, i).value == c.keccak(p)
    ensures IdentityBytes(c, p, i.sourceEmitter, i.fixtureId, i.scoreSequence, i.validationInstructionHash,
                          i.proofBundleHash)
  {
    hide Utf8;
    Widths();
    p := IdentityPreimage(c, i);
  }

  /** The digest the guardians sign, of the bytes as they are sent: everything after the signatures,
      hashed twice. */
  lemma DigestOfBytes(c: Crypto, b: bytes)
    requires Vaas.Decode(b).Ok?
    ensures 6 + 66 * (b[5] as int) <= |b|
    ensures SigningDigest(c, Vaas.Decode(b).value.body) == c.keccak(c.keccak(b[6 + 66 * (b[5] as int)..]))
  {
    hide Vaas.ReadSignatures, Vaas.ReadBody, Vaas.BodyBytes;
    Vaas.BytesOfReadBody(b[6 + 66 * (b[5] as int)..]);
  }

  // -------------------------------------------------------------------------
  // Level 3
  // -------------------------------------------------------------------------

  /** WHAT A LEVEL 3 REPORT SAYS: the fixture's number, the final record's scores and winner, the hash of
      the bundle, and an id hashed from the emitter, the two numbers, the hash of the instruction it
      simulated and the bundle's hash. */
  lemma Level3Says(setup: Setup, f: Fixture, h: Handoff, quorumReached: bool)
    returns (instruction: bytes, preimage: bytes)
    requires Level3(setup, f, h, quorumReached).Ok?
    requires FindFinal(f.records).Some? ==> Writable(f, Final(f))
    ensures FindFinal(f.records).Some? && quorumReached
    ensures var r, report := Final(f), Level3(setup, f, h, quorumReached).value;
            && setup.bigInt(f.fixtureId) == Some(report.fixtureId)
            && report.participant1Score == r.participant1Score && report.participant2Score == r.participant2Score
            && Payload.NamesWinner(report.result, r.participant1Score, r.participant2Score)
            && report.proofBundleHash == setup.c.keccak(Utf8(Canonical(ProofBundle(f, r)))) == h.proofBundleHash
            && report.attestationId == setup.c.keccak(preimage)
    ensures Key(setup.programB58).Ok? && Key(h.rootAccount).Ok? && Key(EmitterText(f, h)).Ok?
    ensures setup.bigInt(Final(f).sequence).Some?
    ensures var r, report := Final(f), Level3(setup, f, h, quorumReached).value;
            && InstructionBytes(instruction, Key(setup.programB58).value, Key(h.rootAccount).value,
                                PredicateWords(f.fixtureId, r.participant1Score, r.participant2Score, r.period))
            && IdentityBytes(setup.c, preimage, Key(EmitterText(f, h)).value, report.fixtureId,
                             setup.bigInt(r.sequence).value, setup.c.keccak(instruction), report.proofBundleHash)
  {
    hide *;
    Level3Parts(setup, f, h, quorumReached);
    var r := Final(f);
    CheckedTxAccepts(setup, f, h, r);
    var decoded := CheckedTx(setup, f, h, r).value;
    var i := Level3IdentitySays(setup, f, h, r, decoded);
    instruction := InstructionHashIs(setup.c, Key(setup.programB58).value, Key(h.rootAccount).value, PredicateOf(f, r));
    preimage := AttestationIdIs(setup.c, i);
    PredicateFields(f, r);
    IdIs(setup.c, i);
  }

  /** The emitter both lanes put into their ids: the handoff's, or else the fixture's. */
  function EmitterText(f: Fixture, h: Handoff): string
  {
    match (h.wormhole, f.wormhole)
    case (Some(w), _) => w.emitterBase58
    case (None, Some(w)) => w.emitterBase58
    case (None, None) => ""
  }

  lemma IdIs(c: Crypto, i: Identity)
    ensures IdOf(c, i).Ok? ==> AttestationId(c, i) == Some(IdOf(c, i).value)
  {
    hide AttestationId;
  }

  lemma PredicateFields(f: Fixture, r: ScoreRecord)
    ensures var q := PredicateOf(f, r);
            && q.fixtureId == f.fixtureId && q.participant1Score == r.participant1Score
            && q.participant2Score == r.participant2Score && q.period == r.period
  {
  }

  lemma Level3Parts(setup: Setup, f: Fixture, h: Handoff, quorumReached: bool)
    requires Level3(setup, f, h, quorumReached).Ok?
    ensures FindFinal(f.records).Some? && quorumReached && CheckedTx(setup, f, h, Final(f)).Ok?
    ensures var i := Level3Identity(setup, f, h, Final(f), CheckedTx(setup, f, h, Final(f)).value);
            var r, report := Final(f), Level3(setup, f, h, quorumReached).value;
            && i.Ok? && IdOf(setup.c, i.value) == Ok(report.attestationId)
            && report.fixtureId == i.value.fixtureId && report.proofBundleHash == i.value.proofBundleHash
            && report.participant1Score == r.participant1Score && report.participant2Score == r.participant2Score
            && Payload.NamesWinner(report.result, r.participant1Score, r.participant2Score)
  {
    hide CheckedTx, Level3Identity, Encodable, Level3VectorOk, IdOf, FindFinal, Payload.NamesWinner;
  }

  lemma Level3IdentitySays(setup: Setup, f: Fixture, h: Handoff, r: ScoreRecord, decoded: DecodedTx)
    returns (i: Identity)
    requires Level3Identity(setup, f, h, r, decoded).Ok? && Key(setup.programB58).Ok? && Key(h.rootAccount).Ok?
    requires decoded ==
             DecodedTx(Key(setup.programB58).value, Key(h.rootAccount).value, PredicateData(PredicateOf(f, r)))
    ensures i == Level3Identity(setup, f, h, r, decoded).value && Key(EmitterText(f, h)) == Ok(i.sourceEmitter)
    ensures setup.bigInt(f.fixtureId) == Some(i.fixtureId) && setup.bigInt(r.sequence) == Some(i.scoreSequence)
    ensures i.validationInstructionHash ==
            ValidationInstructionHash(setup.c, Key(setup.programB58).value, Key(h.rootAccount).value,
                                      PredicateData(PredicateOf(f, r)))
    ensures i.proofBundleHash == setup.c.keccak(Utf8(Canonical(ProofBundle(f, r)))) == h.proofBundleHash
  {
    hide ProofBundle, PredicateData, Canonical, Utf8, Key, ValidationInstructionHash, PredicateOf;
    i := Level3Identity(setup, f, h, r, decoded).value;
  }

  // -------------------------------------------------------------------------
  // Level 4
  // -------------------------------------------------------------------------

  /** WHAT A LEVEL 4 MESSAGE CARRIES, whichever source its VAA came from: exactly the outcome of the final
      record, under the destination chain and the two accounts, with both hashes; and its id is hashed
      from the handoff's emitter and the same numbers and hashes. */
  lemma Level4Says(setup: Setup, f: Fixture, h: Handoff, source: VaaSource)
    returns (o: Payload.MatchOutcome, instruction: bytes, preimage: bytes)
    requires Level4(setup, f, h, source).Ok?
    ensures FindFinal(f.records).Some? && h.wormhole.Some?
    ensures var res, r := Level4(setup, f, h, source).value, Final(f);
            && Vaas.Decode(res.vaaBytes) == Ok(res.vaa) && Payload.Has32(o)
            && res.vaa.body.payload == Payload.Layout(o)
            && Payload.Decode(res.vaa.body.payload).Ok?
            && Payload.NamesWinner(Payload.Decode(res.vaa.body.payload).value.result,
                                   r.participant1Score, r.participant2Score)
            && o.flags == 0 && o.sourceValidationVersion == 2
            && o.destinationChain == (match f.destinationChain case Some(n) => n case None => 10004)
            && Payload.NamesWinner(o.result, r.participant1Score, r.participant2Score)
            && setup.bigInt(f.fixtureId) == Some(o.fixtureId) && setup.bigInt(r.sequence) == Some(o.scoreSequence)
            && o.proofTimestampMs == r.timestampMs && o.period == r.period
            && o.participant1Score == r.participant1Score && o.participant2Score == r.participant2Score
            && Key(setup.programB58) == Ok(o.txlineProgramId) && Key(h.rootAccount) == Ok(o.dailyRootAccount)
            && o.validationInstructionHash == setup.c.keccak(instruction)
            && o.proofBundleHash == setup.c.keccak(Utf8(Canonical(ProofBundle(f, r)))) == h.proofBundleHash
            && res.attestationId == setup.c.keccak(preimage)
            && DailyRootFor(f, r.timestampMs) == Ok(h.rootAccount)
    ensures InstructionBytes(instruction, o.txlineProgramId, o.dailyRootAccount,
                             PredicateWords(f.fixtureId, Final(f).participant1Score, Final(f).participant2Score,
                                            Final(f).period))
    ensures Key(h.wormhole.value.emitterBase58).Ok?
    ensures IdentityBytes(setup.c, preimage, Key(h.wormhole.value.emitterBase58).value, o.fixtureId, o.scoreSequence,
                          o.validationInstructionHash, o.proofBundleHash)
  {
    hide *;
    Level4Steps(setup, f, h, source);
    var r, res := Final(f), Level4(setup, f, h, source).value;
    var built := Level4Build(setup, f, h, r).value;
    Level4BuildSteps(setup, f, h, r);
    Level4CheckedSteps(setup, f, h);
    Level4KeepsId(setup, f, h, source);
    AcceptedCarries(setup, built, res);
    o := built.outcome;
    OutcomeSays(setup, f, h, r, o);
    DecodedWinner(o, r.participant1Score, r.participant2Score);
    instruction := InstructionHashIs(setup.c, o.txlineProgramId, o.dailyRootAccount, PredicateOf(f, r));
    PredicateFields(f, r);
    BundleHashIs(setup.c, ProofBundle(f, r));
    var i := Level4IdentityIs(h, o);
    preimage := AttestationIdIs(setup.c, i);
    IdIs(setup.c, i);
  }

  /** The winner a reader decodes, whatever the scores' width. */
  lemma DecodedWinner(o: Payload.MatchOutcome, score1: int, score2: int)
    requires Payload.Has32(o) && Payload.NamesWinner(o.result, score1, score2)
    ensures Payload.Decode(Payload.Layout(o)).Ok?
    ensures Payload.NamesWinner(Payload.Decode(Payload.Layout(o)).value.result, score1, score2)
  {
    hide Payload.Layout, Payload.Decode, Be, Unsigned, Signed;
    Payload.DecodeLayout(o);
    UnsignedOfBe(o.result, 1);
    Widths();
  }

  lemma BundleHashIs(c: Crypto, bundle: Json)
    ensures ProofBundleHash(c, bundle) == c.keccak(Utf8(Canonical(bundle)))
  {
    hide Utf8, Canonical;
  }

  lemma AcceptedCarries(setup: Setup, built: Built, res: Level4Result)
    requires Level4Accept(setup, built, res.vaaBytes) == Ok(res)
    ensures Vaas.Decode(res.vaaBytes) == Ok(res.vaa) && res.vaa.body.payload == built.payload
  {
    hide Vaas.Decode, Payload.Decode, Quorum.HasQuorum;
  }

  lemma OutcomeSays(setup: Setup, f: Fixture, h: Handoff, r: ScoreRecord, o: Payload.MatchOutcome)
    requires Level4Outcome(setup, f, h, r) == Ok(o)
    ensures o.flags == 0 && o.sourceValidationVersion == 2
    ensures o.destinationChain == (match f.destinationChain case Some(n) => n case None => 10004)
    ensures Payload.NamesWinner(o.result, r.participant1Score, r.participant2Score)
    ensures setup.bigInt(f.fixtureId) == Some(o.fixtureId) && setup.bigInt(r.sequence) == Some(o.scoreSequence)
    ensures o.proofTimestampMs == r.timestampMs && o.period == r.period
    ensures o.participant1Score == r.participant1Score && o.participant2Score == r.participant2Score
    ensures Key(setup.programB58) == Ok(o.txlineProgramId) && Key(h.rootAccount) == Ok(o.dailyRootAccount)
    ensures o.proofBundleHash == ProofBundleHash(setup.c, ProofBundle(f, r))
    ensures |o.txlineProgramId| == |o.dailyRootAccount| == 32
    ensures o.validationInstructionHash ==
            ValidationInstructionHash(setup.c, o.txlineProgramId, o.dailyRootAccount, PredicateData(PredicateOf(f, r)))
  {
    hide ProofBundle, PredicateData, ProofBundleHash, ValidationInstructionHash, Key, PredicateOf, Payload.NamesWinner;
  }

  lemma Level4IdentityIs(h: Handoff, o: Payload.MatchOutcome) returns (i: Identity)
    requires h.wormhole.Some? && Payload.Has32(o) && Level4Identity(h, o).Ok?
    ensures i == Level4Identity(h, o).value && Key(h.wormhole.value.emitterBase58) == Ok(i.sourceEmitter)
    ensures i.fixtureId == o.fixtureId && i.scoreSequence == o.scoreSequence
    ensures i.validationInstructionHash == o.validationInstructionHash && i.proofBundleHash == o.proofBundleHash
  {
    hide Key;
    i := Level4Identity(h, o).value;
  }

  /** The file source's message: version 1 of guardian set 0, signed by these thirteen guardians, the
      record's time in whole seconds, no nonce, chain 1, the handoff's emitter and sequence, and
      consistency level 1. */
  lemma FileSourceSays(setup: Setup, f: Fixture, h: Handoff)
    requires Level4(setup, f, h, DevGuardianFile).Ok?
    ensures FindFinal(f.records).Some? && h.wormhole.Some? && Key(h.wormhole.value.emitterBase58).Ok?
    ensures setup.bigInt(h.wormhole.value.sequence).Some?
    ensures var b, ts := Level4(setup, f, h, DevGuardianFile).value.vaa.body, Final(f).timestampMs;
            && b.timestamp == ts / 1000 % 0x1_0000_0000 && b.nonce == 0 && b.emitterChainId == 1
            && b.emitterAddress == Key(h.wormhole.value.emitterBase58).value
            && b.sequence == setup.bigInt(h.wormhole.value.sequence).value && b.consistencyLevel == 1
    ensures var v := Level4(setup, f, h, DevGuardianFile).value.vaa;
            && v.guardianSetIndex == 0 && v.version == 1
            && SignedInOrder(v.signatures, [0, 1, 2, 4, 5, 7, 8, 10, 11, 13, 15, 16, 18])
  {
    hide *;
    Level4Steps(setup, f, h, DevGuardianFile);
    var res := Level4(setup, f, h, DevGuardianFile).value;
    var built := Level4Build(setup, f, h, Final(f)).value;
    BuiltSays(setup, f, h, Final(f));
    FileBody(setup, built, res);
  }

  predicate SignedInOrder(ss: seq<Vaas.Signature>, guardians: seq<int>) {
    |ss| == |guardians| && forall k | 0 <= k < |ss| :: ss[k].guardianIndex == guardians[k]
  }

  lemma BuiltSays(setup: Setup, f: Fixture, h: Handoff, r: ScoreRecord)
    requires h.wormhole.Some? && Level4Build(setup, f, h, r).Ok?
    ensures Key(h.wormhole.value.emitterBase58).Ok? && setup.bigInt(h.wormhole.value.sequence).Some?
    ensures var b := Level4Build(setup, f, h, r).value.body;
            && b.timestamp == r.timestampMs / 1000 && b.nonce == 0 && b.emitterChainId == 1
            && b.emitterAddress == Key(h.wormhole.value.emitterBase58).value
            && b.sequence == setup.bigInt(h.wormhole.value.sequence).value && b.consistencyLevel == 1
  {
    hide Key, Level4Outcome, Payload.Layout, IdOf, Level4VectorOk;
  }

  lemma FileBody(setup: Setup, built: Built, res: Level4Result)
    requires FetchVaa(setup, DevGuardianFile, built) == Ok(res.vaaBytes)
    requires Level4Accept(setup, built, res.vaaBytes) == Ok(res)
    requires built.body.nonce == 0 && built.body.consistencyLevel == 1
    ensures res.vaa.body.timestamp == built.body.timestamp % 0x1_0000_0000 && res.vaa.body.nonce == 0
    ensures res.vaa.body.emitterChainId == built.body.emitterChainId
    ensures res.vaa.body.emitterAddress == built.body.emitterAddress
    ensures res.vaa.body.sequence == built.body.sequence && res.vaa.body.consistencyLevel == 1
    ensures res.vaa.version == 1 && res.vaa.guardianSetIndex == 0
    ensures SignedInOrder(res.vaa.signatures, [0, 1, 2, 4, 5, 7, 8, 10, 11, 13, 15, 16, 18])
  {
    hide Vaas.Decode, Payload.Decode, Quorum.HasQuorum, Quorum.SignedVaa, Vaas.Encoding, SignedInOrder;
    SignedBody(setup.c, built.body, Quorum.DEFAULT_INDICES);
    DecodedBody(Quorum.SignedVaa(setup.c, built.body, Quorum.DEFAULT_INDICES), Quorum.DEFAULT_INDICES);
    Widths();
  }

  lemma SignedBody(c: Crypto, body: Vaas.Body, d: seq<int>)
    requires d == Quorum.DEFAULT_INDICES
    ensures var v := Quorum.SignedVaa(c, body, d);
            && v.version == 1 && v.guardianSetIndex == 0 && |v.signatures| == 13 && v.body == body
            && SignedInOrder(v.signatures, d)
    ensures |d| <= 255 && forall k | 0 <= k < |d| :: 0 <= d[k] < 256
  {
    hide Quorum.SortIndices, Quorum.DEFAULT_INDICES;
    Quorum.DefaultIndicesAreDistinct(d);
    Quorum.AlreadySorted(d);
    assert forall k | 0 <= k < |d| :: d[k] in d;
  }

  lemma DecodedBody(v: Vaas.Vaa, guardians: seq<int>)
    requires v.version == 1 && |v.signatures| <= 255 && v.guardianSetIndex == 0
    requires SignedInOrder(v.signatures, guardians)
    requires forall k | 0 <= k < |guardians| :: 0 <= guardians[k] < 256
    ensures Vaas.Decode(Vaas.Encoding(v)).Ok? && Vaas.Decode(Vaas.Encoding(v)).value.body == Vaas.WrapBody(v.body)
    ensures Vaas.Decode(Vaas.Encoding(v)).value.version == 1
    ensures Vaas.Decode(Vaas.Encoding(v)).value.guardianSetIndex == 0
    ensures SignedInOrder(Vaas.Decode(Vaas.Encoding(v)).value.signatures, guardians)
  {
    hide Vaas.Decode, Vaas.Encoding;
    Vaas.DecodeEncoding(v);
    Widths();
  }
}
