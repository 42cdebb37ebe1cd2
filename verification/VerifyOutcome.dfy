/** Deriving an outcome from TxLINE's verified arguments
    (programs/proofline-adapter, instructions/verify_outcome.rs). */
module VerifyOutcome {
  import opened Bytes

  type i32 = x: int | -0x8000_0000 <= x < 0x8000_0000
  type i64 = x: int | -0x8000_0000_0000_0000 <= x < 0x8000_0000_0000_0000

  datatype ScoreStat = ScoreStat(key: nat, value: i32, period: i32)

  /** The fields the adapter reads; the Merkle proofs and roots stay in `rest`. */
  datatype StatInput = StatInput(ts: i64, fixtureId: i64, minTimestamp: i64, stats: seq<ScoreStat>, rest: bytes)

  datatype Comparison = GreaterThan | LessThan | EqualTo

  datatype StatPredicate = Single(index: byte, threshold: i32, comparison: Comparison) | Combined(rest: bytes)

  datatype VerifyArgs = VerifyArgs(input: StatInput, discretePredicates: seq<StatPredicate>, strategyRest: bytes)

  datatype AdapterError =
    | PayloadTimestampMismatch | DuplicateScoreStat | MissingParticipant1Stat | MissingParticipant2Stat
    | ScorePeriodMismatch | NotFinalPeriod | ScoreStatIndexOverflow | MissingExactScorePredicate
    | SerializationFailed | WrongTxlineProgram | WrongDailyRoot | MissingReturnData | ReturnDataProgramMismatch
    | MalformedReturnData | TxlineValidationFailed | CpiFailed | BadReportPayload | ForwarderMismatch
    | AlreadyPublished | WrongWormholeProgram | MalformedSequenceAccount | BridgeFailed
    | AccountAlreadyExists | AccountMissing

  datatype DerivedOutcome = DerivedOutcome(
    fixtureId: i64, proofTimestampMs: i64, period: i32, participant1Score: i32, participant2Score: i32,
    proofBundleHash: bytes32, dailyRootAccount: bytes32, validationInstructionHash: bytes32)

  /** What the adapter calls but does not define: keccak, Borsh, the TxLINE crate's instruction
      builder and root derivation, and the compile-time program id. */
  datatype Runtime = Runtime(
    keccak: bytes -> bytes32,
    serializeInput: StatInput -> Option<bytes>,
    parseArgs: bytes -> Option<VerifyArgs>,
    dailyScoresPda: i64 -> Option<bytes32>,
    instructionData: (bytes32, VerifyArgs) -> Option<bytes>,
    mainnetProgram: bytes32)

  const FINAL_PERIOD: i32 := 100

  predicate BoundExactly(predicates: seq<StatPredicate>, index: int, value: i32) {
    exists p <- predicates :: p.Single? && p.index == index && p.threshold == value && p.comparison == EqualTo
  }

  /** Exactly one leaf carries the key, and it is leaf i. */
  predicate OnlyLeaf(stats: seq<ScoreStat>, key: nat, i: nat) {
    i < |stats| && stats[i].key == key && forall j | 0 <= j < |stats| && j != i :: stats[j].key != key
  }

  /** What verification demands of leaf i before its value becomes a score. */
  predicate ScoreLeaf(a: VerifyArgs, key: nat, i: nat) {
    && OnlyLeaf(a.input.stats, key, i) && a.input.stats[i].period == 100 && i <= 255
    && Single(i, a.input.stats[i].value, EqualTo) in a.discretePredicates
  }

  lemma BoundIs(predicates: seq<StatPredicate>, index: int, value: i32)
    ensures BoundExactly(predicates, index, value) <==> 0 <= index <= 255 && Single(index, value, EqualTo) in predicates
  {
    if BoundExactly(predicates, index, value) {
      var p :| p in predicates && p.Single? && p.index == index && p.threshold == value && p.comparison == EqualTo;
      assert p == Single(index, value, EqualTo);
    }
  }

  /** The loop's state after k leaves: the one leaf seen with this key, if any. */
  predicate Seen(stats: seq<ScoreStat>, k: nat, key: nat, found: Option<nat>)
    requires k <= |stats|
  {
    match found
    case None => forall j | 0 <= j < k :: stats[j].key != key
    case Some(i) => i < k && stats[i].key == key && forall j | 0 <= j < k && j != i :: stats[j].key != key
  }

  /** derive_outcome. It succeeds exactly when the timestamps agree, keys 1 and 2 each occur once, both
      of those leaves are final, indexable and bound by an exact-equality predicate at their own index,
      and the input serializes; the scores are those leaves' values. */
  method DeriveOutcome(rt: Runtime, a: VerifyArgs) returns (r: Result<DerivedOutcome, AdapterError>)
    ensures r == Derive(rt, a)
  {
    var input := a.input;
    if input.ts != input.minTimestamp {
      return Err(PayloadTimestampMismatch);
    }
    var p1: Option<nat>, p2: Option<nat> := None, None;
    for k := 0 to |input.stats|
      invariant Seen(input.stats, k, 1, p1) && Seen(input.stats, k, 2, p2)
    {
      var key := input.stats[k].key;
      if key == 1 {
        if p1.Some? {
          TwoLeaves(input.stats, 1, p1.value, k);
          return Err(DuplicateScoreStat);
        }
        p1 := Some(k);
      } else if key == 2 {
        if p2.Some? {
          TwoLeaves(input.stats, 2, p2.value, k);
          return Err(DuplicateScoreStat);
        }
        p2 := Some(k);
      }
    }
    CountSeen(input.stats, 1, p1);
    CountSeen(input.stats, 2, p2);
    if p1 == None {
      return Err(MissingParticipant1Stat);
    }
    if p2 == None {
      return Err(MissingParticipant2Stat);
    }
    var i1, i2 := p1.value, p2.value;
    var s1, s2 := input.stats[i1], input.stats[i2];
    if s1.period != s2.period {
      return Err(ScorePeriodMismatch);
    }
    if s1.period != FINAL_PERIOD {
      return Err(NotFinalPeriod);
    }
    if i1 > 255 || i2 > 255 {
      return Err(ScoreStatIndexOverflow);
    }
    if !BoundExactly(a.discretePredicates, i1, s1.value) {
      return Err(MissingExactScorePredicate);
    }
    if !BoundExactly(a.discretePredicates, i2, s2.value) {
      return Err(MissingExactScorePredicate);
    }
    var bytes := rt.serializeInput(input);
    if bytes == None {
      return Err(SerializationFailed);
    }
    r := Ok(DerivedOutcome(input.fixtureId, input.minTimestamp, s1.period, s1.value, s2.value,
                           rt.keccak(bytes.value), EMPTY32, EMPTY32));
  }

  const EMPTY32: bytes32 := seq(32, i => 0)

  function Count(stats: seq<ScoreStat>, key: nat): nat
  {
    if stats == [] then 0 else (if stats[0].key == key then 1 else 0) + Count(stats[1..], key)
  }

  /** The position of the first leaf with the key. */
  function Find(stats: seq<ScoreStat>, key: nat): (i: nat)
    requires Count(stats, key) > 0
    ensures i < |stats| && stats[i].key == key
  {
    if stats[0].key == key then 0 else 1 + Find(stats[1..], key)
  }

  /** The same decision by counting keys instead of scanning with two cells. */
  function Derive(rt: Runtime, a: VerifyArgs): Result<DerivedOutcome, AdapterError>
  {
    var stats := a.input.stats;
    if a.input.ts != a.input.minTimestamp then Err(PayloadTimestampMismatch)
    else if Count(stats, 1) > 1 || Count(stats, 2) > 1 then Err(DuplicateScoreStat)
    else if Count(stats, 1) == 0 then Err(MissingParticipant1Stat)
    else if Count(stats, 2) == 0 then Err(MissingParticipant2Stat)
    else
      var i1, i2 := Find(stats, 1), Find(stats, 2);
      if stats[i1].period != stats[i2].period then Err(ScorePeriodMismatch)
      else if stats[i1].period != FINAL_PERIOD then Err(NotFinalPeriod)
      else if i1 > 255 || i2 > 255 then Err(ScoreStatIndexOverflow)
      else if !BoundExactly(a.discretePredicates, i1, stats[i1].value) then Err(MissingExactScorePredicate)
      else if !BoundExactly(a.discretePredicates, i2, stats[i2].value) then Err(MissingExactScorePredicate)
      else
        match rt.serializeInput(a.input)
        case None => Err(SerializationFailed)
        case Some(b) =>
          Ok(DerivedOutcome(a.input.fixtureId, a.input.minTimestamp, stats[i1].period, stats[i1].value,
                            stats[i2].value, rt.keccak(b), EMPTY32, EMPTY32))
  }

  lemma {:induction false} OneLeafIff(stats: seq<ScoreStat>, key: nat, i: nat)
    ensures OnlyLeaf(stats, key, i) <==> Count(stats, key) == 1 && Find(stats, key) == i
  {
    if stats != [] {
      var rest := stats[1..];
      NoLeafIff(rest, key);
      if stats[0].key == key {
        if OnlyLeaf(stats, key, i) { assert i == 0; assert forall j | 0 <= j < |rest| :: rest[j] == stats[j + 1]; }
        if Count(rest, key) == 0 { assert forall j | 0 < j < |stats| :: stats[j] == rest[j - 1]; }
      } else if i > 0 {
        OneLeafIff(rest, key, i - 1);
        if OnlyLeaf(stats, key, i) {
          forall j | 0 <= j < |rest| && j != i - 1 ensures rest[j].key != key { assert rest[j] == stats[j + 1]; }
        }
        if OnlyLeaf(rest, key, i - 1) {
          forall j | 0 < j < |stats| && j != i ensures stats[j].key != key { assert stats[j] == rest[j - 1]; }
        }
      }
    }
  }

  lemma {:induction false} NoLeafIff(stats: seq<ScoreStat>, key: nat)
    ensures Count(stats, key) == 0 <==> forall j | 0 <= j < |stats| :: stats[j].key != key
  {
    if stats != [] {
      NoLeafIff(stats[1..], key);
      assert forall j | 0 < j < |stats| :: stats[j] == stats[1..][j - 1];
    }
  }

  lemma CountSeen(stats: seq<ScoreStat>, key: nat, found: Option<nat>)
    requires Seen(stats, |stats|, key, found)
    ensures found == None ==> Count(stats, key) == 0
    ensures found.Some? ==> Count(stats, key) == 1 && Find(stats, key) == found.value
  {
    NoLeafIff(stats, key);
    if found.Some? { OneLeafIff(stats, key, found.value); }
  }

  lemma {:induction false} TwoLeaves(stats: seq<ScoreStat>, key: nat, i: nat, j: nat)
    requires i < j < |stats| && stats[i].key == stats[j].key == key
    ensures Count(stats, key) > 1
  {
    if i > 0 {
      TwoLeaves(stats[1..], key, i - 1, j - 1);
    } else {
      NoLeafIff(stats[1..], key);
      assert stats[1..][j - 1].key == key;
    }
  }

  /** Two leaves carry one of the keys of the scores. */
  predicate Repeats(stats: seq<ScoreStat>, i: nat, j: nat) {
    i < j < |stats| && stats[i].key == stats[j].key && stats[i].key in {1, 2}
  }

  /** Why verification refuses, stated on the leaves: the first of these that holds. */
  lemma RefusalIs(rt: Runtime, a: VerifyArgs)
    ensures var stats, r := a.input.stats, Derive(rt, a);
            if a.input.ts != a.input.minTimestamp then r == Err(PayloadTimestampMismatch)
            else if exists i: nat, j: nat :: Repeats(stats, i, j) then r == Err(DuplicateScoreStat)
            else if forall i | 0 <= i < |stats| :: stats[i].key != 1 then r == Err(MissingParticipant1Stat)
            else if forall i | 0 <= i < |stats| :: stats[i].key != 2 then r == Err(MissingParticipant2Stat)
            else forall i, j | 0 <= i < |stats| && 0 <= j < |stats| && stats[i].key == 1 && stats[j].key == 2 ::
              && (stats[i].period != stats[j].period ==> r == Err(ScorePeriodMismatch))
              && (stats[i].period == stats[j].period != 100 ==> r == Err(NotFinalPeriod))
              && (stats[i].period == stats[j].period == 100 && (i > 255 || j > 255) ==>
                    r == Err(ScoreStatIndexOverflow))
              && (stats[i].period == stats[j].period == 100 && i <= 255 && j <= 255 && r.Err? ==>
                    r.error == if Single(i, stats[i].value, EqualTo) in a.discretePredicates
                                  && Single(j, stats[j].value, EqualTo) in a.discretePredicates
                               then SerializationFailed else MissingExactScorePredicate)
  {
    hide BoundExactly;
    var stats := a.input.stats;
    forall i: int, value: i32
      ensures BoundExactly(a.discretePredicates, i, value) <==>
              0 <= i <= 255 && Single(i, value, EqualTo) in a.discretePredicates
    {
      BoundIs(a.discretePredicates, i, value);
    }
    NoLeafIff(stats, 1);
    NoLeafIff(stats, 2);
    forall i: nat, j: nat | Repeats(stats, i, j) ensures Count(stats, stats[i].key) > 1 {
      TwoLeaves(stats, stats[i].key, i, j);
    }
    forall key | key in {1, 2} && Count(stats, key) > 1
      ensures exists i: nat, j: nat :: Repeats(stats, i, j)
    {
      var i, j := Twice(stats, key);
      assert Repeats(stats, i, j);
    }
    forall i: nat, j: nat |
      i < |stats| && j < |stats| && i != j && stats[i].key == stats[j].key && stats[i].key in {1, 2}
      ensures exists i: nat, j: nat :: Repeats(stats, i, j)
    {
      assert Repeats(stats, if i < j then i else j, if i < j then j else i);
    }
  }

  lemma {:induction false} Twice(stats: seq<ScoreStat>, key: nat) returns (i: nat, j: nat)
    requires Count(stats, key) > 1
    ensures i < j < |stats| && stats[i].key == stats[j].key == key
  {
    if stats[0].key == key {
      i, j := 0, 1 + Find(stats[1..], key);
    } else {
      i, j := Twice(stats[1..], key);
      i, j := i + 1, j + 1;
    }
  }

  /** Success and the scores, stated on the leaves. */
  lemma DeriveIff(rt: Runtime, a: VerifyArgs)
    ensures Derive(rt, a).Ok? <==>
            && a.input.ts == a.input.minTimestamp && rt.serializeInput(a.input).Some?
            && exists i: nat, j: nat :: ScoreLeaf(a, 1, i) && ScoreLeaf(a, 2, j)
    ensures forall i: nat, j: nat | Derive(rt, a).Ok? && ScoreLeaf(a, 1, i) && ScoreLeaf(a, 2, j) ::
              Derive(rt, a).value.participant1Score == a.input.stats[i].value
              && Derive(rt, a).value.participant2Score == a.input.stats[j].value
  {
    hide BoundExactly;
    var stats := a.input.stats;
    forall i: int, value: i32
      ensures BoundExactly(a.discretePredicates, i, value) <==>
              0 <= i <= 255 && Single(i, value, EqualTo) in a.discretePredicates
    {
      BoundIs(a.discretePredicates, i, value);
    }
    forall key: nat, i: nat
      ensures OnlyLeaf(stats, key, i) <==> Count(stats, key) == 1 && Find(stats, key) == i
    {
      OneLeafIff(stats, key, i);
    }
    if Derive(rt, a).Ok? {
      assert ScoreLeaf(a, 1, Find(stats, 1)) && ScoreLeaf(a, 2, Find(stats, 2));
    }
  }
}
