/** The Solana adapter as a state machine: one-time configuration, immutable verified outcomes and
    the one-shot Wormhole publication (programs/proofline-adapter). */
module Adapter {
  import opened Bytes
  import opened VerifyOutcome
  import Payload

  type u16 = x: int | 0 <= x < 0x1_0000

  const SOURCE_VALIDATION_V2 := 2
  const U64_END := 0x1_0000_0000_0000_0000
  const CONSISTENCY_LEVEL_FINALIZED := 1
  const WORMHOLE_NONCE := 0

  datatype Config = Config(
    admin: bytes32, txlineProgramId: bytes32, wormholeCore: bytes32, forwarderAuthority: bytes32, destinationChain: u16)

  /** The facts frozen at verification. */
  datatype Verified = Verified(
    fixtureId: i64, proofTimestampMs: i64, period: i32, participant1Score: i32, participant2Score: i32,
    result: int, sourceValidationVersion: int, destinationChain: u16, txlineProgramId: bytes32,
    dailyRootAccount: bytes32, validationInstructionHash: bytes32, proofBundleHash: bytes32, verifiedSlot: int)

  /** The one-shot publication stamp. */
  datatype Stamp = Stamp(wormholeSequence: nat, wormholeMessage: bytes32)

  datatype VerifiedOutcome = VerifiedOutcome(facts: Verified, published: Option<Stamp>)

  /** A message posted through the core bridge under this program's emitter. */
  datatype Message = Message(account: bytes32, payload: bytes, nonce: int, consistencyLevel: int)

  /** The seeds of an outcome account: fixture id and proof timestamp, eight big-endian bytes each. */
  type Seeds = (bytes, bytes)

  datatype State = State(
    config: Option<Config>, outcomes: map<Seeds, VerifiedOutcome>, tracker: bytes, messages: map<nat, Message>)

  /** What the invoked TxLINE program did: failed, or left return data behind (or none). */
  datatype Cpi = Failed | Returned(data: Option<(bytes32, bytes)>)

  /** The accounts and external answers an instruction runs with. */
  datatype VerifyContext = VerifyContext(
    txlineProgram: bytes32, executable: bool, dailyRoot: bytes32, cpi: Cpi, slot: int)

  datatype PublishContext = PublishContext(wormholeProgram: bytes32, message: bytes32, bridgeAccepts: bool)

  datatype Call =
    | InitializeConfig(admin: bytes32, program: bytes32, core: bytes32, forwarder: bytes32, destinationChain: u16)
    | Verify(args: VerifyArgs, v: VerifyContext)
    | OnReport(signer: bytes32, payload: bytes, v: VerifyContext)
    | Publish(seeds: Seeds, p: PublishContext)
    | Inline(args: VerifyArgs, v: VerifyContext, p: PublishContext)

  function SeedsOf(fixtureId: i64, timestamp: i64): Seeds { (Be(fixtureId, 8), Be(timestamp, 8)) }

  function ArgSeeds(a: VerifyArgs): Seeds { SeedsOf(a.input.fixtureId, a.input.minTimestamp) }

  lemma SeedsInjective(f: i64, t: i64, g: i64, u: i64)
    requires SeedsOf(f, t) == SeedsOf(g, u)
    ensures f == g && t == u
  {
    Widths();
    SignedRoundTrip(f, 8);
    SignedRoundTrip(g, 8);
    SignedRoundTrip(t, 8);
    SignedRoundTrip(u, 8);
  }

  // -------------------------------------------------------------------------
  // Verification
  // -------------------------------------------------------------------------

  /** require_txline_true: exactly one byte 1, set by the mainnet program. */
  function RequireTrue(rt: Runtime, data: Option<(bytes32, bytes)>): Result<(), AdapterError>
  {
    match data
    case None => Err(MissingReturnData)
    case Some((program, b)) =>
      if program != rt.mainnetProgram then Err(ReturnDataProgramMismatch)
      else if b == [1] then Ok(()) else if b == [0] then Err(TxlineValidationFailed) else Err(MalformedReturnData)
  }

  function RunVerification(rt: Runtime, config: Config, a: VerifyArgs,
                           v: VerifyContext): Result<DerivedOutcome, AdapterError>
  {
    if config.txlineProgramId != rt.mainnetProgram then Err(WrongTxlineProgram)
    else if v.txlineProgram != rt.mainnetProgram then Err(WrongTxlineProgram)
    else if !v.executable then Err(WrongTxlineProgram)
    else
      var derived :- Derive(rt, a);
      var root := rt.dailyScoresPda(derived.proofTimestampMs);
      if root == None || v.dailyRoot != root.value then Err(WrongDailyRoot)
      else
        match rt.instructionData(v.dailyRoot, a)
        case None => Err(SerializationFailed)
        case Some(data) =>
          if v.cpi.Failed? then Err(CpiFailed)
          else
            var _ :- RequireTrue(rt, v.cpi.data);
            Ok(derived.(dailyRootAccount := v.dailyRoot,
                        validationInstructionHash := rt.keccak(rt.mainnetProgram + v.dailyRoot + data)))
  }

  /** A call that is in order up to TxLINE's answer. */
  ghost predicate InOrder(rt: Runtime, config: Config, a: VerifyArgs, v: VerifyContext) {
    && config.txlineProgramId == rt.mainnetProgram && v.txlineProgram == rt.mainnetProgram && v.executable
    && a.input.ts == a.input.minTimestamp && rt.serializeInput(a.input).Some?
    && (exists i: nat, j: nat :: ScoreLeaf(a, 1, i) && ScoreLeaf(a, 2, j))
    && rt.dailyScoresPda(a.input.minTimestamp) == Some(v.dailyRoot) && rt.instructionData(v.dailyRoot, a).Some?
  }

  /** VERIFICATION SUCCEEDS exactly for a call in order that the mainnet program answers with the one
      byte 1; every other answer is refused, each for its own reason. */
  lemma VerificationIff(rt: Runtime, config: Config, a: VerifyArgs, v: VerifyContext)
    ensures RunVerification(rt, config, a, v).Ok? <==>
            InOrder(rt, config, a, v) && v.cpi == Returned(Some((rt.mainnetProgram, [1])))
    ensures InOrder(rt, config, a, v) && RunVerification(rt, config, a, v).Err? ==>
              RunVerification(rt, config, a, v).error ==
              match v.cpi
              case Failed => CpiFailed
              case Returned(None) => MissingReturnData
              case Returned(Some((program, answer))) =>
                if program != rt.mainnetProgram then ReturnDataProgramMismatch
                else if answer == [0] then TxlineValidationFailed else MalformedReturnData
    ensures config.txlineProgramId != rt.mainnetProgram || v.txlineProgram != rt.mainnetProgram || !v.executable ==>
              RunVerification(rt, config, a, v) == Err(WrongTxlineProgram)
    ensures config.txlineProgramId == rt.mainnetProgram && v.txlineProgram == rt.mainnetProgram && v.executable ==>
              var r := RunVerification(rt, config, a, v);
              && (Derive(rt, a).Err? ==> r == Derive(rt, a))
              && (Derive(rt, a).Ok? ==>
                    if rt.dailyScoresPda(a.input.minTimestamp) != Some(v.dailyRoot) then r == Err(WrongDailyRoot)
                    else rt.instructionData(v.dailyRoot, a) == None ==> r == Err(SerializationFailed))
  {
    hide Derive, ScoreLeaf;
    DeriveIff(rt, a);
    DerivedTimestamp(rt, a);
  }

  lemma DerivedTimestamp(rt: Runtime, a: VerifyArgs)
    ensures Derive(rt, a).Ok? ==> Derive(rt, a).value.proofTimestampMs == a.input.minTimestamp
  {
    hide Count, BoundExactly;
  }

  function Recorded(rt: Runtime, config: Config, d: DerivedOutcome, slot: int): VerifiedOutcome
  {
    VerifiedOutcome(
      Verified(d.fixtureId, d.proofTimestampMs, d.period, d.participant1Score, d.participant2Score,
               Payload.DeriveResult(d.participant1Score, d.participant2Score), SOURCE_VALIDATION_V2,
               config.destinationChain, rt.mainnetProgram, d.dailyRootAccount, d.validationInstructionHash,
               d.proofBundleHash, slot),
      None)
  }

  /** verify_outcome: the outcome account is initialized, so it must not exist yet. */
  function VerifyStep(rt: Runtime, s: State, a: VerifyArgs, v: VerifyContext): Result<State, AdapterError>
  {
    if s.config == None then Err(AccountMissing)
    else if ArgSeeds(a) in s.outcomes then Err(AccountAlreadyExists)
    else
      var derived :- RunVerification(rt, s.config.value, a, v);
      Ok(s.(outcomes := s.outcomes[ArgSeeds(a) := Recorded(rt, s.config.value, derived, v.slot)]))
  }

  const ZERO_SEEDS: Seeds := (seq(8, i => 0), seq(8, i => 0))

  /** on_report: the forwarder's way to the same core. A malformed payload is addressed by zero seeds
      and refused. */
  function OnReportStep(rt: Runtime, s: State, signer: bytes32, payload: bytes,
                        v: VerifyContext): Result<State, AdapterError>
  {
    if s.config == None then Err(AccountMissing)
    else if signer != s.config.value.forwarderAuthority then Err(ForwarderMismatch)
    else
      match rt.parseArgs(payload)
      case None => if ZERO_SEEDS in s.outcomes then Err(AccountAlreadyExists) else Err(BadReportPayload)
      case Some(a) => VerifyStep(rt, s, a, v)
  }

  // -------------------------------------------------------------------------
  // Publication
  // -------------------------------------------------------------------------

  /** build_payload: only frozen facts, and the sentinel 0 for the provider sequence TxLINE does not
      verify. */
  function OutcomeMessage(o: Verified): Payload.MatchOutcome
  {
    Payload.MatchOutcome(
      0, o.destinationChain, o.sourceValidationVersion, o.result, o.fixtureId, 0, o.proofTimestampMs,
      o.period, o.participant1Score, o.participant2Score, o.txlineProgramId, o.dailyRootAccount,
      o.validationInstructionHash, o.proofBundleHash)
  }

  function BuildPayload(o: Verified): bytes { Payload.Layout(OutcomeMessage(o)) }

  function Reverse(b: bytes): (r: bytes)
    ensures |r| == |b|
  {
    if b == [] then [] else Reverse(b[1..]) + [b[0]]
  }

  /** A u64 in little-endian order. */
  function Le64(n: nat): bytes { Reverse(Be(n, 8)) }

  function ParseLe64(b: bytes): nat { Unsigned(Reverse(b)) }

  lemma {:induction false} ReverseTwice(b: bytes)
    ensures Reverse(Reverse(b)) == b
  {
    if b != [] {
      ReverseTwice(b[1..]);
      ReverseAppend(Reverse(b[1..]), b[0]);
      assert b == [b[0]] + b[1..];
    }
  }

  lemma {:induction false} ReverseAppend(b: bytes, x: byte)
    ensures Reverse(b + [x]) == [x] + Reverse(b)
  {
    if b != [] {
      assert (b + [x])[1..] == b[1..] + [x];
      ReverseAppend(b[1..], x);
    }
  }

  lemma Le64RoundTrip(n: nat)
    requires n < U64_END
    ensures ParseLe64(Le64(n)) == n && |Le64(n)| == 8
  {
    ReverseTwice(Be(n, 8));
    UnsignedRoundTrip(n, 8);
    Widths();
  }

  /** The first byte is the lowest. */
  lemma LittleEndian(b: bytes)
    ensures ParseLe64([]) == 0
    ensures b != [] ==> ParseLe64(b) == b[0] as int + 256 * ParseLe64(b[1..])
  {
    if b != [] {
      var r := Reverse(b);
      assert r[..|r| - 1] == Reverse(b[1..]) && r[|r| - 1] == b[0];
    }
  }

  const WORMHOLE_IX_POST_MESSAGE: byte := 1

  function Le32(n: nat): (b: bytes)
    ensures |b| == 4
  {
    Reverse(Be(n, 4))
  }

  /** The bridge instruction's data. */
  function PostData(nonce: nat, payload: bytes, consistencyLevel: byte): bytes
  {
    [WORMHOLE_IX_POST_MESSAGE] + Le32(nonce) + Le32(|payload|) + payload + [consistencyLevel]
  }

  function ParseLe32(b: bytes): nat { Unsigned(Reverse(b)) }

  /** The bridge's reader: nonce, payload and consistency level. */
  function ReadPostData(d: bytes): Option<(nat, bytes, byte)>
  {
    if |d| < 10 || d[0] != WORMHOLE_IX_POST_MESSAGE || |d| != 10 + ParseLe32(d[5..9]) then None
    else Some((ParseLe32(d[1..5]), d[9..|d| - 1], d[|d| - 1]))
  }

  /** The data the bridge reads nonce, payload and level back from, if the numbers fit 32 bits; otherwise
      they wrap, each in its own four bytes. */
  method PostMessageData(nonce: nat, payload: bytes, consistencyLevel: byte) returns (data: bytes)
    ensures FitsUnsigned(nonce, 4) && FitsUnsigned(|payload|, 4) ==>
              ReadPostData(data) == Some((nonce, payload, consistencyLevel))
    ensures |data| == 10 + |payload| && data[0] == 1 && data[1..5] == Le32(nonce)
    ensures data[5..9] == Le32(|payload|) && data[9..|data| - 1] == payload && data[|data| - 1] == consistencyLevel
  {
    hide Le32, ParseLe32;
    data := [];
    data := data + [WORMHOLE_IX_POST_MESSAGE];
    data := data + Le32(nonce);
    data := data + Le32(|payload|);
    data := data + payload;
    data := data + [consistencyLevel];
    assert data == PostData(nonce, payload, consistencyLevel);
    PostDataParts(nonce, payload, consistencyLevel);
    if FitsUnsigned(nonce, 4) && FitsUnsigned(|payload|, 4) {
      Le32RoundTrip(nonce);
      Le32RoundTrip(|payload|);
    }
  }

  lemma Le32RoundTrip(n: nat)
    requires FitsUnsigned(n, 4)
    ensures ParseLe32(Le32(n)) == n
  {
    ReverseTwice(Be(n, 4));
    UnsignedRoundTrip(n, 4);
  }

  /** The bridge reads back exactly what was meant: the data determines nonce, payload and level. */
  lemma PostDataDetermines(nonce: nat, payload: bytes, level: byte, nonce': nat, payload': bytes, level': byte)
    requires FitsUnsigned(nonce, 4) && FitsUnsigned(nonce', 4)
    requires PostData(nonce, payload, level) == PostData(nonce', payload', level')
    ensures nonce == nonce' && payload == payload' && level == level'
  {
    hide Le32;
    PostDataParts(nonce, payload, level);
    PostDataParts(nonce', payload', level');
    Le32RoundTrip(nonce);
    Le32RoundTrip(nonce');
  }

  lemma PostDataParts(nonce: nat, payload: bytes, level: byte)
    ensures var d := PostData(nonce, payload, level);
            && |d| == 10 + |payload| && d[0] == WORMHOLE_IX_POST_MESSAGE && d[1..5] == Le32(nonce)
            && d[5..9] == Le32(|payload|) && d[9..|d| - 1] == payload && d[|d| - 1] == level
  {
    hide Le32;
  }

  /** The bridge posts under the tracker's sequence and advances it; parse_assigned_sequence then reads
      the tracker back and subtracts one. */
  function ParseAssignedSequence(tracker: bytes): Result<nat, AdapterError>
  {
    if |tracker| < 8 then Err(MalformedSequenceAccount)
    else
      var next := ParseLe64(tracker[..8]);
      if next == 0 then Err(MalformedSequenceAccount) else Ok(next - 1)
  }

  /** The core bridge's part of post_message. It counts from the tracker it owns. */
  function BridgePost(s: State, m: Message, accepts: bool): Result<State, AdapterError>
  {
    var next := ParseLe64(s.tracker);
    if !accepts || next + 1 >= U64_END then Err(BridgeFailed)
    else Ok(s.(tracker := Le64(next + 1), messages := s.messages[next := m]))
  }

  function PublishStep(s: State, k: Seeds, p: PublishContext): Result<State, AdapterError>
  {
    if s.config == None || k !in s.outcomes then Err(AccountMissing)
    else if s.outcomes[k].published.Some? then Err(AlreadyPublished)
    else if p.wormholeProgram != s.config.value.wormholeCore then Err(WrongWormholeProgram)
    else
      var o := s.outcomes[k];
      var m := Message(p.message, BuildPayload(o.facts), WORMHOLE_NONCE, CONSISTENCY_LEVEL_FINALIZED);
      var posted :- BridgePost(s, m, p.bridgeAccepts);
      var sequence :- ParseAssignedSequence(posted.tracker);
      Ok(posted.(outcomes := s.outcomes[k := o.(published := Some(Stamp(sequence, p.message)))]))
  }

  function InitializeStep(rt: Runtime, s: State, c: Call): Result<State, AdapterError>
    requires c.InitializeConfig?
  {
    if s.config.Some? then Err(AccountAlreadyExists)
    else if c.program != rt.mainnetProgram then Err(WrongTxlineProgram)
    else Ok(s.(config := Some(Config(c.admin, rt.mainnetProgram, c.core, c.forwarder, c.destinationChain))))
  }

  /** verify_and_publish_inline as one instruction: account constraints first, then the verification
      core, the record, the post and the stamp. */
  function InlineStep(rt: Runtime, s: State, a: VerifyArgs, v: VerifyContext,
                      p: PublishContext): Result<State, AdapterError>
  {
    if s.config == None then Err(AccountMissing)
    else if ArgSeeds(a) in s.outcomes then Err(AccountAlreadyExists)
    else if p.wormholeProgram != s.config.value.wormholeCore then Err(WrongWormholeProgram)
    else
      var derived :- RunVerification(rt, s.config.value, a, v);
      var o := Recorded(rt, s.config.value, derived, v.slot);
      var m := Message(p.message, BuildPayload(o.facts), WORMHOLE_NONCE, CONSISTENCY_LEVEL_FINALIZED);
      var posted :- BridgePost(s, m, p.bridgeAccepts);
      var sequence :- ParseAssignedSequence(posted.tracker);
      Ok(posted.(outcomes := s.outcomes[ArgSeeds(a) := o.(published := Some(Stamp(sequence, p.message)))]))
  }

  function TryStep(rt: Runtime, s: State, c: Call): Result<State, AdapterError>
  {
    match c
    case InitializeConfig(_, _, _, _, _) => InitializeStep(rt, s, c)
    case Verify(a, v) => VerifyStep(rt, s, a, v)
    case OnReport(signer, payload, v) => OnReportStep(rt, s, signer, payload, v)
    case Publish(k, p) => PublishStep(s, k, p)
    case Inline(a, v, p) => InlineStep(rt, s, a, v, p)
  }

  /** A failing instruction reverts its whole transaction. */
  function Step(rt: Runtime, s: State, c: Call): State
  {
    match TryStep(rt, s, c) case Ok(t) => t case Err(_) => s
  }

  function Run(rt: Runtime, s: State, calls: seq<Call>): State
    decreases |calls|
  {
    if calls == [] then s else Run(rt, Step(rt, s, calls[0]), calls[1..])
  }

  const GENESIS := State(None, map[], Le64(0), map[])

  // -------------------------------------------------------------------------
  // What every run keeps
  // -------------------------------------------------------------------------

  function Next(s: State): nat { ParseLe64(s.tracker) }

  /** The facts every outcome account holds. */
  predicate SoundOutcome(s: State, k: Seeds)
    requires k in s.outcomes
  {
    var o := s.outcomes[k];
    && k == SeedsOf(o.facts.fixtureId, o.facts.proofTimestampMs)
    && o.facts.period == FINAL_PERIOD && o.facts.sourceValidationVersion == SOURCE_VALIDATION_V2
    && Payload.NamesWinner(o.facts.result, o.facts.participant1Score, o.facts.participant2Score)
    && match o.published
       case None => true
       case Some(stamp) =>
         && stamp.wormholeSequence in s.messages
         && s.messages[stamp.wormholeSequence] ==
             Message(stamp.wormholeMessage, BuildPayload(o.facts), WORMHOLE_NONCE, CONSISTENCY_LEVEL_FINALIZED)
  }

  predicate StampedWith(s: State, k: Seeds, n: nat)
    requires k in s.outcomes
  {
    s.outcomes[k].published.Some? && s.outcomes[k].published.value.wormholeSequence == n
  }

  predicate OutcomesSound(s: State) { forall k <- s.outcomes :: SoundOutcome(s, k) }

  /** Every posted message is below the tracker and is some outcome's. */
  predicate MessagesOwned(s: State) {
    forall n <- s.messages :: n < Next(s) && exists k <- s.outcomes :: StampedWith(s, k, n)
  }

  /** No two outcomes share a sequence. */
  ghost predicate StampsDistinct(s: State) {
    forall k, l, n: nat | k in s.outcomes && l in s.outcomes && StampedWith(s, k, n) && StampedWith(s, l, n) :: k == l
  }

  ghost predicate Inv(s: State) {
    && Next(s) < U64_END && s.tracker == Le64(Next(s))
    && OutcomesSound(s) && MessagesOwned(s) && StampsDistinct(s)
  }

  /** Nothing written is ever rewritten: frozen facts stay, a publication stamp stays, posted messages
      stay and the configuration stays. */
  predicate Preserves(s: State, t: State) {
    && (s.config.Some? ==> t.config == s.config)
    && (forall k <- s.outcomes ::
          && k in t.outcomes && t.outcomes[k].facts == s.outcomes[k].facts
          && (s.outcomes[k].published.Some? ==> t.outcomes[k] == s.outcomes[k]))
    && (forall n <- s.messages :: n in t.messages && t.messages[n] == s.messages[n])
    && Next(s) <= Next(t)
  }

  lemma GenesisInv()
    ensures Inv(GENESIS)
  {
    Le64RoundTrip(0);
  }

  lemma DerivedFacts(rt: Runtime, config: Config, a: VerifyArgs, v: VerifyContext)
    requires RunVerification(rt, config, a, v).Ok?
    ensures var d := RunVerification(rt, config, a, v).value;
            d.fixtureId == a.input.fixtureId && d.proofTimestampMs == a.input.minTimestamp && d.period == FINAL_PERIOD
  {
    hide Count, BoundExactly;
  }

  /** A new unpublished outcome changes nothing that was there. */
  lemma RecordKeeps(rt: Runtime, s: State, a: VerifyArgs, v: VerifyContext)
    requires Inv(s) && VerifyStep(rt, s, a, v).Ok?
    ensures Inv(VerifyStep(rt, s, a, v).value) && Preserves(s, VerifyStep(rt, s, a, v).value)
  {
    hide RunVerification, BuildPayload, Le64, ParseLe64;
    DerivedFacts(rt, s.config.value, a, v);
    var t, new_ := VerifyStep(rt, s, a, v).value, ArgSeeds(a);
    assert SoundOutcome(t, new_);
    forall k | k in s.outcomes ensures SoundOutcome(t, k) { assert SoundOutcome(s, k); }
    forall n | n in s.messages
      ensures exists k <- t.outcomes :: StampedWith(t, k, n)
    {
      var k :| k in s.outcomes && StampedWith(s, k, n);
      assert StampedWith(t, k, n);
    }
    forall k, n: nat | k in t.outcomes && StampedWith(t, k, n)
      ensures k in s.outcomes && StampedWith(s, k, n)
    {
    }
  }

  /** The state after a publication: the message at the tracker's sequence, the stamp, the tracker. */
  function Published(s: State, k: Seeds, message: bytes32): State
    requires k in s.outcomes
  {
    var o := s.outcomes[k];
    s.(tracker := Le64(Next(s) + 1),
       messages := s.messages[Next(s) := Message(message, BuildPayload(o.facts), WORMHOLE_NONCE,
                                                 CONSISTENCY_LEVEL_FINALIZED)],
       outcomes := s.outcomes[k := o.(published := Some(Stamp(Next(s), message)))])
  }

  lemma PublishShape(s: State, k: Seeds, p: PublishContext)
    requires PublishStep(s, k, p).Ok?
    ensures k in s.outcomes && s.outcomes[k].published == None && Next(s) + 1 < U64_END
    ensures PublishStep(s, k, p).value == Published(s, k, p.message)
  {
    hide BuildPayload, Le64, ParseLe64, ParseAssignedSequence;
    if Next(s) + 1 < U64_END { AssignedSequence(Next(s) + 1); }
  }

  lemma PublishKeeps(s: State, k: Seeds, p: PublishContext)
    requires Inv(s) && PublishStep(s, k, p).Ok?
    ensures Inv(PublishStep(s, k, p).value) && Preserves(s, PublishStep(s, k, p).value)
  {
    hide BuildPayload, PublishStep, Le64, ParseLe64, OutcomesSound, MessagesOwned, StampsDistinct;
    PublishShape(s, k, p);
    Le64RoundTrip(Next(s) + 1);
    PublishKeepsSound(s, k, p.message);
    PublishKeepsOwned(s, k, p.message);
    PublishKeepsDistinct(s, k, p.message);
    PublishPreserves(s, k, p.message);
  }

  lemma PublishKeepsSound(s: State, k: Seeds, message: bytes32)
    requires OutcomesSound(s) && MessagesOwned(s) && k in s.outcomes && s.outcomes[k].published == None
    ensures OutcomesSound(Published(s, k, message))
  {
    hide BuildPayload, Le64, ParseLe64, SeedsOf;
    var t := Published(s, k, message);
    forall l | l in t.outcomes ensures SoundOutcome(t, l) { assert SoundOutcome(s, l); }
  }

  lemma PublishKeepsOwned(s: State, k: Seeds, message: bytes32)
    requires MessagesOwned(s) && k in s.outcomes && s.outcomes[k].published == None && Next(s) + 1 < U64_END
    ensures MessagesOwned(Published(s, k, message))
  {
    hide BuildPayload, Le64, ParseLe64;
    var t := Published(s, k, message);
    Le64RoundTrip(Next(s) + 1);
    forall n | n in t.messages
      ensures n < Next(t) && exists l <- t.outcomes :: StampedWith(t, l, n)
    {
      if n == Next(s) {
        assert StampedWith(t, k, n);
      } else {
        var l :| l in s.outcomes && StampedWith(s, l, n);
        assert StampedWith(t, l, n);
      }
    }
  }

  lemma PublishKeepsDistinct(s: State, k: Seeds, message: bytes32)
    requires OutcomesSound(s) && MessagesOwned(s) && StampsDistinct(s)
    requires k in s.outcomes && s.outcomes[k].published == None
    ensures StampsDistinct(Published(s, k, message))
  {
    hide BuildPayload, Le64, ParseLe64, SeedsOf;
    var t := Published(s, k, message);
    forall l, n: nat | l in s.outcomes && l != k && StampedWith(t, l, n)
      ensures StampedWith(s, l, n) && n != Next(s)
    {
      assert SoundOutcome(s, l);
    }
  }

  lemma PublishPreserves(s: State, k: Seeds, message: bytes32)
    requires MessagesOwned(s) && k in s.outcomes && s.outcomes[k].published == None && Next(s) + 1 < U64_END
    ensures Preserves(s, Published(s, k, message))
  {
    hide BuildPayload, Le64, ParseLe64;
    Le64RoundTrip(Next(s) + 1);
  }

  lemma AssignedSequence(n: nat)
    requires 0 < n < U64_END
    ensures ParseAssignedSequence(Le64(n)) == Ok(n - 1)
  {
    Le64RoundTrip(n);
    assert Le64(n)[..8] == Le64(n);
  }

  /** The inline path is verification followed by publication: it succeeds exactly when both do, and
      leaves the same state. */
  lemma InlineIsVerifyThenPublish(rt: Runtime, s: State, a: VerifyArgs, v: VerifyContext, p: PublishContext)
    ensures var inline, verified := InlineStep(rt, s, a, v, p), VerifyStep(rt, s, a, v);
            && (inline.Ok? <==> verified.Ok? && PublishStep(verified.value, ArgSeeds(a), p).Ok?)
            && (inline.Ok? ==> inline == PublishStep(verified.value, ArgSeeds(a), p))
  {
    hide RunVerification, BuildPayload, ParseAssignedSequence, Le64, ParseLe64, ArgSeeds;
    var verified := VerifyStep(rt, s, a, v);
    if verified.Ok? && PublishStep(verified.value, ArgSeeds(a), p).Ok? {
      var derived := RunVerification(rt, s.config.value, a, v).value;
      var o := Recorded(rt, s.config.value, derived, v.slot);
      assert verified.value.outcomes[ArgSeeds(a)] == o;
      var published := PublishStep(verified.value, ArgSeeds(a), p).value;
      assert published.outcomes == s.outcomes[ArgSeeds(a) := published.outcomes[ArgSeeds(a)]];
    }
  }

  lemma StepKeeps(rt: Runtime, s: State, c: Call)
    requires Inv(s)
    ensures Inv(Step(rt, s, c)) && Preserves(s, Step(rt, s, c))
  {
    hide VerifyStep, PublishStep, InlineStep, Inv, Preserves;
    match c
    case InitializeConfig(_, _, _, _, _) =>
      ConfigKeeps(s, Step(rt, s, c));
    case Verify(a, v) =>
      ConfigKeeps(s, s);
      if VerifyStep(rt, s, a, v).Ok? { RecordKeeps(rt, s, a, v); }
    case OnReport(signer, payload, v) =>
      var a := rt.parseArgs(payload);
      ConfigKeeps(s, s);
      if a.Some? && VerifyStep(rt, s, a.value, v).Ok? { RecordKeeps(rt, s, a.value, v); }
    case Publish(k, p) =>
      ConfigKeeps(s, s);
      if PublishStep(s, k, p).Ok? { PublishKeeps(s, k, p); }
    case Inline(a, v, p) =>
      ConfigKeeps(s, s);
      if InlineStep(rt, s, a, v, p).Ok? {
        InlineIsVerifyThenPublish(rt, s, a, v, p);
        RecordKeeps(rt, s, a, v);
        var t := VerifyStep(rt, s, a, v).value;
        PublishKeeps(t, ArgSeeds(a), p);
        PreservesTransitive(s, t, InlineStep(rt, s, a, v, p).value);
      }
  }

  lemma ConfigKeeps(s: State, t: State)
    requires Inv(s) && (t == s || (s.config == None && t == s.(config := t.config)))
    ensures Inv(t) && Preserves(s, t)
  {
    hide BuildPayload, Le64, ParseLe64;
    forall k | k in s.outcomes ensures SoundOutcome(t, k) { assert SoundOutcome(s, k); }
    forall n | n in s.messages
      ensures exists k <- t.outcomes :: StampedWith(t, k, n)
    {
      var k :| k in s.outcomes && StampedWith(s, k, n);
      assert StampedWith(t, k, n);
    }
    forall k, n: nat | k in t.outcomes && StampedWith(t, k, n) ensures StampedWith(s, k, n) { }
  }

  lemma PreservesTransitive(s: State, t: State, u: State)
    requires Preserves(s, t) && Preserves(t, u)
    ensures Preserves(s, u)
  {
  }

  /** Over any run from any sound state: sound states only, and nothing written before is rewritten. */
  lemma {:induction false} RunKeeps(rt: Runtime, s: State, calls: seq<Call>)
    requires Inv(s)
    ensures Inv(Run(rt, s, calls)) && Preserves(s, Run(rt, s, calls))
    decreases |calls|
  {
    if calls != [] {
      hide Inv, Preserves, Step;
      StepKeeps(rt, s, calls[0]);
      var t := Step(rt, s, calls[0]);
      RunKeeps(rt, t, calls[1..]);
      PreservesTransitive(s, t, Run(rt, t, calls[1..]));
    } else {
      PreservesSelf(s);
    }
  }

  lemma PreservesSelf(s: State)
    ensures Preserves(s, s)
  {
  }

  /** In any state of any run, extended by any further run: a published outcome's message is at its
      sequence in the later state, still carries the same payload, and decodes to exactly the frozen
      facts; and no other outcome was ever stamped with that sequence. */
  lemma PublishedForever(rt: Runtime, before: seq<Call>, after: seq<Call>, k: Seeds)
    requires k in Run(rt, GENESIS, before).outcomes && Run(rt, GENESIS, before).outcomes[k].published.Some?
    ensures var s, t := Run(rt, GENESIS, before), Run(rt, Run(rt, GENESIS, before), after);
            && k in t.outcomes && t.outcomes[k] == s.outcomes[k]
            && var stamp := t.outcomes[k].published.value;
            && stamp.wormholeSequence in t.messages
            && t.messages[stamp.wormholeSequence].account == stamp.wormholeMessage
            && t.messages[stamp.wormholeSequence].nonce == 0 && t.messages[stamp.wormholeSequence].consistencyLevel == 1
            && Payload.Decode(t.messages[stamp.wormholeSequence].payload).Ok?
            && Carries(Payload.Decode(t.messages[stamp.wormholeSequence].payload).value, t.outcomes[k].facts)
            && (forall l | l in t.outcomes && l != k :: !StampedWith(t, l, stamp.wormholeSequence))
  {
    hide *;
    GenesisInv();
    var s := Run(rt, GENESIS, before);
    RunKeeps(rt, GENESIS, before);
    RunKeeps(rt, s, after);
    PublishedIn(s, Run(rt, s, after), k);
  }

  lemma PublishedIn(s: State, t: State, k: Seeds)
    requires k in s.outcomes && s.outcomes[k].published.Some? && Preserves(s, t) && Inv(t)
    ensures k in t.outcomes && t.outcomes[k] == s.outcomes[k]
    ensures var stamp := t.outcomes[k].published.value;
            && stamp.wormholeSequence in t.messages
            && t.messages[stamp.wormholeSequence].account == stamp.wormholeMessage
            && t.messages[stamp.wormholeSequence].nonce == 0 && t.messages[stamp.wormholeSequence].consistencyLevel == 1
            && Payload.Decode(t.messages[stamp.wormholeSequence].payload).Ok?
            && Carries(Payload.Decode(t.messages[stamp.wormholeSequence].payload).value, t.outcomes[k].facts)
            && (forall l | l in t.outcomes && l != k :: !StampedWith(t, l, stamp.wormholeSequence))
  {
    hide Payload.Decode, Payload.Layout, Le64, ParseLe64, Payload.InRange, SeedsOf;
    assert SoundOutcome(t, k) && StampedWith(t, k, t.outcomes[k].published.value.wormholeSequence);
    BuiltCarries(t.outcomes[k].facts);
  }

  lemma BuiltCarries(o: Verified)
    requires o.sourceValidationVersion == SOURCE_VALIDATION_V2 && o.result in {1, 2, 3}
    ensures Payload.Decode(BuildPayload(o)).Ok? && Carries(Payload.Decode(BuildPayload(o)).value, o)
  {
    hide Payload.Decode, Payload.Layout, Payload.InRange;
    FactsFit(o);
    Payload.RoundTrip(OutcomeMessage(o));
  }

  /** The message of an outcome: its facts, no flags, and 0 for the provider's sequence, which TxLINE does
      not verify. */
  predicate Carries(m: Payload.MatchOutcome, facts: Verified) {
    && m.flags == 0 && m.scoreSequence == 0
    && m.destinationChain == facts.destinationChain && m.sourceValidationVersion == facts.sourceValidationVersion
    && m.result == facts.result && m.fixtureId == facts.fixtureId && m.proofTimestampMs == facts.proofTimestampMs
    && m.period == facts.period && m.participant1Score == facts.participant1Score
    && m.participant2Score == facts.participant2Score && m.txlineProgramId == facts.txlineProgramId
    && m.dailyRootAccount == facts.dailyRootAccount
    && m.validationInstructionHash == facts.validationInstructionHash && m.proofBundleHash == facts.proofBundleHash
  }

  lemma FactsFit(o: Verified)
    requires o.sourceValidationVersion == SOURCE_VALIDATION_V2 && o.result in {1, 2, 3}
    ensures Payload.InRange(OutcomeMessage(o))
  {
    Widths();
  }

  // -------------------------------------------------------------------------
  // Where facts come from
  // -------------------------------------------------------------------------

  /** These are the facts of a call in order to which TxLINE's mainnet program said true: the fixture and
      time of the proof, the values of the two score leaves, their winner, and what was hashed. */
  ghost predicate Attested(rt: Runtime, config: Config, a: VerifyArgs, v: VerifyContext, facts: Verified) {
    && InOrder(rt, config, a, v) && v.cpi == Returned(Some((rt.mainnetProgram, [1])))
    && facts.fixtureId == a.input.fixtureId && facts.proofTimestampMs == a.input.minTimestamp && facts.period == 100
    && (exists i: nat, j: nat ::
          && ScoreLeaf(a, 1, i) && ScoreLeaf(a, 2, j)
          && facts.participant1Score == a.input.stats[i].value && facts.participant2Score == a.input.stats[j].value)
    && Payload.NamesWinner(facts.result, facts.participant1Score, facts.participant2Score)
    && facts.sourceValidationVersion == 2 && facts.destinationChain == config.destinationChain
    && facts.txlineProgramId == rt.mainnetProgram && facts.dailyRootAccount == v.dailyRoot
    && facts.validationInstructionHash ==
       rt.keccak(rt.mainnetProgram + v.dailyRoot + rt.instructionData(v.dailyRoot, a).value)
    && facts.proofBundleHash == rt.keccak(rt.serializeInput(a.input).value) && facts.verifiedSlot == v.slot
  }

  lemma RecordedIsAttested(rt: Runtime, config: Config, a: VerifyArgs, v: VerifyContext)
    requires RunVerification(rt, config, a, v).Ok?
    ensures Attested(rt, config, a, v, Recorded(rt, config, RunVerification(rt, config, a, v).value, v.slot).facts)
  {
    hide Derive, ScoreLeaf, InOrder, Payload.NamesWinner;
    VerificationIff(rt, config, a, v);
    var i, j := LeavesOf(rt, a);
    RecordedFields(rt, config, a, v);
  }

  lemma LeavesOf(rt: Runtime, a: VerifyArgs) returns (i: nat, j: nat)
    requires Derive(rt, a).Ok?
    ensures ScoreLeaf(a, 1, i) && ScoreLeaf(a, 2, j)
    ensures Derive(rt, a).value.participant1Score == a.input.stats[i].value
    ensures Derive(rt, a).value.participant2Score == a.input.stats[j].value
  {
    hide Derive, ScoreLeaf;
    DeriveIff(rt, a);
    i, j :| ScoreLeaf(a, 1, i) && ScoreLeaf(a, 2, j);
    LeafThere(a, 1, i);
    LeafThere(a, 2, j);
  }

  lemma LeafThere(a: VerifyArgs, key: nat, i: nat)
    requires ScoreLeaf(a, key, i)
    ensures i < |a.input.stats|
  {
  }

  lemma RecordedFields(rt: Runtime, config: Config, a: VerifyArgs, v: VerifyContext)
    requires RunVerification(rt, config, a, v).Ok?
    ensures Derive(rt, a).Ok? && rt.instructionData(v.dailyRoot, a).Some? && rt.serializeInput(a.input).Some?
    ensures var facts, d := Recorded(rt, config, RunVerification(rt, config, a, v).value, v.slot).facts,
                            Derive(rt, a).value;
            && facts.fixtureId == a.input.fixtureId && facts.proofTimestampMs == a.input.minTimestamp
            && facts.period == 100 && facts.sourceValidationVersion == 2
            && facts.participant1Score == d.participant1Score && facts.participant2Score == d.participant2Score
            && Payload.NamesWinner(facts.result, facts.participant1Score, facts.participant2Score)
            && facts.destinationChain == config.destinationChain && facts.txlineProgramId == rt.mainnetProgram
            && facts.dailyRootAccount == v.dailyRoot && facts.verifiedSlot == v.slot
            && facts.validationInstructionHash ==
               rt.keccak(rt.mainnetProgram + v.dailyRoot + rt.instructionData(v.dailyRoot, a).value)
            && facts.proofBundleHash == rt.keccak(rt.serializeInput(a.input).value)
  {
    hide Count, BoundExactly, Payload.NamesWinner;
  }

  /** This call, made in this state, succeeds by verifying these facts for an outcome not there before. */
  ghost predicate Verifies(rt: Runtime, s: State, c: Call, k: Seeds, facts: Verified) {
    && TryStep(rt, s, c).Ok? && k !in s.outcomes && s.config.Some?
    && match c
       case Verify(a, v) => k == ArgSeeds(a) && Attested(rt, s.config.value, a, v, facts)
       case OnReport(signer, payload, v) =>
         && signer == s.config.value.forwarderAuthority && rt.parseArgs(payload).Some?
         && k == ArgSeeds(rt.parseArgs(payload).value)
         && Attested(rt, s.config.value, rt.parseArgs(payload).value, v, facts)
       case Inline(a, v, _) => k == ArgSeeds(a) && Attested(rt, s.config.value, a, v, facts)
       case _ => false
  }

  lemma StepOrigin(rt: Runtime, s: State, c: Call, k: Seeds)
    requires k in Step(rt, s, c).outcomes
    ensures var facts := Step(rt, s, c).outcomes[k].facts;
            (k in s.outcomes && s.outcomes[k].facts == facts) || Verifies(rt, s, c, k, facts)
  {
    hide RunVerification, BuildPayload, ParseAssignedSequence, Le64, ParseLe64, ArgSeeds, Attested, Recorded;
    match c
    case Verify(a, v) => IfVerified(rt, s, a, v);
    case OnReport(_, payload, v) =>
      if rt.parseArgs(payload).Some? {
        IfVerified(rt, s, rt.parseArgs(payload).value, v);
      }
    case Inline(a, v, _) => IfVerified(rt, s, a, v);
    case _ =>
  }

  lemma IfVerified(rt: Runtime, s: State, a: VerifyArgs, v: VerifyContext)
    ensures s.config.Some? && RunVerification(rt, s.config.value, a, v).Ok? ==>
              Attested(rt, s.config.value, a, v,
                       Recorded(rt, s.config.value, RunVerification(rt, s.config.value, a, v).value, v.slot).facts)
  {
    hide RunVerification, Recorded, Attested;
    if s.config.Some? && RunVerification(rt, s.config.value, a, v).Ok? {
      RecordedIsAttested(rt, s.config.value, a, v);
    }
  }

  lemma {:induction false} RunOrigin(rt: Runtime, s: State, calls: seq<Call>, k: Seeds) returns (n: nat)
    requires k in Run(rt, s, calls).outcomes
    ensures var facts := Run(rt, s, calls).outcomes[k].facts;
            || (k in s.outcomes && s.outcomes[k].facts == facts)
            || (n < |calls| && Verifies(rt, Run(rt, s, calls[..n]), calls[n], k, facts))
    decreases |calls|
  {
    hide Step, Verifies;
    if calls == [] {
      n := 0;
    } else {
      var t := Step(rt, s, calls[0]);
      var later := RunOrigin(rt, t, calls[1..], k);
      if k in t.outcomes && t.outcomes[k].facts == Run(rt, s, calls).outcomes[k].facts {
        n := 0;
        StepOrigin(rt, s, calls[0], k);
        assert calls[..0] == [];
      } else {
        n := later + 1;
        assert calls[..n][1..] == calls[1..][..later];
      }
    }
  }

  /** An outcome's facts are those one call of the run verified, when the outcome did not exist yet, and
      they are the same in every later state. */
  lemma VerifiedForever(rt: Runtime, before: seq<Call>, after: seq<Call>, k: Seeds) returns (n: nat)
    requires k in Run(rt, GENESIS, before).outcomes
    ensures n < |before|
    ensures Verifies(rt, Run(rt, GENESIS, before[..n]), before[n], k, Run(rt, GENESIS, before).outcomes[k].facts)
    ensures var s, t := Run(rt, GENESIS, before), Run(rt, Run(rt, GENESIS, before), after);
            k in t.outcomes && t.outcomes[k].facts == s.outcomes[k].facts
  {
    hide Run, Verifies, Inv;
    n := RunOrigin(rt, GENESIS, before, k);
    GenesisInv();
    RunKeeps(rt, GENESIS, before);
    RunKeeps(rt, Run(rt, GENESIS, before), after);
  }

  /** So every message ever posted carries facts some call of the run verified. */
  lemma MessageOrigin(rt: Runtime, calls: seq<Call>, sequence: nat) returns (k: Seeds, n: nat)
    requires sequence in Run(rt, GENESIS, calls).messages
    ensures k in Run(rt, GENESIS, calls).outcomes && n < |calls|
    ensures var s := Run(rt, GENESIS, calls);
            && Payload.Decode(s.messages[sequence].payload).Ok?
            && Carries(Payload.Decode(s.messages[sequence].payload).value, s.outcomes[k].facts)
            && Verifies(rt, Run(rt, GENESIS, calls[..n]), calls[n], k, s.outcomes[k].facts)
  {
    hide Run, Verifies, BuildPayload, SeedsOf, Le64, ParseLe64;
    GenesisInv();
    RunKeeps(rt, GENESIS, calls);
    var s := Run(rt, GENESIS, calls);
    k :| k in s.outcomes && StampedWith(s, k, sequence);
    assert SoundOutcome(s, k);
    BuiltCarries(s.outcomes[k].facts);
    n := RunOrigin(rt, GENESIS, calls, k);
    assert k !in GENESIS.outcomes;
  }

  // -------------------------------------------------------------------------
  // What each instruction does
  // -------------------------------------------------------------------------

  /** initialize_config: once, for the mainnet program. */
  lemma InitializeSays(rt: Runtime, s: State, admin: bytes32, program: bytes32, core: bytes32, forwarder: bytes32,
                       destination: u16)
    ensures var r := TryStep(rt, s, Call.InitializeConfig(admin, program, core, forwarder, destination));
            && (s.config.Some? ==> r == Err(AccountAlreadyExists))
            && (s.config == None && program != rt.mainnetProgram ==> r == Err(WrongTxlineProgram))
            && (s.config == None && program == rt.mainnetProgram ==>
                  r == Ok(s.(config := Some(Config(admin, rt.mainnetProgram, core, forwarder, destination)))))
  {
  }

  /** Only an outcome was added: unpublished, and with facts TxLINE's program attested. */
  ghost predicate Adds(rt: Runtime, s: State, t: State, a: VerifyArgs, v: VerifyContext)
    requires s.config.Some?
  {
    var k := (Be(a.input.fixtureId, 8), Be(a.input.minTimestamp, 8));
    && k in t.outcomes && t == s.(outcomes := s.outcomes[k := t.outcomes[k]])
    && t.outcomes[k].published == None && Attested(rt, s.config.value, a, v, t.outcomes[k].facts)
  }

  /** verify_outcome: exactly for a call in order, of an outcome not there yet, that the mainnet program
      answers with the one byte 1. */
  lemma VerifySays(rt: Runtime, s: State, a: VerifyArgs, v: VerifyContext)
    ensures var r, k := TryStep(rt, s, Verify(a, v)), (Be(a.input.fixtureId, 8), Be(a.input.minTimestamp, 8));
            && (s.config == None ==> r == Err(AccountMissing))
            && (s.config.Some? && k in s.outcomes ==> r == Err(AccountAlreadyExists))
            && (s.config.Some? && k !in s.outcomes ==>
                  && (r.Ok? <==> InOrder(rt, s.config.value, a, v) && v.cpi == Returned(Some((rt.mainnetProgram, [1]))))
                  && (r.Ok? ==> Adds(rt, s, r.value, a, v)))
  {
    hide RunVerification, InOrder, Attested, Payload.DeriveResult;
    IfVerified(rt, s, a, v);
    if s.config.Some? {
      VerificationIff(rt, s.config.value, a, v);
      var r, k := VerifyStep(rt, s, a, v), ArgSeeds(a);
      if r.Ok? {
        assert r.value.outcomes == s.outcomes[k := r.value.outcomes[k]];
      }
    }
  }

  /** on_report: the same, for the forwarder alone and for a payload that parses. */
  lemma OnReportSays(rt: Runtime, s: State, signer: bytes32, payload: bytes, v: VerifyContext)
    ensures var r, parsed := TryStep(rt, s, Call.OnReport(signer, payload, v)), rt.parseArgs(payload);
            && (s.config == None ==> r == Err(AccountMissing))
            && (s.config.Some? && signer != s.config.value.forwarderAuthority ==> r == Err(ForwarderMismatch))
            && (s.config.Some? && signer == s.config.value.forwarderAuthority ==>
                  match parsed
                  case Some(a) => r == TryStep(rt, s, Verify(a, v))
                  case None =>
                    r == Err(if ([0, 0, 0, 0, 0, 0, 0, 0], [0, 0, 0, 0, 0, 0, 0, 0]) in s.outcomes
                             then AccountAlreadyExists else BadReportPayload))
  {
    hide VerifyStep;
    assert ZERO_SEEDS.0 == [0, 0, 0, 0, 0, 0, 0, 0] == ZERO_SEEDS.1;
  }

  /** publish_outcome: once, through the configured core, while the bridge takes the message and sequences
      are left; the message is posted under the next one. */
  lemma PublishSays(rt: Runtime, s: State, k: Seeds, p: PublishContext)
    requires Inv(s)
    ensures var r := TryStep(rt, s, Publish(k, p));
            && (s.config == None || k !in s.outcomes ==> r == Err(AccountMissing))
            && (s.config.Some? && k in s.outcomes && s.outcomes[k].published.Some? ==> r == Err(AlreadyPublished))
            && (s.config.Some? && k in s.outcomes && s.outcomes[k].published == None ==>
                  if p.wormholeProgram != s.config.value.wormholeCore then r == Err(WrongWormholeProgram)
                  else if !p.bridgeAccepts || Next(s) + 1 >= 0x1_0000_0000_0000_0000 then r == Err(BridgeFailed)
                  else r.Ok? && Posts(s, r.value, k, p.message))
  {
    hide BuildPayload, ParseAssignedSequence, Le64, ParseLe64, Inv, OutcomesSound, MessagesOwned, StampsDistinct;
    if PublishStep(s, k, p).Ok? {
      PublishShape(s, k, p);
      PostsIs(s, k, p.message);
    }
    if Next(s) + 1 < U64_END { AssignedSequence(Next(s) + 1); }
  }

  /** The outcome's facts were posted under the tracker's sequence, the outcome is stamped with it, and
      the tracker counts one further. */
  ghost predicate Posts(s: State, t: State, k: Seeds, message: bytes32) {
    && k in s.outcomes && Next(s) in t.messages && Next(t) == Next(s) + 1
    && t.config == s.config && t.messages == s.messages[Next(s) := t.messages[Next(s)]]
    && t.outcomes == s.outcomes[k := VerifiedOutcome(s.outcomes[k].facts, Some(Stamp(Next(s), message)))]
    && t.messages[Next(s)].account == message && t.messages[Next(s)].nonce == 0
    && t.messages[Next(s)].consistencyLevel == 1 && Payload.Decode(t.messages[Next(s)].payload).Ok?
    && Carries(Payload.Decode(t.messages[Next(s)].payload).value, s.outcomes[k].facts)
  }

  lemma PostsIs(s: State, k: Seeds, message: bytes32)
    requires Inv(s) && k in s.outcomes && Next(s) + 1 < U64_END
    ensures Posts(s, Published(s, k, message), k, message)
  {
    hide BuildPayload, Le64, ParseLe64, Payload.Decode, SeedsOf, Carries, MessagesOwned, StampsDistinct;
    assert SoundOutcome(s, k);
    Le64RoundTrip(Next(s) + 1);
    BuiltCarries(s.outcomes[k].facts);
  }

  /** verify_and_publish_inline: refused for an outcome already there or another core before anything is
      verified; then the answers of verify_outcome and of the bridge, and the effect of both. */
  lemma InlineSays(rt: Runtime, s: State, a: VerifyArgs, v: VerifyContext, p: PublishContext)
    requires Inv(s)
    ensures var r, verified, k := TryStep(rt, s, Inline(a, v, p)), TryStep(rt, s, Verify(a, v)),
                                  (Be(a.input.fixtureId, 8), Be(a.input.minTimestamp, 8));
            if s.config == None then r == Err(AccountMissing)
            else if k in s.outcomes then r == Err(AccountAlreadyExists)
            else if p.wormholeProgram != s.config.value.wormholeCore then r == Err(WrongWormholeProgram)
            else if verified.Err? then r == verified
            else if !p.bridgeAccepts || Next(s) + 1 >= 0x1_0000_0000_0000_0000 then r == Err(BridgeFailed)
            else r.Ok? && Posts(verified.value, r.value, k, p.message)
  {
    hide RunVerification, Recorded, BuildPayload, ParseAssignedSequence, Le64, ParseLe64, Inv, Posts, PublishStep,
         OutcomesSound, MessagesOwned, StampsDistinct;
    InlineIsVerifyThenPublish(rt, s, a, v, p);
    if VerifyStep(rt, s, a, v).Ok? {
      RecordKeeps(rt, s, a, v);
      assert VerifyStep(rt, s, a, v).value.outcomes[ArgSeeds(a)].published == None by { RecordedBare(rt, s, a, v); }
      PublishSays(rt, VerifyStep(rt, s, a, v).value, ArgSeeds(a), p);
    }
    if Next(s) + 1 < U64_END { AssignedSequence(Next(s) + 1); }
  }

  lemma RecordedBare(rt: Runtime, s: State, a: VerifyArgs, v: VerifyContext)
    requires VerifyStep(rt, s, a, v).Ok?
    ensures ArgSeeds(a) in VerifyStep(rt, s, a, v).value.outcomes
    ensures VerifyStep(rt, s, a, v).value.outcomes[ArgSeeds(a)].published == None
  {
    hide RunVerification, ArgSeeds, Payload.DeriveResult;
  }

  // -------------------------------------------------------------------------
  // The handlers, over accounts they update in place
  // -------------------------------------------------------------------------

  /** A handler either produced the step's state or failed and left everything as it was. */
  predicate Executed(before: State, step: Result<State, AdapterError>, after: State, r: Result<(), AdapterError>)
  {
    match step
    case Ok(t) => r == Ok(()) && after == t
    case Err(e) => r == Err(e) && after == before
  }

  method RunTxlineVerification(rt: Runtime, config: Config, a: VerifyArgs, v: VerifyContext)
    returns (r: Result<DerivedOutcome, AdapterError>)
    ensures r == RunVerification(rt, config, a, v)
  {
    if config.txlineProgramId != rt.mainnetProgram || v.txlineProgram != rt.mainnetProgram || !v.executable {
      return Err(WrongTxlineProgram);
    }
    var derived := DeriveOutcome(rt, a);
    if derived.Err? {
      return derived;
    }
    var root := rt.dailyScoresPda(derived.value.proofTimestampMs);
    if root == None || v.dailyRoot != root.value {
      return Err(WrongDailyRoot);
    }
    var data := rt.instructionData(v.dailyRoot, a);
    if data == None {
      return Err(SerializationFailed);
    }
    if v.cpi.Failed? {
      return Err(CpiFailed);
    }
    var verdict := RequireTrue(rt, v.cpi.data);
    if verdict.Err? {
      return Err(verdict.error);
    }
    r := Ok(derived.value.(dailyRootAccount := v.dailyRoot,
                           validationInstructionHash := rt.keccak(rt.mainnetProgram + v.dailyRoot + data.value)));
  }

  class Accounts {
    var config: Option<Config>
    var outcomes: map<Seeds, VerifiedOutcome>
    var tracker: bytes
    var messages: map<nat, Message>

    function Abstract(): State
      reads this
    {
      State(config, outcomes, tracker, messages)
    }

    constructor ()
      ensures Abstract() == GENESIS
    {
      config, outcomes, tracker, messages := None, map[], Le64(0), map[];
    }

    method InitializeConfig(rt: Runtime, admin: bytes32, program: bytes32, core: bytes32, forwarder: bytes32,
                            destination: u16)
      returns (r: Result<(), AdapterError>)
      modifies this
      ensures Executed(old(Abstract()),
                       TryStep(rt, old(Abstract()),
                               Call.InitializeConfig(admin, program, core, forwarder, destination)), Abstract(), r)
    {
      if config.Some? {
        return Err(AccountAlreadyExists);
      }
      if program != rt.mainnetProgram {
        return Err(WrongTxlineProgram);
      }
      config := Some(Config(admin, rt.mainnetProgram, core, forwarder, destination));
      return Ok(());
    }

    method VerifyOutcome(rt: Runtime, a: VerifyArgs, v: VerifyContext) returns (r: Result<(), AdapterError>)
      modifies this
      ensures Executed(old(Abstract()), TryStep(rt, old(Abstract()), Verify(a, v)), Abstract(), r)
    {
      if config == None {
        return Err(AccountMissing);
      }
      if ArgSeeds(a) in outcomes {
        return Err(AccountAlreadyExists);
      }
      var derived := RunTxlineVerification(rt, config.value, a, v);
      if derived.Err? {
        return Err(derived.error);
      }
      outcomes := outcomes[ArgSeeds(a) := Recorded(rt, config.value, derived.value, v.slot)];
      return Ok(());
    }

    method OnReport(rt: Runtime, signer: bytes32, payload: bytes, v: VerifyContext)
      returns (r: Result<(), AdapterError>)
      modifies this
      ensures Executed(old(Abstract()), TryStep(rt, old(Abstract()), Call.OnReport(signer, payload, v)), Abstract(), r)
    {
      if config == None {
        return Err(AccountMissing);
      }
      if signer != config.value.forwarderAuthority {
        return Err(ForwarderMismatch);
      }
      var parsed := rt.parseArgs(payload);
      var seeds := if parsed.Some? then ArgSeeds(parsed.value) else ZERO_SEEDS;
      if seeds in outcomes {
        return Err(AccountAlreadyExists);
      }
      if parsed == None {
        return Err(BadReportPayload);
      }
      r := VerifyOutcome(rt, parsed.value, v);
    }

    /** post_message: the bridge posts and advances its tracker, which is then read back. */
    method PostMessage(m: Message, bridgeAccepts: bool) returns (sequence: Result<nat, AdapterError>)
      requires tracker == Le64(Next(Abstract())) && Next(Abstract()) < U64_END
      modifies this
      ensures match BridgePost(old(Abstract()), m, bridgeAccepts)
              case Ok(t) => Abstract() == t && sequence == Ok(Next(old(Abstract())))
              case Err(e) => Abstract() == old(Abstract()) && sequence == Err(e)
    {
      var next := ParseLe64(tracker);
      if !bridgeAccepts || next + 1 >= U64_END {
        return Err(BridgeFailed);
      }
      messages := messages[next := m];
      tracker := Le64(next + 1);
      AssignedSequence(next + 1);
      sequence := ParseAssignedSequence(tracker);
    }

    method PublishOutcome(rt: Runtime, k: Seeds, p: PublishContext) returns (r: Result<(), AdapterError>)
      requires tracker == Le64(Next(Abstract())) && Next(Abstract()) < U64_END
      modifies this
      ensures Executed(old(Abstract()), TryStep(rt, old(Abstract()), Publish(k, p)), Abstract(), r)
    {
      if config == None || k !in outcomes {
        return Err(AccountMissing);
      }
      if outcomes[k].published.Some? {
        return Err(AlreadyPublished);
      }
      if p.wormholeProgram != config.value.wormholeCore {
        return Err(WrongWormholeProgram);
      }
      var o := outcomes[k];
      AssignedNext(Abstract());
      var sequence := PostMessage(
        Message(p.message, BuildPayload(o.facts), WORMHOLE_NONCE, CONSISTENCY_LEVEL_FINALIZED), p.bridgeAccepts);
      if sequence.Err? {
        return Err(sequence.error);
      }
      outcomes := outcomes[k := o.(published := Some(Stamp(sequence.value, p.message)))];
      return Ok(());
    }

    /** Records, posts and stamps in place; a failed post reverts the record with the transaction. */
    method VerifyAndPublishInline(rt: Runtime, a: VerifyArgs, v: VerifyContext, p: PublishContext)
      returns (r: Result<(), AdapterError>)
      requires tracker == Le64(Next(Abstract())) && Next(Abstract()) < U64_END
      modifies this
      ensures Executed(old(Abstract()), TryStep(rt, old(Abstract()), Inline(a, v, p)), Abstract(), r)
    {
      hide RunVerification, Recorded, BuildPayload, ParseLe64, Le64, ParseAssignedSequence;
      if config == None {
        return Err(AccountMissing);
      }
      if ArgSeeds(a) in outcomes {
        return Err(AccountAlreadyExists);
      }
      if p.wormholeProgram != config.value.wormholeCore {
        return Err(WrongWormholeProgram);
      }
      var derived := RunTxlineVerification(rt, config.value, a, v);
      if derived.Err? {
        return Err(derived.error);
      }
      var reverted := outcomes;
      var o := Recorded(rt, config.value, derived.value, v.slot);
      AssignedNext(Abstract());
      outcomes := outcomes[ArgSeeds(a) := o];
      var sequence := PostMessage(
        Message(p.message, BuildPayload(o.facts), WORMHOLE_NONCE, CONSISTENCY_LEVEL_FINALIZED), p.bridgeAccepts);
      if sequence.Err? {
        outcomes := reverted;
        return Err(sequence.error);
      }
      outcomes := outcomes[ArgSeeds(a) := o.(published := Some(Stamp(sequence.value, p.message)))];
      assert outcomes == reverted[ArgSeeds(a) := o.(published := Some(Stamp(sequence.value, p.message)))];
      return Ok(());
    }
  }

  lemma AssignedNext(s: State)
    requires Next(s) < U64_END
    ensures Next(s) + 1 < U64_END ==> ParseAssignedSequence(Le64(Next(s) + 1)) == Ok(Next(s))
  {
    if Next(s) + 1 < U64_END { AssignedSequence(Next(s) + 1); }
  }
}
