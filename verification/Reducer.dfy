/** The event-sourced control room: one reducer behind live view and replay
    (packages/event-model/src/state-machine.ts). */
module Reducer {
  import opened Bytes

  datatype Event =
    | Heartbeat(at: int, nextAt: int)
    | FinalRecordObserved(fixtureId: string, sequence: string)
    | ProofAvailable(proofHash: bytes32, rootPda: string)
    | ProofStaged(solanaSignature: string)
    | SolanaVerifySubmitted(signature: string)
    | TxlineCpiVerified(slot: int)
    | WormholeMessagePublished(emitter: string, messageSequence: string)
    | VaaReady(vaaHash: bytes32, signatures: seq<int>)
    | Level3RpcResult(provider: string, agreed: bool, simulationDigest: bytes32)
    | Level3BaseFinalized(level3Tx: string)
    | Level4BaseSubmitted(level4Tx: string)
    | BaseVaaVerified(blockNumber: int)
    | DualFinalityReached(attestationId: bytes32)
    | ConsumerSettled(settleTx: string)
    | RunFailed(stage: string, reason: string)

  datatype RunEvent = RunEvent(seq_: int, at: int, simulated: bool, event: Event)

  datatype LaneStatus = Idle | InProgress | LaneDone | LaneFailed
  datatype StepState = Pending | Active | Done | Failed
  datatype Finality = Unknown | CREAttested | WormholeVerified | DualFinalized

  datatype RpcResult = RpcResult(provider: string, agreed: bool, simulationDigest: bytes32)

  datatype Level3Lane = Level3Lane(status: LaneStatus, rpcResults: seq<RpcResult>, baseTxHash: Option<string>)

  datatype Level4Lane = Level4Lane(
    status: LaneStatus, proofStagedSig: Option<string>, verifySig: Option<string>, verifiedSlot: Option<int>,
    wormholeEmitter: Option<string>, wormholeSequence: Option<string>, vaaHash: Option<bytes32>,
    guardianSignatures: seq<int>, baseTxHash: Option<string>, baseVerifiedBlock: Option<int>)

  type Steps = s: seq<StepState> | |s| == 6 witness seq(6, i => Pending)

  datatype ControlRoom = ControlRoom(
    heartbeatLast: Option<(int, int)>, heartbeatCount: nat, finalRecord: Option<(string, string)>,
    proof: Option<(bytes32, string)>, level3: Level3Lane, level4: Level4Lane, finality: Finality,
    attestationId: Option<bytes32>, settledTxHash: Option<string>, failure: Option<(string, string)>,
    steps: Steps, lastSeq: int, lastEventAt: Option<int>)

  function InitialState(): ControlRoom
  {
    ControlRoom(
      None, 0, None, None, Level3Lane(Idle, [], None),
      Level4Lane(Idle, None, None, None, None, None, None, [], None, None),
      Unknown, None, None, None, seq(6, i => if i == 0 then Active else Pending), -1, None)
  }

  /** setStep(id, state): earlier steps become done unless they failed, later ones stay. */
  function SetStep(steps: Steps, id: nat, state: StepState): Steps
    requires 1 <= id <= 6
  {
    seq(6, i requires 0 <= i < 6 =>
          if i < id - 1 && steps[i] != Failed then Done else if i == id - 1 then state else steps[i])
  }

  /** The id of the first active step, 0 if there is none. */
  function ActiveStep(steps: seq<StepState>): (id: nat)
    ensures id <= |steps|
  {
    if steps == [] then 0
    else if steps[0] == Active then 1
    else var rest := ActiveStep(steps[1..]); if rest == 0 then 0 else rest + 1
  }

  predicate StartsWith(s: string, prefix: string) { |prefix| <= |s| && s[..|prefix|] == prefix }

  function WithoutProvider(rs: seq<RpcResult>, provider: string): seq<RpcResult>
  {
    if rs == [] then []
    else if rs[0].provider == provider then WithoutProvider(rs[1..], provider)
    else [rs[0]] + WithoutProvider(rs[1..], provider)
  }

  /** The effect of an event, its envelope aside. */
  function Effect(s: ControlRoom, e: Event): ControlRoom
  {
    match e
    case Heartbeat(at, nextAt) => s.(heartbeatLast := Some((at, nextAt)), heartbeatCount := s.heartbeatCount + 1)
    case FinalRecordObserved(f, q) =>
      s.(finalRecord := Some((f, q)), steps := SetStep(SetStep(s.steps, 1, Done), 2, Active))
    case ProofAvailable(h, pda) =>
      s.(proof := Some((h, pda)), steps := SetStep(SetStep(s.steps, 2, Done), 3, Active),
         level3 := s.level3.(status := InProgress), level4 := s.level4.(status := InProgress))
    case ProofStaged(sig) => s.(level4 := s.level4.(proofStagedSig := Some(sig)))
    case SolanaVerifySubmitted(sig) => s.(level4 := s.level4.(verifySig := Some(sig)))
    case TxlineCpiVerified(slot) =>
      s.(level4 := s.level4.(verifiedSlot := Some(slot)), steps := SetStep(SetStep(s.steps, 3, Done), 4, Active))
    case WormholeMessagePublished(emitter, q) =>
      s.(level4 := s.level4.(wormholeEmitter := Some(emitter), wormholeSequence := Some(q)))
    case VaaReady(h, signatures) =>
      s.(level4 := s.level4.(vaaHash := Some(h), guardianSignatures := signatures),
         steps := SetStep(SetStep(s.steps, 4, Done), 5, Active))
    case Level3RpcResult(p, agreed, digest) =>
      s.(level3 := s.level3.(rpcResults := WithoutProvider(s.level3.rpcResults, p) + [RpcResult(p, agreed, digest)]))
    case Level3BaseFinalized(tx) =>
      s.(level3 := s.level3.(baseTxHash := Some(tx), status := LaneDone),
         finality := if s.finality == Unknown then CREAttested else s.finality)
    case Level4BaseSubmitted(tx) => s.(level4 := s.level4.(baseTxHash := Some(tx)))
    case BaseVaaVerified(block) =>
      s.(level4 := s.level4.(baseVerifiedBlock := Some(block), status := LaneDone),
         steps := SetStep(SetStep(s.steps, 5, Done), 6, Active),
         finality := if s.finality == Unknown then WormholeVerified else s.finality)
    case DualFinalityReached(id) => s.(finality := DualFinalized, attestationId := Some(id))
    case ConsumerSettled(tx) => s.(settledTxHash := Some(tx), steps := SetStep(s.steps, 6, Done))
    case RunFailed(stage, reason) =>
      var active := ActiveStep(s.steps);
      s.(failure := Some((stage, reason)),
         steps := if active > 0 then SetStep(s.steps, active, Failed) else s.steps,
         level3 := if StartsWith(stage, "level3") then s.level3.(status := LaneFailed) else s.level3,
         level4 := if StartsWith(stage, "level4") then s.level4.(status := LaneFailed) else s.level4)
  }

  /** applyEvent */
  function Apply(s: ControlRoom, re: RunEvent): ControlRoom
  {
    Effect(s.(lastSeq := re.seq_, lastEventAt := Some(re.at)), re.event)
  }

  /** The last event applied last. */
  function Fold(s: ControlRoom, events: seq<RunEvent>): ControlRoom
  {
    if events == [] then s else Apply(Fold(s, events[..|events| - 1]), events[|events| - 1])
  }

  lemma {:induction false} FoldAppend(s: ControlRoom, a: seq<RunEvent>, b: seq<RunEvent>)
    ensures Fold(s, a + b) == Fold(Fold(s, a), b)
  {
    if b == [] {
      assert a + b == a;
    } else {
      var n := |b| - 1;
      assert (a + b)[..|a + b| - 1] == a + b[..n];
      FoldAppend(s, a, b[..n]);
    }
  }

  // -------------------------------------------------------------------------
  // Replay
  // -------------------------------------------------------------------------

  /** How many events come before the first one past the scrub position. */
  function Reach(events: seq<RunEvent>, scrub: int): (n: nat)
    ensures n <= |events|
    ensures forall i | 0 <= i < n :: events[i].seq_ <= scrub
    ensures n < |events| ==> events[n].seq_ > scrub
  {
    if events == [] || events[0].seq_ > scrub then 0 else 1 + Reach(events[1..], scrub)
  }

  function Replay(events: seq<RunEvent>, scrub: int): ControlRoom {
    Fold(InitialState(), events[..Reach(events, scrub)])
  }

  method ReplayTo(events: seq<RunEvent>, scrub: int) returns (s: ControlRoom)
    ensures s == Replay(events, scrub)
  {
    s := InitialState();
    for i := 0 to |events|
      invariant i <= Reach(events, scrub) && s == Fold(InitialState(), events[..i])
    {
      var re := events[i];
      if re.seq_ > scrub {
        return;
      }
      s := Apply(s, re);
      assert events[..i + 1][..i] == events[..i];
    }
  }

  /** Scrubbing further is replaying to here and folding what lies between. */
  lemma ReplayFurther(events: seq<RunEvent>, s: int, t: int)
    requires s <= t
    ensures Reach(events, s) <= Reach(events, t)
    ensures Replay(events, t) == Fold(Replay(events, s), events[Reach(events, s)..Reach(events, t)])
  {
    var m, n := Reach(events, s), Reach(events, t);
    assert events[..n] == events[..m] + events[m..n];
    FoldAppend(InitialState(), events[..m], events[m..n]);
  }

  // -------------------------------------------------------------------------
  // Finality
  // -------------------------------------------------------------------------

  function FinalityRank(f: Finality): nat { if f == Unknown then 0 else if f == DualFinalized then 2 else 1 }

  /** Finality never falls back, never changes lane and never leaves DualFinalized. */
  lemma {:induction false} FinalityOnlyRises(s: ControlRoom, events: seq<RunEvent>)
    ensures FinalityRank(s.finality) <= FinalityRank(Fold(s, events).finality)
    ensures FinalityRank(Fold(s, events).finality) == FinalityRank(s.finality) ==>
              Fold(s, events).finality == s.finality
  {
    if events != [] {
      FinalityOnlyRises(s, events[..|events| - 1]);
    }
  }

  /** What one event does to finality, the id and the settlement. */
  lemma FinalityAfter(s: ControlRoom, re: RunEvent)
    ensures var t := Apply(s, re);
            match re.event
            case DualFinalityReached(id) =>
              t.finality == DualFinalized && t.attestationId == Some(id) && t.settledTxHash == s.settledTxHash
            case ConsumerSettled(tx) =>
              t.finality == s.finality && t.attestationId == s.attestationId && t.settledTxHash == Some(tx)
            case _ =>
              (t.finality == DualFinalized <==> s.finality == DualFinalized)
              && t.attestationId == s.attestationId && t.settledTxHash == s.settledTxHash
  {
    hide SetStep, ActiveStep, WithoutProvider, StartsWith;
  }

  predicate IdIffDual(s: ControlRoom) { s.attestationId.Some? <==> s.finality == DualFinalized }

  /** The id of the last DUAL_FINALITY_REACHED. */
  function LastDual(events: seq<RunEvent>): Option<bytes32>
  {
    if events == [] then None
    else
      match events[|events| - 1].event
      case DualFinalityReached(id) => Some(id)
      case _ => LastDual(events[..|events| - 1])
  }

  /** On every event run the room is DualFinalized exactly when some event announced it, and then it
      shows the id announced last. */
  lemma {:induction false} DualIsAnnounced(events: seq<RunEvent>)
    ensures IdIffDual(Fold(InitialState(), events))
    ensures Fold(InitialState(), events).attestationId == LastDual(events)
  {
    hide Apply;
    if events != [] {
      DualIsAnnounced(events[..|events| - 1]);
      FinalityAfter(Fold(InitialState(), events[..|events| - 1]), events[|events| - 1]);
    }
  }

  predicate Finalizes(e: Event) { e.Level3BaseFinalized? || e.BaseVaaVerified? }

  /** No DUAL_FINALITY_REACHED in the stream. */
  predicate Undecided(events: seq<RunEvent>) { forall e <- events :: !e.event.DualFinalityReached? }

  /** The position of the first event that finalizes a lane on Base, the length of the stream if none does. */
  predicate FirstFinalized(events: seq<RunEvent>, k: nat) {
    && k <= |events| && (forall j | 0 <= j < k :: !Finalizes(events[j].event))
    && (k < |events| ==> Finalizes(events[k].event))
  }

  /** Until dual finality is announced, THE FINALITY SHOWN is that of the lane whose finalizing event came
      first in the stream, and none exactly when neither came. */
  lemma {:induction false} FinalityIsFirst(events: seq<RunEvent>) returns (k: nat)
    requires Undecided(events)
    ensures FirstFinalized(events, k)
    ensures var f := Fold(InitialState(), events).finality;
            && (f == CREAttested <==> k < |events| && events[k].event.Level3BaseFinalized?)
            && (f == WormholeVerified <==> k < |events| && events[k].event.BaseVaaVerified?)
            && (f == Unknown <==> k == |events|)
  {
    hide Apply;
    k := 0;
    if events != [] {
      var n := |events| - 1;
      k := FinalityIsFirst(events[..n]);
      FinalityStep(Fold(InitialState(), events[..n]), events[n]);
      if k == n && !Finalizes(events[n].event) { k := n + 1; }
    }
  }

  lemma FinalityStep(s: ControlRoom, re: RunEvent)
    requires !re.event.DualFinalityReached?
    ensures Apply(s, re).finality ==
            if s.finality != Unknown || !Finalizes(re.event) then s.finality
            else if re.event.Level3BaseFinalized? then CREAttested else WormholeVerified
  {
    hide SetStep, ActiveStep, WithoutProvider, StartsWith;
  }

  // -------------------------------------------------------------------------
  // What the room shows
  // -------------------------------------------------------------------------

  predicate SameKind(a: Event, b: Event) {
    match a
    case Heartbeat(_, _) => b.Heartbeat?
    case FinalRecordObserved(_, _) => b.FinalRecordObserved?
    case ProofAvailable(_, _) => b.ProofAvailable?
    case ProofStaged(_) => b.ProofStaged?
    case SolanaVerifySubmitted(_) => b.SolanaVerifySubmitted?
    case TxlineCpiVerified(_) => b.TxlineCpiVerified?
    case WormholeMessagePublished(_, _) => b.WormholeMessagePublished?
    case VaaReady(_, _) => b.VaaReady?
    case Level3RpcResult(_, _, _) => b.Level3RpcResult?
    case Level3BaseFinalized(_) => b.Level3BaseFinalized?
    case Level4BaseSubmitted(_) => b.Level4BaseSubmitted?
    case BaseVaaVerified(_) => b.BaseVaaVerified?
    case DualFinalityReached(_) => b.DualFinalityReached?
    case ConsumerSettled(_) => b.ConsumerSettled?
    case RunFailed(_, _) => b.RunFailed?
  }

  /** What the event carries is on display. The table of providers is RpcTable's matter. */
  predicate Displays(s: ControlRoom, e: Event) {
    match e
    case Heartbeat(at, nextAt) => s.heartbeatLast == Some((at, nextAt))
    case FinalRecordObserved(fixture, sequence) => s.finalRecord == Some((fixture, sequence))
    case ProofAvailable(hash, rootPda) => s.proof == Some((hash, rootPda))
    case ProofStaged(sig) => s.level4.proofStagedSig == Some(sig)
    case SolanaVerifySubmitted(sig) => s.level4.verifySig == Some(sig)
    case TxlineCpiVerified(slot) => s.level4.verifiedSlot == Some(slot)
    case WormholeMessagePublished(emitter, sequence) =>
      s.level4.wormholeEmitter == Some(emitter) && s.level4.wormholeSequence == Some(sequence)
    case VaaReady(hash, signatures) => s.level4.vaaHash == Some(hash) && s.level4.guardianSignatures == signatures
    case Level3RpcResult(_, _, _) => true
    case Level3BaseFinalized(tx) => s.level3.baseTxHash == Some(tx)
    case Level4BaseSubmitted(tx) => s.level4.baseTxHash == Some(tx)
    case BaseVaaVerified(block) => s.level4.baseVerifiedBlock == Some(block)
    case DualFinalityReached(id) => s.finality == DualFinalized && s.attestationId == Some(id)
    case ConsumerSettled(tx) => s.settledTxHash == Some(tx)
    case RunFailed(stage, reason) => s.failure == Some((stage, reason))
  }

  /** Nothing of the event's kind is on display. */
  predicate Blank(s: ControlRoom, e: Event) {
    match e
    case Heartbeat(_, _) => s.heartbeatLast == None && s.heartbeatCount == 0
    case FinalRecordObserved(_, _) => s.finalRecord == None
    case ProofAvailable(_, _) => s.proof == None
    case ProofStaged(_) => s.level4.proofStagedSig == None
    case SolanaVerifySubmitted(_) => s.level4.verifySig == None
    case TxlineCpiVerified(_) => s.level4.verifiedSlot == None
    case WormholeMessagePublished(_, _) => s.level4.wormholeEmitter == None && s.level4.wormholeSequence == None
    case VaaReady(_, _) => s.level4.vaaHash == None && s.level4.guardianSignatures == []
    case Level3RpcResult(_, _, _) => s.level3.rpcResults == []
    case Level3BaseFinalized(_) => s.level3.baseTxHash == None
    case Level4BaseSubmitted(_) => s.level4.baseTxHash == None
    case BaseVaaVerified(_) => s.level4.baseVerifiedBlock == None
    case DualFinalityReached(_) => s.finality != DualFinalized && s.attestationId == None
    case ConsumerSettled(_) => s.settledTxHash == None
    case RunFailed(_, _) => s.failure == None
  }

  predicate LastOfKind(events: seq<RunEvent>, i: nat) {
    i < |events| && forall j | i < j < |events| :: !SameKind(events[j].event, events[i].event)
  }

  predicate Unseen(events: seq<RunEvent>, e: Event) { forall x <- events :: !SameKind(x.event, e) }

  lemma BlankAtFirst(e: Event)
    ensures Blank(InitialState(), e)
  {
  }

  lemma ShownAtOnce(s: ControlRoom, re: RunEvent)
    ensures Displays(Apply(s, re), re.event)
  {
    hide SetStep, ActiveStep, WithoutProvider, StartsWith;
  }

  /** What an event left is not disturbed by events of another kind. */
  lemma StaysShown(s: ControlRoom, re: RunEvent, e: Event)
    requires !SameKind(re.event, e) && Displays(s, e)
    ensures Displays(Apply(s, re), e)
  {
    hide SetStep, ActiveStep, WithoutProvider, StartsWith;
  }

  lemma StaysBlank(s: ControlRoom, re: RunEvent, e: Event)
    requires !SameKind(re.event, e) && Blank(s, e)
    ensures Blank(Apply(s, re), e)
  {
    hide SetStep, ActiveStep, WithoutProvider, StartsWith;
  }

  lemma EnvelopeShown(s: ControlRoom, re: RunEvent)
    ensures var t := Apply(s, re);
            && t.heartbeatCount == s.heartbeatCount + (if re.event.Heartbeat? then 1 else 0)
            && t.lastSeq == re.seq_ && t.lastEventAt == Some(re.at)
  {
    hide SetStep, ActiveStep, WithoutProvider, StartsWith;
  }

  lemma {:induction false} LastIsShown(events: seq<RunEvent>, i: nat)
    requires LastOfKind(events, i)
    ensures Displays(Fold(InitialState(), events), events[i].event)
  {
    hide Apply, Displays, SameKind;
    var n := |events| - 1;
    if i == n {
      ShownAtOnce(Fold(InitialState(), events[..n]), events[n]);
    } else {
      LastIsShown(events[..n], i);
      StaysShown(Fold(InitialState(), events[..n]), events[n], events[i].event);
    }
  }

  lemma {:induction false} UnseenIsBlank(events: seq<RunEvent>, e: Event)
    requires Unseen(events, e)
    ensures Blank(Fold(InitialState(), events), e)
  {
    hide Apply, Blank, SameKind;
    if events == [] {
      BlankAtFirst(e);
    } else {
      var n := |events| - 1;
      assert events[n] in events && forall x <- events[..n] :: x in events;
      UnseenIsBlank(events[..n], e);
      StaysBlank(Fold(InitialState(), events[..n]), events[n], e);
    }
  }

  lemma {:induction false} BeatsCounted(events: seq<RunEvent>)
    ensures Fold(InitialState(), events).heartbeatCount ==
            |set i | 0 <= i < |events| && events[i].event.Heartbeat?|
  {
    hide Apply;
    if events != [] {
      var n := |events| - 1;
      BeatsCounted(events[..n]);
      EnvelopeShown(Fold(InitialState(), events[..n]), events[n]);
      var beats := set i | 0 <= i < n && events[..n][i].event.Heartbeat?;
      assert (set i | 0 <= i < |events| && events[i].event.Heartbeat?) ==
             if events[n].event.Heartbeat? then beats + {n} else beats;
    }
  }

  /** THE ROOM SHOWS, field by field, what the last event of each kind carried, nothing for a kind that never
      came, the number of heartbeats, and the last event's number and time. */
  lemma RoomShows(events: seq<RunEvent>)
    ensures var s := Fold(InitialState(), events);
            && (forall i: nat | LastOfKind(events, i) :: Displays(s, events[i].event))
            && (forall e | Unseen(events, e) :: Blank(s, e))
            && s.heartbeatCount == |set i | 0 <= i < |events| && events[i].event.Heartbeat?|
            && (events != [] ==> s.lastSeq == events[|events| - 1].seq_ &&
                                 s.lastEventAt == Some(events[|events| - 1].at))
  {
    hide Apply, Displays, Blank, SameKind, Unseen;
    forall i: nat | LastOfKind(events, i) ensures Displays(Fold(InitialState(), events), events[i].event) {
      LastIsShown(events, i);
    }
    forall e | Unseen(events, e) ensures Blank(Fold(InitialState(), events), e) {
      UnseenIsBlank(events, e);
    }
    BeatsCounted(events);
    if events != [] { EnvelopeShown(Fold(InitialState(), events[..|events| - 1]), events[|events| - 1]); }
  }

  // -------------------------------------------------------------------------
  // The RPC table
  // -------------------------------------------------------------------------

  /** A provider's last result in the stream. */
  function LastResult(events: seq<RunEvent>, provider: string): Option<RpcResult>
  {
    if events == [] then None
    else
      var e := events[|events| - 1].event;
      if e.Level3RpcResult? && e.provider == provider then Some(RpcResult(provider, e.agreed, e.simulationDigest))
      else LastResult(events[..|events| - 1], provider)
  }

  lemma {:induction false} WithoutProviderMembers(rs: seq<RpcResult>, p: string, r: RpcResult)
    ensures r in WithoutProvider(rs, p) <==> r in rs && r.provider != p
  {
    if rs != [] {
      WithoutProviderMembers(rs[1..], p, r);
      assert rs == [rs[0]] + rs[1..];
    }
  }

  predicate OncePerProvider(rs: seq<RpcResult>) {
    forall i, j | 0 <= i < j < |rs| :: rs[i].provider != rs[j].provider
  }

  lemma {:induction false} WithoutProviderOnce(rs: seq<RpcResult>, p: string)
    requires OncePerProvider(rs)
    ensures OncePerProvider(WithoutProvider(rs, p))
  {
    if rs != [] {
      WithoutProviderOnce(rs[1..], p);
      forall r | r in WithoutProvider(rs[1..], p)
        ensures r.provider != rs[0].provider
      {
        WithoutProviderMembers(rs[1..], p, r);
      }
    }
  }

  /** The table holds exactly each provider's last result, once. */
  lemma {:induction false} RpcTable(events: seq<RunEvent>)
    ensures OncePerProvider(Fold(InitialState(), events).level3.rpcResults)
    ensures forall r: RpcResult ::
              r in Fold(InitialState(), events).level3.rpcResults <==> LastResult(events, r.provider) == Some(r)
  {
    hide Apply;
    if events != [] {
      var n := |events| - 1;
      var before := Fold(InitialState(), events[..n]);
      RpcTable(events[..n]);
      TableAfter(before, events[n]);
      if events[n].event.Level3RpcResult? {
        ReplacedOnce(before.level3.rpcResults, events[n].event.provider);
      }
    }
  }

  lemma TableAfter(s: ControlRoom, re: RunEvent)
    ensures Apply(s, re).level3.rpcResults ==
            match re.event
            case Level3RpcResult(p, agreed, digest) =>
              WithoutProvider(s.level3.rpcResults, p) + [RpcResult(p, agreed, digest)]
            case _ => s.level3.rpcResults
  {
    hide SetStep, ActiveStep, WithoutProvider, StartsWith;
  }

  lemma ReplacedOnce(rs: seq<RpcResult>, p: string)
    requires OncePerProvider(rs)
    ensures OncePerProvider(WithoutProvider(rs, p))
    ensures forall r :: r in WithoutProvider(rs, p) <==> r in rs && r.provider != p
  {
    WithoutProviderOnce(rs, p);
    forall r
      ensures r in WithoutProvider(rs, p) <==> r in rs && r.provider != p
    {
      WithoutProviderMembers(rs, p, r);
    }
  }

  // -------------------------------------------------------------------------
  // The six-step checklist
  // -------------------------------------------------------------------------

  /** The checklist step an event completes, 0 for none. */
  function Stage(e: Event): nat
  {
    match e
    case FinalRecordObserved(_, _) => 1
    case ProofAvailable(_, _) => 2
    case TxlineCpiVerified(_) => 3
    case VaaReady(_, _) => 4
    case BaseVaaVerified(_) => 5
    case ConsumerSettled(_) => 6
    case _ => 0
  }

  /** k steps done, the next active, the rest pending. */
  function Checklist(k: nat): Steps
    requires k <= 6
  {
    seq(6, i => if i < k then Done else if i == k then Active else Pending)
  }

  /** The checklist reads done*, at most one active, pending*. */
  predicate InOrder(steps: Steps) { exists k | 0 <= k <= 6 :: steps == Checklist(k) }

  predicate FailureFree(events: seq<RunEvent>) { forall e <- events :: !e.event.RunFailed? }

  /** An event that moves the checklist from k done steps keeps it in order exactly when it does not go
      back - except that step 6 done may become active again. */
  predicate Forward(k: nat, stage: nat) { stage == 0 || stage >= k || (k == 6 && stage == 5) }

  /** The last completed stage, or None once a milestone went back. */
  function Level(events: seq<RunEvent>): (l: Option<nat>)
    ensures l.Some? ==> l.value <= 6
  {
    if events == [] then Some(0)
    else
      var stage := Stage(events[|events| - 1].event);
      match Level(events[..|events| - 1])
      case None => None
      case Some(k) => if !Forward(k, stage) then None else Some(if stage == 0 then k else stage)
  }

  /** Setting one step done and the next active keeps the checklist in order only going forward. */
  lemma MilestoneStep(k: nat, stage: nat)
    requires k <= 6 && 0 < stage < 6
    ensures var t := SetStep(SetStep(Checklist(k), stage, Done), stage + 1, Active);
            if Forward(k, stage) then t == Checklist(stage) else !InOrder(t)
  {
    var t := SetStep(SetStep(Checklist(k), stage, Done), stage + 1, Active);
    if !Forward(k, stage) {
      assert t[stage] == Active;
      assert k < 6 ==> t[k] == Active;
      assert k == 6 ==> t[5] == Done;
      forall j | 0 <= j <= 6 ensures t != Checklist(j) { assert Checklist(j)[stage] == Active ==> j == stage; }
    }
  }

  /** The steps after a milestone or any other event but a failure. */
  lemma StepsAfter(s: ControlRoom, e: Event)
    requires !e.RunFailed?
    ensures Effect(s, e).steps ==
            if Stage(e) == 0 then s.steps
            else if Stage(e) == 6 then SetStep(s.steps, 6, Done)
            else SetStep(SetStep(s.steps, Stage(e), Done), Stage(e) + 1, Active)
  {
    hide SetStep, ActiveStep, WithoutProvider, StartsWith;
  }

  lemma ChecklistStep(s: ControlRoom, e: Event, k: nat)
    requires k <= 6 && s.steps == Checklist(k) && !e.RunFailed?
    ensures Forward(k, Stage(e)) ==> Effect(s, e).steps == Checklist(if Stage(e) == 0 then k else Stage(e))
    ensures !Forward(k, Stage(e)) ==> !InOrder(Effect(s, e).steps)
  {
    hide Effect;
    StepsAfter(s, e);
    var stage := Stage(e);
    if 0 < stage < 6 {
      MilestoneStep(k, stage);
    } else if stage == 0 {
      assert InOrder(s.steps);
    }
  }

  /** Without failures, the checklist reads in order after every event exactly when no milestone ever
      went back, and then it shows the last completed stage. */
  lemma {:induction false} ChecklistInOrderIff(events: seq<RunEvent>)
    requires FailureFree(events)
    ensures Level(events).Some? ==> Fold(InitialState(), events).steps == Checklist(Level(events).value)
    ensures Level(events).Some? <==> forall n | 0 <= n <= |events| :: InOrder(Fold(InitialState(), events[..n]).steps)
  {
    hide Effect, SetStep, Stage;
    var final := Fold(InitialState(), events);
    assert events[..|events|] == events;
    if events == [] {
      assert final.steps == Checklist(0);
      assert InOrder(final.steps);
    } else {
      var n := |events| - 1;
      var init := events[..n];
      assert forall e <- init :: e in events;
      ChecklistInOrderIff(init);
      assert forall m | 0 <= m <= n :: init[..m] == events[..m];
      LevelStep(events);
    }
  }

  lemma LevelStep(events: seq<RunEvent>)
    requires events != [] && FailureFree(events)
    requires var init := events[..|events| - 1];
             Level(init).Some? ==> Fold(InitialState(), init).steps == Checklist(Level(init).value)
    ensures var init := events[..|events| - 1];
            Level(init).Some? ==>
              if Level(events).Some? then Fold(InitialState(), events).steps == Checklist(Level(events).value)
              else !InOrder(Fold(InitialState(), events).steps)
    ensures Level(events).Some? ==> Level(events[..|events| - 1]).Some?
  {
    hide Effect, SetStep, Stage, Checklist, InOrder, Forward;
    var n := |events| - 1;
    if Level(events[..n]).Some? {
      var before := Fold(InitialState(), events[..n]);
      ChecklistStep(before.(lastSeq := events[n].seq_, lastEventAt := Some(events[n].at)),
                    events[n].event, Level(events[..n]).value);
    }
  }

  /** Out of order, two steps are active at once: the guarantee does not hold for arbitrary streams. */
  lemma TwoActiveSteps(a: RunEvent, b: RunEvent)
    requires a.event.VaaReady? && b.event.FinalRecordObserved?
    ensures var steps := Fold(InitialState(), [a, b]).steps; steps[1] == Active && steps[4] == Active
  {
    assert [a, b][..1] == [a] && [a][..0] == [];
  }

  predicate FirstActive(steps: seq<StepState>, i: nat) {
    i < |steps| && steps[i] == Active && forall k | 0 <= k < i :: steps[k] != Active
  }

  lemma {:induction false} ActiveStepIs(steps: seq<StepState>)
    ensures var id := ActiveStep(steps);
            if id == 0 then Active !in steps else FirstActive(steps, id - 1)
  {
    if steps != [] {
      ActiveStepIs(steps[1..]);
    }
  }

  /** A failure marks the first active step failed, if there is one, and completes the steps before it that
      have not failed; every other step stays. */
  lemma FailureMarks(s: ControlRoom, re: RunEvent, i: nat)
    requires re.event.RunFailed? && i < 6
    ensures var t := Apply(s, re).steps;
            && (Active !in s.steps ==> t == s.steps)
            && (FirstActive(s.steps, i) ==> t[i] == Failed)
            && (forall j: nat | FirstActive(s.steps, j) ::
                  t[i] == if i < j then (if s.steps[i] == Failed then Failed else Done)
                          else if i == j then Failed else s.steps[i])
  {
    hide StartsWith;
    ActiveStepIs(s.steps);
  }

  // -------------------------------------------------------------------------
  // Settlement
  // -------------------------------------------------------------------------

  /** No settlement is announced before dual finality was. */
  predicate SettlesAfterDual(events: seq<RunEvent>) {
    forall i | 0 <= i < |events| && events[i].event.ConsumerSettled? ::
      exists j | 0 <= j < i :: events[j].event.DualFinalityReached?
  }

  lemma {:induction false} SettledImpliesDual(events: seq<RunEvent>)
    requires SettlesAfterDual(events)
    ensures Fold(InitialState(), events).settledTxHash.Some? ==> Fold(InitialState(), events).finality == DualFinalized
  {
    hide Apply;
    if events != [] {
      var n := |events| - 1;
      var init := events[..n];
      assert forall i | 0 <= i < n :: init[i] == events[i];
      SettledImpliesDual(init);
      DualIsAnnounced(init);
      FinalityAfter(Fold(InitialState(), init), events[n]);
      if events[n].event.ConsumerSettled? {
        var j :| 0 <= j < n && events[j].event.DualFinalityReached?;
        AnnouncedBefore(init, j);
      }
    }
  }

  lemma {:induction false} AnnouncedBefore(events: seq<RunEvent>, j: nat)
    requires j < |events| && events[j].event.DualFinalityReached?
    ensures LastDual(events).Some?
  {
    var n := |events| - 1;
    if j < n { AnnouncedBefore(events[..n], j); }
  }

  /** A room is settled exactly when a settlement was announced, and shows a failure exactly when one was. */
  lemma {:induction false} ShownIffAnnounced(events: seq<RunEvent>)
    ensures Fold(InitialState(), events).settledTxHash.Some? <==> exists e <- events :: e.event.ConsumerSettled?
    ensures Fold(InitialState(), events).failure.Some? <==> !FailureFree(events)
  {
    hide Apply;
    if events != [] {
      var n := |events| - 1;
      ShownIffAnnounced(events[..n]);
      FinalityAfter(Fold(InitialState(), events[..n]), events[n]);
      FailureAfter(Fold(InitialState(), events[..n]), events[n]);
      assert events == events[..n] + [events[n]];
    }
  }

  lemma FailureAfter(s: ControlRoom, re: RunEvent)
    ensures Apply(s, re).failure == if re.event.RunFailed? then Some((re.event.stage, re.event.reason)) else s.failure
  {
    hide SetStep, ActiveStep, WithoutProvider, StartsWith;
  }

  datatype Lane = Level3 | Level4

  function LaneName(lane: Lane): string { if lane == Level3 then "level3" else "level4" }

  function StatusOf(s: ControlRoom, lane: Lane): LaneStatus
  {
    if lane == Level3 then s.level3.status else s.level4.status
  }

  /** The failure carries the lane's name. */
  predicate Names(lane: Lane, e: Event) { e.RunFailed? && StartsWith(e.stage, LaneName(lane)) }

  predicate Finishes(lane: Lane, e: Event) { if lane == Level3 then e.Level3BaseFinalized? else e.BaseVaaVerified? }

  predicate Concerns(lane: Lane, e: Event) { Names(lane, e) || e.ProofAvailable? || Finishes(lane, e) }

  /** The position of the last event that concerns the lane, -1 if none does. */
  function LastConcern(lane: Lane, events: seq<RunEvent>): (k: int)
    ensures -1 <= k < |events|
    ensures k >= 0 ==> Concerns(lane, events[k].event)
    ensures forall j | k < j < |events| :: !Concerns(lane, events[j].event)
  {
    if events == [] then -1
    else if Concerns(lane, events[|events| - 1].event) then |events| - 1
    else LastConcern(lane, events[..|events| - 1])
  }

  lemma StatusAfter(s: ControlRoom, re: RunEvent, lane: Lane)
    ensures StatusOf(Apply(s, re), lane) ==
            if Names(lane, re.event) then LaneFailed
            else if re.event.ProofAvailable? then InProgress
            else if Finishes(lane, re.event) then LaneDone
            else StatusOf(s, lane)
  {
    hide SetStep, ActiveStep, WithoutProvider, StartsWith;
  }

  /** A LANE IS SHOWN FAILED exactly when the last event of the stream that concerns it is a failure
      carrying its name, done exactly when that is its own finality, under way exactly when that is the
      proof, and idle when no event concerns it. */
  lemma {:induction false} LaneShownIff(events: seq<RunEvent>, lane: Lane)
    ensures var status, k := StatusOf(Fold(InitialState(), events), lane), LastConcern(lane, events);
            && (status == LaneFailed <==> k >= 0 && Names(lane, events[k].event))
            && (status == InProgress <==> k >= 0 && events[k].event.ProofAvailable?)
            && (status == LaneDone <==> k >= 0 && Finishes(lane, events[k].event))
            && (status == Idle <==> k < 0)
  {
    hide Apply, StartsWith;
    if events != [] {
      var n := |events| - 1;
      LaneShownIff(events[..n], lane);
      StatusAfter(Fold(InitialState(), events[..n]), events[n], lane);
    }
  }

  /** A stream in which no failure names a level4 stage never shows the Level 4 lane failed. */
  lemma Level4FailsOnlyByName(events: seq<RunEvent>)
    requires forall e <- events :: e.event.RunFailed? ==> !StartsWith(e.event.stage, "level4")
    ensures Fold(InitialState(), events).level4.status != LaneFailed
  {
    hide Fold, StartsWith;
    LaneShownIff(events, Level4);
  }
}
