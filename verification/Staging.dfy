/** Whether a dispatch workflow that was interrupted can still get its proof staged
    (workflows/cre-source-dispatch/main.ts, apps/proof-uploader/src). */
module Staging {
  import opened Bytes
  import opened BaseContracts
  import opened Lanes
  import opened Restarts
  import opened WorkflowRuns
  import opened WorkflowSafety
  import opened Workflows
  import PB = ProofBuffer
  import R = Reducer

  function Path(cfg: Config): string
    requires CanStage(cfg)
  {
    PB.PathOf(BufferAddress(cfg))
  }

  predicate Present(cfg: Config, w: World)
    requires CanStage(cfg)
  {
    Path(cfg) in w.buffers
  }

  predicate Sealed(cfg: Config, w: World)
    requires CanStage(cfg)
  {
    Path(cfg) in w.buffers && w.buffers[Path(cfg)].sealed
  }

  /** The bytes the buffer already holds. */
  function Held(cfg: Config, w: World): bytes
    requires CanStage(cfg)
  {
    PB.Prior(w.buffers, BufferAddress(cfg))
  }

  predicate Sound(cfg: Config, w: World) { PB.StoreInv(cfg.setup.c.keccak, w.buffers) }

  /** What attempts that were cut off after so many chunks leave behind. */
  function Junk(chunks: seq<bytes>, cuts: seq<nat>): bytes
    decreases |cuts|
  {
    if cuts == [] then []
    else
      var n := cuts[|cuts| - 1];
      Junk(chunks, cuts[..|cuts| - 1]) + PB.Concat(chunks[..if n <= |chunks| then n else |chunks|])
  }

  // -------------------------------------------------------------------------
  // One buffer operation
  // -------------------------------------------------------------------------

  lemma HashIs(cfg: Config)
    requires FindFinal(cfg.fixture.records).Some?
    ensures HandoffOf(cfg).proofBundleHash == cfg.setup.c.keccak(CanonicalBytes(cfg))
  {
    hide FindFinal, ProofBundle;
  }

  lemma InitHolds(cfg: Config, w: World, next: World)
    requires CanStage(cfg) && Sound(cfg, w)
    requires next.buffers == PB.AfterInit(w.buffers, BufferAddress(cfg), UPLOADER)
    ensures Sound(cfg, next) && Present(cfg, next) && Held(cfg, next) == Held(cfg, w)
    ensures (Sealed(cfg, next) <==> Sealed(cfg, w))
  {
    hide DailyRootFor, FindFinal, BufferAddress, PB.Uploaded;
    PB.OpKeeps(cfg.setup.c.keccak, w.buffers, PB.Init(BufferAddress(cfg), UPLOADER), Path(cfg));
    PB.NothingUploaded();
  }

  lemma AppendHolds(cfg: Config, w: World, next: World, chunk: bytes)
    requires CanStage(cfg) && Sound(cfg, w) && Present(cfg, w) && !Sealed(cfg, w)
    ensures PB.TryAppend(w.buffers, BufferAddress(cfg), chunk).Ok?
    ensures next.buffers == PB.TryAppend(w.buffers, BufferAddress(cfg), chunk).value ==>
              Sound(cfg, next) && Present(cfg, next) && !Sealed(cfg, next) && Held(cfg, next) == Held(cfg, w) + chunk
  {
    hide DailyRootFor, FindFinal, BufferAddress, PB.Uploaded, PB.Hex;
    PB.OpKeeps(cfg.setup.c.keccak, w.buffers, PB.Append(BufferAddress(cfg), chunk), Path(cfg));
    PB.UploadedOne(w.buffers[Path(cfg)].chunks, chunk);
  }

  lemma SealHolds(cfg: Config, w: World, expected: bytes32)
    requires CanStage(cfg) && Sound(cfg, w)
    ensures var r := PB.TrySeal(cfg.setup.c.keccak, w.buffers, BufferAddress(cfg), expected);
            && (r.Ok? <==> Present(cfg, w) && !Sealed(cfg, w) && cfg.setup.c.keccak(Held(cfg, w)) == expected)
            && (r.Ok? ==> PB.StoreInv(cfg.setup.c.keccak, r.value) && Path(cfg) in r.value && r.value[Path(cfg)].sealed)
  {
    hide DailyRootFor, FindFinal, BufferAddress, PB.Uploaded;
    PB.OpKeeps(cfg.setup.c.keccak, w.buffers, PB.Seal(BufferAddress(cfg), expected), Path(cfg));
  }

  // -------------------------------------------------------------------------
  // Who touches the buffer
  // -------------------------------------------------------------------------

  /** Everything but the dispatch workflow leaves its buffer and its phase alone. */
  lemma OthersLeaveStaging(cfg: Config, s: System, m: Move)
    requires SafetyInv(cfg, s) && (m.Outside? || m.who != Dispatch || m.Start? || m.Crash? || s.dispatch.todo == [])
    ensures Next(cfg, s, m).w.buffers == s.w.buffers && Next(cfg, s, m).w.dispatch == s.w.dispatch
    ensures m.Outside? || m.who != Dispatch ==> Next(cfg, s, m).dispatch == s.dispatch
  {
    hide Tick, Do, AfterTx, WorldInv;
    if m.Advance? && s.Of(m.who).todo != [] { DoLeavesStaging(cfg, s, m.who, m.moment); }
  }

  lemma DoLeavesStaging(cfg: Config, s: System, who: Who, m: Moment)
    requires SafetyInv(cfg, s) && who != Dispatch && s.Of(who).todo != []
    ensures var next := Do(cfg, s.w, s.Of(who), m).0; next.buffers == s.w.buffers && next.dispatch == s.w.dispatch
  {
    hide TryOnReport, TrySubmit, TrySettle, RowOf, Derived, DerivedId, FixtureNumber, IsHandoff, WorldInv, Seen,
         PB.AfterInit, PB.TryAppend, PB.TrySeal, ReadLevel4Id;
    assert AllFit(cfg, s.w, who, s.Of(who).todo);
    assert Fits(cfg, s.w, who, s.Of(who).todo[0]);
  }

  // -------------------------------------------------------------------------
  // Where a dispatch tick can be
  // -------------------------------------------------------------------------

  /** Neither the buffer nor "staged". */
  predicate Plain(a: Action) { a.Emit? || (a.SaveDispatch? && a.dispatch.FinalObserved?) }

  predicate Idling(todo: seq<Action>) { forall a <- todo :: Plain(a) }

  /** The rest of an upload from this chunk on. */
  function UploadFrom(cfg: Config, j: nat, i: TickInput): seq<Action>
    requires CanStage(cfg) && j <= |BufferChunks(cfg)|
  {
    Appends(BufferAddress(cfg), BufferChunks(cfg)[j..]) + [SealBuffer(BufferAddress(cfg),
                                                                      HandoffOf(cfg).proofBundleHash)] +
    HandOver(cfg, i)
  }

  predicate Approaching(cfg: Config, prefix: seq<Action>, i: TickInput, todo: seq<Action>)
    requires CanStage(cfg)
  {
    Idling(prefix) && todo == prefix + [InitBuffer(BufferAddress(cfg))] + UploadFrom(cfg, 0, i)
  }

  ghost predicate Phase(cfg: Config, w: World, todo: seq<Action>, j: nat)
    requires CanStage(cfg)
  {
    || (j == 0 && Idling(todo))
    || (j == 0 && exists prefix, i :: Approaching(cfg, prefix, i, todo))
    || (j <= |BufferChunks(cfg)| && Present(cfg, w) && exists i :: todo == UploadFrom(cfg, j, i))
  }

  /** Only events and the handoff are left, and then "staged". */
  predicate Finishing(todo: seq<Action>) {
    && todo != [] && todo[|todo| - 1] == SaveDispatch(Staged)
    && forall k | 0 <= k < |todo| - 1 :: todo[k].Emit? || todo[k].WriteHandoff?
  }

  lemma HandOverFinishes(cfg: Config, i: TickInput)
    requires CanStage(cfg)
    ensures Finishing(HandOver(cfg, i))
  {
    hide FindFinal, DailyRootFor, HandoffOf;
  }

  lemma TickPhase(cfg: Config, w: World, i: TickInput)
    requires CanStage(cfg) && w.dispatch != Staged
    ensures Phase(cfg, w, DispatchTick(cfg, w, i), 0)
  {
    hide FindFinal, Final, DailyRootFor, HandoffOf, BufferAddress, BufferChunks, HandOver;
    var tick := DispatchTick(cfg, w, i);
    var observed :=
      if w.dispatch == Watching
      then [Emit(R.FinalRecordObserved(cfg.fixture.fixtureId, Final(cfg.fixture).sequence), !cfg.fixtureLive),
            SaveDispatch(FinalObserved(i.tick))]
      else [];
    if i.tick >= ObservedTick(w.dispatch, i.tick) + ReadyAfter(cfg) {
      var prefix := Heartbeat(i) + observed + [Stage(cfg, i)[0]];
      assert BufferChunks(cfg)[0..] == BufferChunks(cfg);
      assert UploadFrom(cfg, 0, i) == Upload(cfg, i);
      assert Stage(cfg, i) == [Stage(cfg, i)[0]] + ([InitBuffer(BufferAddress(cfg))] + Upload(cfg, i));
      assert tick == prefix + [InitBuffer(BufferAddress(cfg))] + UploadFrom(cfg, 0, i);
      assert Approaching(cfg, prefix, i, tick);
    } else {
      assert tick == Heartbeat(i) + observed;
    }
  }

  /** The chunks a tick still has to append. */
  function Pending(todo: seq<Action>): seq<bytes>
  {
    if todo == [] then []
    else (if todo[0].AppendChunk? then [todo[0].chunk] else []) + Pending(todo[1..])
  }

  predicate Seals(todo: seq<Action>) { exists a <- todo :: a.SealBuffer? }

  lemma {:induction false} PendingAfter(a: seq<Action>, b: seq<Action>)
    requires forall x <- a :: !x.AppendChunk?
    ensures Pending(a + b) == Pending(b)
    decreases |a|
  {
    if a == [] { assert a + b == b; } else { assert (a + b)[1..] == a[1..] + b; PendingAfter(a[1..], b); }
  }

  lemma {:induction false} PendingAppends(address: string, chunks: seq<bytes>, rest: seq<Action>)
    requires Pending(rest) == []
    ensures Pending(Appends(address, chunks) + rest) == chunks
    decreases |chunks|
  {
    var todo := Appends(address, chunks) + rest;
    if chunks == [] {
      assert todo == rest;
    } else {
      assert todo[1..] == Appends(address, chunks[1..]) + rest;
      PendingAppends(address, chunks[1..], rest);
    }
  }

  lemma UploadPends(cfg: Config, j: nat, i: TickInput)
    requires CanStage(cfg) && j <= |BufferChunks(cfg)|
    ensures Pending(UploadFrom(cfg, j, i)) == BufferChunks(cfg)[j..] && Seals(UploadFrom(cfg, j, i))
  {
    hide FindFinal, DailyRootFor, BufferAddress, BufferChunks, HandoffOf, HandOver;
    var seal := SealBuffer(BufferAddress(cfg), HandoffOf(cfg).proofBundleHash);
    var rest := [seal] + HandOver(cfg, i);
    HandOverFinishes(cfg, i);
    PendingAfter(rest, []);
    assert rest + [] == rest;
    PendingAppends(BufferAddress(cfg), BufferChunks(cfg)[j..], rest);
    assert UploadFrom(cfg, j, i) == Appends(BufferAddress(cfg), BufferChunks(cfg)[j..]) + rest;
    assert seal in UploadFrom(cfg, j, i);
  }

  /** What a tick in this phase still appends, and whether it still seals. */
  lemma PhasePends(cfg: Config, w: World, todo: seq<Action>, j: nat)
    requires CanStage(cfg) && Phase(cfg, w, todo, j)
    ensures j <= |BufferChunks(cfg)| && (Seals(todo) <==> !Idling(todo))
    ensures Pending(todo) == if Seals(todo) then BufferChunks(cfg)[j..] else []
    ensures !Seals(todo) ==> j == 0
  {
    hide FindFinal, DailyRootFor, BufferAddress, BufferChunks, UploadFrom;
    if Idling(todo) {
      PendingAfter(todo, []);
      assert todo + [] == todo;
      IdleIsNoUpload(cfg, w, todo, j);
    } else if j == 0 && exists prefix, i :: Approaching(cfg, prefix, i, todo) {
      var prefix, i :| Approaching(cfg, prefix, i, todo);
      var before := prefix + [InitBuffer(BufferAddress(cfg))];
      PendingAfter(before, UploadFrom(cfg, 0, i));
      UploadPends(cfg, 0, i);
      var seal :| seal in UploadFrom(cfg, 0, i) && seal.SealBuffer?;
      assert seal in todo;
    } else {
      var i :| todo == UploadFrom(cfg, j, i);
      UploadPends(cfg, j, i);
    }
  }

  lemma IdleIsNoUpload(cfg: Config, w: World, todo: seq<Action>, j: nat)
    requires CanStage(cfg) && Phase(cfg, w, todo, j) && Idling(todo)
    ensures j == 0
  {
    hide FindFinal, DailyRootFor, BufferAddress, BufferChunks, UploadFrom;
    if j != 0 {
      var i :| todo == UploadFrom(cfg, j, i);
      UploadPends(cfg, j, i);
    }
  }

  // -------------------------------------------------------------------------
  // One action of a dispatch tick
  // -------------------------------------------------------------------------

  /** What one action of a tick in phase j does, as far as the buffer is concerned. */
  datatype Outcome = Passed | Appended | CutShort | SealedNow

  ghost predicate Does(cfg: Config, s: System, next: System, j: nat, o: Outcome)
    requires CanStage(cfg) && j <= |BufferChunks(cfg)|
  {
    match o
    case Passed =>
      && j == 0 && Held(cfg, next.w) == Held(cfg, s.w) && (Sealed(cfg, next.w) <==> Sealed(cfg, s.w))
      && Phase(cfg, next.w, next.dispatch.todo, 0) && (Idling(next.dispatch.todo) <==> Idling(s.dispatch.todo))
    case Appended =>
      && j < |BufferChunks(cfg)| && Held(cfg, next.w) == Held(cfg, s.w) + BufferChunks(cfg)[j]
      && !Sealed(cfg, s.w) && !Sealed(cfg, next.w)
      && Phase(cfg, next.w, next.dispatch.todo, j + 1) && !Idling(next.dispatch.todo)
    case CutShort => next.dispatch.todo == [] && next.w.buffers == s.w.buffers
    case SealedNow =>
      && j == |BufferChunks(cfg)| && cfg.setup.c.keccak(Held(cfg, s.w)) == cfg.setup.c.keccak(CanonicalBytes(cfg))
      && !Sealed(cfg, s.w) && Sealed(cfg, next.w) && Finishing(next.dispatch.todo)
  }

  lemma AppendRefused(cfg: Config, w: World, chunk: bytes)
    requires CanStage(cfg) && Sealed(cfg, w)
    ensures PB.TryAppend(w.buffers, BufferAddress(cfg), chunk).Err?
  {
    hide DailyRootFor, FindFinal, BufferAddress;
  }

  lemma UploadDoes(cfg: Config, s: System, m: Moment, j: nat, i: TickInput) returns (o: Outcome)
    requires CanStage(cfg) && Sound(cfg, s.w) && s.w.dispatch != Staged
    requires j <= |BufferChunks(cfg)| && Present(cfg, s.w) && s.dispatch.todo == UploadFrom(cfg, j, i)
    ensures Does(cfg, s, Next(cfg, s, Advance(Dispatch, m)), j, o)
    ensures Next(cfg, s, Advance(Dispatch, m)).w.dispatch != Staged
  {
    hide FindFinal, DailyRootFor, BufferAddress, BufferChunks, PB.Prior, Sound, CanonicalBytes, HandoffOf, UploadFrom,
         Next, Phase, Path, Idling, PB.TryAppend, PB.TrySeal, HandOver, Finishing;
    var next := Next(cfg, s, Advance(Dispatch, m));
    UploadHead(cfg, j, i);
    BufferAdvance(cfg, s, m);
    if j < |BufferChunks(cfg)| {
      var chunk := BufferChunks(cfg)[j];
      if Sealed(cfg, s.w) {
        AppendRefused(cfg, s.w, chunk);
        o := CutShort;
      } else {
        AppendHolds(cfg, s.w, next.w, chunk);
        UploadPhase(cfg, next.w, j + 1, i);
        UploadPends(cfg, j + 1, i);
        PhasePends(cfg, next.w, next.dispatch.todo, j + 1);
        o := Appended;
      }
    } else {
      HashIs(cfg);
      SealHolds(cfg, s.w, HandoffOf(cfg).proofBundleHash);
      HandOverFinishes(cfg, i);
      o := if PB.TrySeal(cfg.setup.c.keccak, s.w.buffers, BufferAddress(cfg), HandoffOf(cfg).proofBundleHash).Ok?
      then SealedNow else CutShort;
    }
  }

  lemma PhaseDoes(cfg: Config, s: System, m: Moment, j: nat) returns (o: Outcome)
    requires CanStage(cfg) && Sound(cfg, s.w) && s.w.dispatch != Staged
    requires Phase(cfg, s.w, s.dispatch.todo, j) && s.dispatch.todo != []
    ensures j <= |BufferChunks(cfg)| && Does(cfg, s, Next(cfg, s, Advance(Dispatch, m)), j, o)
    ensures Next(cfg, s, Advance(Dispatch, m)).w.dispatch != Staged
    ensures Sound(cfg, Next(cfg, s, Advance(Dispatch, m)).w)
  {
    hide FindFinal, DailyRootFor, BufferAddress, BufferChunks, PB.Prior, PB.StoreInv, UploadFrom, Next, Approaching,
         Plain, CanonicalBytes, Path;
    var todo, next := s.dispatch.todo, Next(cfg, s, Advance(Dispatch, m));
    NextKeepsStore(cfg, s, Advance(Dispatch, m));
    PhasePends(cfg, s.w, todo, j);
    if Idling(todo) {
      PlainAdvance(cfg, s, m);
      assert Idling(todo[1..]);
      o := Passed;
    } else if j == 0 && exists prefix, i :: Approaching(cfg, prefix, i, todo) {
      var prefix, i :| Approaching(cfg, prefix, i, todo);
      DropPrefix(cfg, prefix, i, todo);
      if prefix != [] {
        PlainAdvance(cfg, s, m);
        assert Approaching(cfg, prefix[1..], i, todo[1..]);
        assert Phase(cfg, next.w, next.dispatch.todo, 0);
        ApproachIsBusy(cfg, next.w, prefix[1..], i, todo[1..]);
      } else {
        BufferAdvance(cfg, s, m);
        InitHolds(cfg, s.w, next.w);
        UploadPhase(cfg, next.w, 0, i);
        UploadPends(cfg, 0, i);
        PhasePends(cfg, next.w, next.dispatch.todo, 0);
      }
      o := Passed;
    } else {
      var i :| todo == UploadFrom(cfg, j, i);
      o := UploadDoes(cfg, s, m, j, i);
    }
  }

  lemma ApproachIsBusy(cfg: Config, w: World, prefix: seq<Action>, i: TickInput, todo: seq<Action>)
    requires CanStage(cfg) && Approaching(cfg, prefix, i, todo)
    ensures !Idling(todo)
  {
    hide FindFinal, DailyRootFor, BufferAddress, BufferChunks, UploadFrom;
    assert todo[|prefix|] == InitBuffer(BufferAddress(cfg)) && todo[|prefix|] in todo;
  }

  // -------------------------------------------------------------------------
  // Never
  // -------------------------------------------------------------------------

  /** A buffer that is not sealed and holds the bytes it held at first, what crashed attempts left, and
      this attempt's first chunks. */
  ghost predicate At(cfg: Config, s: System, first: bytes, cuts: seq<nat>, j: nat)
    requires CanStage(cfg)
  {
    && Sound(cfg, s.w) && !Sealed(cfg, s.w) && s.w.dispatch != Staged
    && Phase(cfg, s.w, s.dispatch.todo, j) && j <= |BufferChunks(cfg)|
    && Held(cfg, s.w) == first + Junk(BufferChunks(cfg), cuts) + PB.Concat(BufferChunks(cfg)[..j])
  }

  /** However an upload is cut off, the hash of what is then there is not the bundle's. */
  ghost predicate NeverMatches(cfg: Config, first: bytes)
    requires CanStage(cfg)
  {
    forall cuts :: !Matches(cfg, first, cuts)
  }

  predicate Matches(cfg: Config, first: bytes, cuts: seq<nat>)
    requires CanStage(cfg)
  {
    var canonical := CanonicalBytes(cfg);
    cfg.setup.c.keccak(first + Junk(BufferChunks(cfg), cuts) + canonical) == cfg.setup.c.keccak(canonical)
  }

  lemma ChunksAreAll(cfg: Config)
    requires CanStage(cfg)
    ensures PB.Concat(BufferChunks(cfg)) == CanonicalBytes(cfg)
  {
    hide FindFinal, DailyRootFor, CanonicalBytes, PB.Chunks, PB.Concat;
    PB.ChunksJoin(CanonicalBytes(cfg), cfg.chunkSize);
  }

  lemma CutOff(chunks: seq<bytes>, cuts: seq<nat>, j: nat)
    requires j <= |chunks|
    ensures Junk(chunks, cuts + [j]) == Junk(chunks, cuts) + PB.Concat(chunks[..j])
    ensures Junk(chunks, cuts + [j]) + PB.Concat(chunks[..0]) == Junk(chunks, cuts + [j])
  {
    assert (cuts + [j])[..|cuts|] == cuts;
    assert chunks[..0] == [];
  }

  /** A crash, or the seal's refusal, leaves the appended chunks behind. */
  lemma CutAt(cfg: Config, s: System, next: System, first: bytes, cuts: seq<nat>, j: nat)
    requires CanStage(cfg) && At(cfg, s, first, cuts, j)
    requires next.w.buffers == s.w.buffers && next.w.dispatch != Staged && next.dispatch.todo == []
    ensures At(cfg, next, first, cuts + [j], 0)
  {
    hide FindFinal, DailyRootFor, BufferAddress, BufferChunks, PB.Concat, PB.Prior, PB.StoreInv, Junk, Phase;
    var chunks := BufferChunks(cfg);
    CutOff(chunks, cuts, j);
    Regroup(first, Junk(chunks, cuts), PB.Concat(chunks[..j]), PB.Concat(chunks[..0]));
    IdlePhase(cfg, next.w);
  }

  lemma Regroup(a: bytes, b: bytes, c: bytes, d: bytes)
    ensures a + b + c == a + (b + c) && a + (b + c) + d == a + ((b + c) + d)
  {
  }

  lemma IdlePhase(cfg: Config, w: World)
    requires CanStage(cfg)
    ensures Phase(cfg, w, [], 0)
  {
    hide FindFinal, DailyRootFor, BufferAddress, BufferChunks;
    assert Idling([]);
  }

  /** The head of an upload. */
  lemma UploadHead(cfg: Config, j: nat, i: TickInput)
    requires CanStage(cfg) && j <= |BufferChunks(cfg)|
    ensures UploadFrom(cfg, j, i) != []
    ensures j < |BufferChunks(cfg)| ==>
              && UploadFrom(cfg, j, i)[0] == AppendChunk(BufferAddress(cfg), BufferChunks(cfg)[j])
              && UploadFrom(cfg, j, i)[1..] == UploadFrom(cfg, j + 1, i)
    ensures j == |BufferChunks(cfg)| ==>
              && UploadFrom(cfg, j, i)[0] == SealBuffer(BufferAddress(cfg), HandoffOf(cfg).proofBundleHash)
              && UploadFrom(cfg, j, i)[1..] == HandOver(cfg, i)
  {
    hide FindFinal, DailyRootFor, BufferAddress, BufferChunks, HandoffOf, HandOver;
    var chunks := BufferChunks(cfg);
    if j < |chunks| {
      assert Appends(BufferAddress(cfg), chunks[j..]) ==
             [AppendChunk(BufferAddress(cfg), chunks[j])] + Appends(BufferAddress(cfg), chunks[j + 1..]);
    } else {
      assert chunks[j..] == [] && Appends(BufferAddress(cfg), chunks[j..]) == [];
    }
  }

  lemma OneMore(chunks: seq<bytes>, j: nat)
    requires j < |chunks|
    ensures PB.Concat(chunks[..j + 1]) == PB.Concat(chunks[..j]) + chunks[j]
  {
    assert chunks[..j + 1] == chunks[..j] + [chunks[j]];
    PB.ConcatOne(chunks[..j], chunks[j]);
  }

  lemma PlainAdvance(cfg: Config, s: System, m: Moment)
    requires s.dispatch.todo != [] && Plain(s.dispatch.todo[0]) && s.w.dispatch != Staged
    ensures var next := Next(cfg, s, Advance(Dispatch, m));
            next.w.buffers == s.w.buffers && next.w.dispatch != Staged && next.dispatch.todo == s.dispatch.todo[1..]
  {
  }

  lemma BufferAdvance(cfg: Config, s: System, m: Moment)
    requires s.dispatch.todo != []
    ensures var next, a, rest := Next(cfg, s, Advance(Dispatch, m)), s.dispatch.todo[0], s.dispatch.todo[1..];
            && (a.InitBuffer? ==> next == s.(w := s.w.(buffers := PB.AfterInit(s.w.buffers, a.address, UPLOADER)),
                                             dispatch := s.dispatch.(todo := rest)))
            && (a.AppendChunk? ==>
                  var r := PB.TryAppend(s.w.buffers, a.address, a.chunk);
                  next == if r.Ok? then s.(w := s.w.(buffers := r.value), dispatch := s.dispatch.(todo := rest))
                          else s.(dispatch := IDLE))
            && (a.SealBuffer? ==>
                  var r := PB.TrySeal(cfg.setup.c.keccak, s.w.buffers, a.address, a.expected);
                  next == if r.Ok? then s.(w := s.w.(buffers := r.value), dispatch := s.dispatch.(todo := rest))
                          else s.(dispatch := IDLE))
  {
    hide PB.AfterInit, PB.TryAppend, PB.TrySeal;
  }

  lemma UploadPhase(cfg: Config, w: World, j: nat, i: TickInput)
    requires CanStage(cfg) && j <= |BufferChunks(cfg)| && Present(cfg, w)
    ensures Phase(cfg, w, UploadFrom(cfg, j, i), j)
  {
    hide UploadFrom;
  }

  lemma Tail<T>(prefix: seq<T>, x: T, rest: seq<T>)
    ensures prefix != [] ==>
              (prefix + [x] + rest)[0] == prefix[0] && (prefix + [x] + rest)[1..] == prefix[1..] + [x] + rest
    ensures prefix == [] ==> (prefix + [x] + rest)[0] == x && (prefix + [x] + rest)[1..] == rest
  {
  }

  lemma DropPrefix(cfg: Config, prefix: seq<Action>, i: TickInput, todo: seq<Action>)
    requires CanStage(cfg) && Approaching(cfg, prefix, i, todo)
    ensures todo != []
    ensures prefix != [] ==> Plain(todo[0]) && Approaching(cfg, prefix[1..], i, todo[1..])
    ensures prefix == [] ==> todo[0] == InitBuffer(BufferAddress(cfg)) && todo[1..] == UploadFrom(cfg, 0, i)
  {
    hide FindFinal, DailyRootFor, BufferAddress, BufferChunks, UploadFrom, Plain;
    Tail(prefix, InitBuffer(BufferAddress(cfg)), UploadFrom(cfg, 0, i));
  }

  /** The seal refuses what is there. */
  lemma SealRefuses(cfg: Config, s: System, first: bytes, cuts: seq<nat>, j: nat)
    requires CanStage(cfg) && At(cfg, s, first, cuts, j) && NeverMatches(cfg, first) && j == |BufferChunks(cfg)|
    ensures cfg.setup.c.keccak(Held(cfg, s.w)) != cfg.setup.c.keccak(CanonicalBytes(cfg))
  {
    hide FindFinal, DailyRootFor, BufferAddress, BufferChunks, PB.Concat, PB.Prior, Sound, Junk, CanonicalBytes,
         Phase;
    ChunksAreAll(cfg);
    assert BufferChunks(cfg)[..j] == BufferChunks(cfg);
    assert !Matches(cfg, first, cuts);
  }

  lemma DispatchAdvance(cfg: Config, s: System, m: Moment, first: bytes, cuts: seq<nat>, j: nat)
    returns (cuts': seq<nat>, j': nat)
    requires CanStage(cfg) && At(cfg, s, first, cuts, j) && NeverMatches(cfg, first) && s.dispatch.todo != []
    ensures At(cfg, Next(cfg, s, Advance(Dispatch, m)), first, cuts', j')
  {
    hide FindFinal, DailyRootFor, BufferAddress, BufferChunks, PB.Concat, PB.Prior, Sound, Junk, CanonicalBytes, Next,
         NeverMatches, Phase, Idling, Path, Finishing;
    var next := Next(cfg, s, Advance(Dispatch, m));
    var o := PhaseDoes(cfg, s, m, j);
    if j == |BufferChunks(cfg)| { SealRefuses(cfg, s, first, cuts, j); }
    if o == Passed {
      cuts', j' := cuts, 0;
    } else if o == Appended {
      OneMore(BufferChunks(cfg), j);
      cuts', j' := cuts, j + 1;
      assert (first + Junk(BufferChunks(cfg), cuts) + PB.Concat(BufferChunks(cfg)[..j])) + BufferChunks(cfg)[j] ==
             first + Junk(BufferChunks(cfg), cuts) + PB.Concat(BufferChunks(cfg)[..j + 1]);
    } else {
      cuts', j' := cuts + [j], 0;
      CutAt(cfg, s, next, first, cuts, j);
    }
  }

  lemma AtNext(cfg: Config, s: System, m: Move, first: bytes, cuts: seq<nat>, j: nat) returns (cuts': seq<nat>, j': nat)
    requires CanStage(cfg) && At(cfg, s, first, cuts, j) && NeverMatches(cfg, first) && SafetyInv(cfg, s)
    ensures At(cfg, Next(cfg, s, m), first, cuts', j')
  {
    hide FindFinal, DailyRootFor, BufferAddress, BufferChunks, PB.Concat, PB.Prior, PB.StoreInv, Junk, SafetyInv,
         NeverMatches,
         Phase, CanStage;
    var next := Next(cfg, s, m);
    if m.Advance? && m.who == Dispatch && s.dispatch.todo != [] {
      cuts', j' := DispatchAdvance(cfg, s, m.moment, first, cuts, j);
    } else {
      OthersLeaveStaging(cfg, s, m);
      if m.Crash? && m.who == Dispatch {
        cuts', j' := cuts + [j], 0;
        CutAt(cfg, s, next, first, cuts, j);
      } else {
        cuts', j' := cuts, j;
        if m.Start? && m.who == Dispatch && s.dispatch.todo == [] {
          EmptyPhase(cfg, s.w, j);
          TickPhase(cfg, s.w, m.input);
          DispatchTickOf(cfg, s.w, m.input);
        }
        SamePhase(cfg, s.w, next.w, next.dispatch.todo, j);
      }
    }
  }

  lemma DispatchTickOf(cfg: Config, w: World, i: TickInput)
    ensures Tick(cfg, Dispatch, w, i) == DispatchTick(cfg, w, i)
  {
    hide DispatchTick;
  }

  /** Between ticks no chunk counts as this attempt's. */
  lemma EmptyPhase(cfg: Config, w: World, j: nat)
    requires CanStage(cfg) && Phase(cfg, w, [], j)
    ensures j == 0
  {
    hide FindFinal, DailyRootFor, BufferAddress, BufferChunks, HandoffOf;
  }

  lemma SamePhase(cfg: Config, w: World, next: World, todo: seq<Action>, j: nat)
    requires CanStage(cfg) && next.buffers == w.buffers
    ensures Phase(cfg, w, todo, j) <==> Phase(cfg, next, todo, j)
  {
    hide FindFinal, DailyRootFor, BufferAddress, BufferChunks, UploadFrom, Approaching;
  }

  // -------------------------------------------------------------------------
  // A sealed buffer, and a proof that cannot be staged
  // -------------------------------------------------------------------------

  lemma UploadSealsFirst(cfg: Config, j: nat, i: TickInput)
    requires CanStage(cfg) && j <= |BufferChunks(cfg)|
    ensures Guarded(StageRule, false, UploadFrom(cfg, j, i)) && OurSeals(cfg, UploadFrom(cfg, j, i))
  {
    hide FindFinal, DailyRootFor, BufferAddress, BufferChunks, HandoffOf;
    var appends, rest := Appends(BufferAddress(cfg), BufferChunks(cfg)[j..]),
        [SealBuffer(BufferAddress(cfg), HandoffOf(cfg).proofBundleHash)] + HandOver(cfg, i);
    assert rest[1..] == HandOver(cfg, i);
    OpenIsGuarded(StageRule, HandOver(cfg, i));
    GuardedFree(StageRule, false, appends, rest);
    assert UploadFrom(cfg, j, i) == appends + rest;
  }

  /** "staged" comes after the seal. */
  lemma PhaseSealsFirst(cfg: Config, w: World, todo: seq<Action>, j: nat)
    requires CanStage(cfg) && Phase(cfg, w, todo, j)
    ensures Guarded(StageRule, false, todo) && OurSeals(cfg, todo)
  {
    hide FindFinal, DailyRootFor, BufferAddress, BufferChunks, UploadFrom, Guarded;
    if j == 0 && Idling(todo) {
      GuardedWhole(StageRule, false, todo);
    } else if j == 0 && exists prefix, i :: Approaching(cfg, prefix, i, todo) {
      var prefix, i :| Approaching(cfg, prefix, i, todo);
      UploadSealsFirst(cfg, 0, i);
      GuardedFree(StageRule, false, prefix + [InitBuffer(BufferAddress(cfg))], UploadFrom(cfg, 0, i));
    } else {
      var i :| todo == UploadFrom(cfg, j, i);
      UploadSealsFirst(cfg, j, i);
    }
  }

  lemma WholeUpload(cfg: Config, i: TickInput)
    requires CanStage(cfg)
    ensures Upload(cfg, i) == UploadFrom(cfg, 0, i)
  {
    hide FindFinal, DailyRootFor, BufferAddress, BufferChunks, HandoffOf, HandOver;
    assert BufferChunks(cfg)[0..] == BufferChunks(cfg);
  }

  lemma StageSealsFirst(cfg: Config, i: TickInput)
    requires FindFinal(cfg.fixture.records).Some?
    ensures Guarded(StageRule, false, Stage(cfg, i))
    ensures !CanStage(cfg) ==> forall a <- Stage(cfg, i) :: !Needs(StageRule, a) && !a.SealBuffer?
  {
    hide FindFinal, Final, DailyRootFor, HandoffOf, BufferAddress, Upload, UploadFrom, OurSeals, BufferChunks;
    var stage := Stage(cfg, i);
    if CanStage(cfg) {
      WholeUpload(cfg, i);
      UploadSealsFirst(cfg, 0, i);
      assert stage == stage[..2] + Upload(cfg, i);
      GuardedFree(StageRule, false, stage[..2], Upload(cfg, i));
    } else {
      GuardedWhole(StageRule, false, stage);
    }
  }

  /** "staged" comes after the seal, and not at all without one. */
  lemma TickSealsFirst(cfg: Config, w: World, i: TickInput)
    ensures Guarded(StageRule, false, DispatchTick(cfg, w, i))
    ensures !CanStage(cfg) ==> forall a <- DispatchTick(cfg, w, i) :: !Needs(StageRule, a) && !a.SealBuffer?
  {
    hide FindFinal, Final, Stage, CanStage, Guarded;
    var tick := DispatchTick(cfg, w, i);
    var ready := i.tick >= ObservedTick(w.dispatch, i.tick) + ReadyAfter(cfg);
    if FindFinal(cfg.fixture.records).Some? && w.dispatch != Staged && ready {
      StageSealsFirst(cfg, i);
      var prefix := tick[..|tick| - |Stage(cfg, i)|];
      assert tick == prefix + Stage(cfg, i);
      GuardedFree(StageRule, false, prefix, Stage(cfg, i));
    } else {
      GuardedWhole(StageRule, false, tick);
    }
  }

  predicate OurSeals(cfg: Config, todo: seq<Action>)
    requires CanStage(cfg)
  {
    forall a <- todo :: a.SealBuffer? ==> a.address == BufferAddress(cfg)
  }

  ghost predicate Shut(cfg: Config, s: System) {
    && CanStage(cfg) && Sound(cfg, s.w) && Sealed(cfg, s.w) && s.w.dispatch != Staged
    && Guarded(StageRule, false, s.dispatch.todo) && OurSeals(cfg, s.dispatch.todo)
  }

  lemma TickSealsOurs(cfg: Config, w: World, i: TickInput)
    requires CanStage(cfg)
    ensures OurSeals(cfg, DispatchTick(cfg, w, i))
  {
    hide FindFinal, Final, DailyRootFor, HandoffOf, BufferAddress, BufferChunks, Stage;
    StageSealsOurs(cfg, i);
  }

  lemma StageSealsOurs(cfg: Config, i: TickInput)
    requires CanStage(cfg)
    ensures OurSeals(cfg, Stage(cfg, i))
  {
    hide FindFinal, Final, DailyRootFor, HandoffOf, BufferAddress, BufferChunks;
    assert OurSeals(cfg, Appends(BufferAddress(cfg), BufferChunks(cfg)));
  }

  /** What a dispatch tick does to one sealed buffer: nothing, whatever the operation. */
  lemma ShutAdvance(cfg: Config, s: System, m: Moment)
    requires Shut(cfg, s) && s.dispatch.todo != [] && Fits(cfg, s.w, Dispatch, s.dispatch.todo[0])
    ensures Shut(cfg, Next(cfg, s, Advance(Dispatch, m)))
  {
    hide FindFinal, DailyRootFor, BufferAddress, PB.Uploaded, PB.AfterInit, PB.TryAppend, PB.TrySeal, PB.StoreInv, Next,
         Path,
         Derived, DerivedId, IsHandoff, FixtureNumber, IsDual;
    var a, next := s.dispatch.todo[0], Next(cfg, s, Advance(Dispatch, m));
    ShutBuffers(cfg, s.w, a);
    assert OurSeals(cfg, s.dispatch.todo[1..]);
    DispatchStep(cfg, s, m);
  }

  /** One buffer operation on a store in which our buffer is sealed. */
  lemma ShutBuffers(cfg: Config, w: World, a: Action)
    requires CanStage(cfg) && Sound(cfg, w) && Sealed(cfg, w)
    ensures a.InitBuffer? ==> KeepsOurs(cfg, w, PB.AfterInit(w.buffers, a.address, UPLOADER))
    ensures a.AppendChunk? && PB.TryAppend(w.buffers, a.address, a.chunk).Ok? ==>
              KeepsOurs(cfg, w, PB.TryAppend(w.buffers, a.address, a.chunk).value)
    ensures a.SealBuffer? && a.address == BufferAddress(cfg) ==>
              PB.TrySeal(cfg.setup.c.keccak, w.buffers, a.address, a.expected).Err?
  {
    hide FindFinal, DailyRootFor, BufferAddress, PB.Uploaded, PB.AfterInit, PB.TryAppend, PB.TrySeal, PB.StoreInv;
    var k := cfg.setup.c.keccak;
    if a.InitBuffer? { PB.OpKeeps(k, w.buffers, PB.Init(a.address, UPLOADER), Path(cfg)); }
    if a.AppendChunk? { PB.OpKeeps(k, w.buffers, PB.Append(a.address, a.chunk), Path(cfg)); }
    if a.SealBuffer? { SealHolds(cfg, w, a.expected); }
  }

  predicate KeepsOurs(cfg: Config, w: World, files: PB.Files)
    requires CanStage(cfg)
  {
    && PB.StoreInv(cfg.setup.c.keccak, files) && Path(cfg) in files && Path(cfg) in w.buffers
    && files[Path(cfg)] == w.buffers[Path(cfg)]
  }

  /** What the dispatch workflow's next action does to the world and to what it has left to do. */
  lemma DispatchStep(cfg: Config, s: System, m: Moment)
    requires s.dispatch.todo != [] && Fits(cfg, s.w, Dispatch, s.dispatch.todo[0])
    ensures var next, a := Next(cfg, s, Advance(Dispatch, m)), s.dispatch.todo[0];
            && (next.w.dispatch == if a.SaveDispatch? then a.dispatch else s.w.dispatch)
            && next.dispatch.todo in [s.dispatch.todo[1..], []]
            && (a.SealBuffer? && PB.TrySeal(cfg.setup.c.keccak, s.w.buffers, a.address, a.expected).Err? ==>
                  next.dispatch.todo == [])
            && next.w.buffers ==
               match a
               case InitBuffer(address) => PB.AfterInit(s.w.buffers, address, UPLOADER)
               case AppendChunk(address, chunk) =>
                 (match PB.TryAppend(s.w.buffers, address, chunk) case Ok(files) => files case Err(_) => s.w.buffers)
               case SealBuffer(address, expected) =>
                 (match PB.TrySeal(cfg.setup.c.keccak, s.w.buffers, address, expected)
                  case Ok(files) => files
                  case Err(_) => s.w.buffers)
               case _ => s.w.buffers
  {
    hide PB.AfterInit, PB.TryAppend, PB.TrySeal, Derived, DerivedId, IsHandoff, FixtureNumber, IsDual;
  }

  lemma ShutNext(cfg: Config, s: System, m: Move)
    requires Shut(cfg, s) && SafetyInv(cfg, s)
    ensures Shut(cfg, Next(cfg, s, m))
  {
    hide Next, SafetyInv, Guarded, CanStage, BufferAddress;
    if m.Advance? && m.who == Dispatch && s.dispatch.todo != [] {
      DispatchHead(cfg, s);
      ShutAdvance(cfg, s, m.moment);
    } else {
      OthersLeaveStaging(cfg, s, m);
      NewDispatchTodo(cfg, s, m);
      GuardedWhole(StageRule, false, []);
      if m.Start? {
        TickSealsFirst(cfg, s.w, m.input);
        TickSealsOurs(cfg, s.w, m.input);
      }
    }
  }

  lemma DispatchHead(cfg: Config, s: System)
    requires SafetyInv(cfg, s) && s.dispatch.todo != []
    ensures Fits(cfg, s.w, Dispatch, s.dispatch.todo[0])
  {
    hide WorldInv, Fits;
    assert AllFit(cfg, s.w, Dispatch, s.Of(Dispatch).todo);
  }

  lemma NewDispatchTodo(cfg: Config, s: System, m: Move)
    requires !(m.Advance? && m.who == Dispatch && s.dispatch.todo != [])
    ensures var todo := Next(cfg, s, m).dispatch.todo;
            || todo == s.dispatch.todo || todo == []
            || (m.Start? && m.who == Dispatch && todo == DispatchTick(cfg, s.w, m.input))
  {
    hide DispatchTick, AttestorTick, ExecutorTick, Do, AfterTx;
  }

  /** There is no "staged" in what is left to do. */
  ghost predicate Barred(cfg: Config, s: System) {
    !CanStage(cfg) && s.w.dispatch != Staged && forall a <- s.dispatch.todo :: !Needs(StageRule, a)
  }

  lemma BarredNext(cfg: Config, s: System, m: Move)
    requires Barred(cfg, s) && SafetyInv(cfg, s)
    ensures Barred(cfg, Next(cfg, s, m))
  {
    hide Next, SafetyInv, CanStage;
    if m.Advance? && m.who == Dispatch && s.dispatch.todo != [] {
      DispatchHead(cfg, s);
      BarredAdvance(cfg, s, m.moment);
    } else {
      OthersLeaveStaging(cfg, s, m);
      NewDispatchTodo(cfg, s, m);
      if m.Start? { TickSealsFirst(cfg, s.w, m.input); }
    }
  }

  lemma BarredAdvance(cfg: Config, s: System, m: Moment)
    requires Barred(cfg, s) && s.dispatch.todo != [] && Fits(cfg, s.w, Dispatch, s.dispatch.todo[0])
    ensures Barred(cfg, Next(cfg, s, Advance(Dispatch, m)))
  {
    hide CanStage, PB.AfterInit, PB.TryAppend, PB.TrySeal, Derived, DerivedId, IsHandoff, FixtureNumber, IsDual;
    assert !Needs(StageRule, s.dispatch.todo[0]);
  }

  // -------------------------------------------------------------------------
  // No continuation
  // -------------------------------------------------------------------------

  lemma {:induction false} BarredForever(cfg: Config, s: System, moves: seq<Move>)
    requires SafetyInv(cfg, s) && AllAllowed(moves) && (Barred(cfg, s) || Shut(cfg, s))
    ensures Run(cfg, s, moves).w.dispatch != Staged
    ensures (Barred(cfg, Run(cfg, s, moves)) || Shut(cfg, Run(cfg, s, moves)))
    decreases |moves|
  {
    hide Next, SafetyInv, Allowed, CanStage, Guarded;
    if moves != [] {
      var init := moves[..|moves| - 1];
      var before := Run(cfg, s, init);
      assert forall m <- init :: m in moves;
      BarredForever(cfg, s, init);
      RunIsSafe(cfg, s, init);
      if Barred(cfg, before) { BarredNext(cfg, before, moves[|moves| - 1]); } else {
        ShutNext(cfg, before, moves[|moves| - 1]);
      }
    }
  }

  lemma {:induction false} NeverStaged(cfg: Config, s: System, moves: seq<Move>, first: bytes)
    returns (cuts: seq<nat>, j: nat)
    requires SafetyInv(cfg, s) && AllAllowed(moves) && CanStage(cfg)
    requires At(cfg, s, first, [], 0) && NeverMatches(cfg, first)
    ensures At(cfg, Run(cfg, s, moves), first, cuts, j)
    decreases |moves|
  {
    hide Next, SafetyInv, Allowed, CanStage, At, NeverMatches;
    if moves == [] {
      cuts, j := [], 0;
    } else {
      var init := moves[..|moves| - 1];
      assert forall m <- init :: m in moves;
      var cuts0, j0 := NeverStaged(cfg, s, init, first);
      RunIsSafe(cfg, s, init);
      cuts, j := AtNext(cfg, Run(cfg, s, init), moves[|moves| - 1], first, cuts0, j0);
    }
  }

  // -------------------------------------------------------------------------
  // The attempt that is running
  // -------------------------------------------------------------------------

  /** It has appended chunks j0 to j since the buffer held these bytes, and is not over. */
  ghost predicate Still(cfg: Config, s: System, first: bytes, j0: nat, j: nat)
    requires CanStage(cfg)
  {
    && Sound(cfg, s.w) && !Sealed(cfg, s.w) && s.w.dispatch != Staged
    && Phase(cfg, s.w, s.dispatch.todo, j) && !Idling(s.dispatch.todo) && j0 <= j <= |BufferChunks(cfg)|
    && Held(cfg, s.w) == first + PB.Concat(BufferChunks(cfg)[j0..j])
  }

  /** It cannot go through, nor can a later one wherever it is cut off. */
  ghost predicate NeverFrom(cfg: Config, first: bytes, j0: nat)
    requires CanStage(cfg) && j0 <= |BufferChunks(cfg)|
  {
    && cfg.setup.c.keccak(first + PB.Concat(BufferChunks(cfg)[j0..])) != cfg.setup.c.keccak(CanonicalBytes(cfg))
    && forall n | j0 <= n <= |BufferChunks(cfg)| :: NeverMatches(cfg, first + PB.Concat(BufferChunks(cfg)[j0..n]))
  }

  lemma OneMoreFrom(chunks: seq<bytes>, j0: nat, j: nat)
    requires j0 <= j < |chunks|
    ensures PB.Concat(chunks[j0..j + 1]) == PB.Concat(chunks[j0..j]) + chunks[j]
  {
    assert chunks[j0..j + 1] == chunks[j0..j] + [chunks[j]];
    PB.ConcatOne(chunks[j0..j], chunks[j]);
  }

  /** What is there when an attempt is over. */
  lemma Over(cfg: Config, next: System, first: bytes)
    requires CanStage(cfg) && Sound(cfg, next.w) && !Sealed(cfg, next.w) && next.w.dispatch != Staged
    requires next.dispatch.todo == [] && Held(cfg, next.w) == first
    ensures At(cfg, next, first, [], 0)
  {
    hide FindFinal, DailyRootFor, BufferAddress, BufferChunks, PB.Prior, PB.StoreInv, Phase;
    IdlePhase(cfg, next.w);
    NothingCut(cfg, first);
  }

  lemma StillAdvance(cfg: Config, s: System, m: Moment, first: bytes, j0: nat, j: nat)
    returns (alive: bool, j': nat)
    requires CanStage(cfg) && Still(cfg, s, first, j0, j) && NeverFrom(cfg, first, j0) && s.dispatch.todo != []
    ensures j0 <= j' <= |BufferChunks(cfg)|
    ensures var next := Next(cfg, s, Advance(Dispatch, m));
            if alive then Still(cfg, next, first, j0, j')
            else At(cfg, next, first + PB.Concat(BufferChunks(cfg)[j0..j']), [], 0)
  {
    hide FindFinal, DailyRootFor, BufferAddress, BufferChunks, PB.Concat, PB.Prior, PB.StoreInv, CanonicalBytes, Next,
         NeverMatches, Phase, Idling, Path, Finishing, At;
    var next := Next(cfg, s, Advance(Dispatch, m));
    var o := PhaseDoes(cfg, s, m, j);
    if j == |BufferChunks(cfg)| { assert BufferChunks(cfg)[j0..j] == BufferChunks(cfg)[j0..]; }
    if o == Passed {
      alive, j' := true, 0;
    } else if o == Appended {
      OneMoreFrom(BufferChunks(cfg), j0, j);
      alive, j' := true, j + 1;
      assert first + PB.Concat(BufferChunks(cfg)[j0..j]) + BufferChunks(cfg)[j] ==
             first + PB.Concat(BufferChunks(cfg)[j0..j + 1]);
    } else {
      alive, j' := false, j;
      Over(cfg, next, first + PB.Concat(BufferChunks(cfg)[j0..j]));
    }
  }

  lemma StillNext(cfg: Config, s: System, m: Move, first: bytes, j0: nat, j: nat) returns (alive: bool, j': nat)
    requires CanStage(cfg) && Still(cfg, s, first, j0, j) && NeverFrom(cfg, first, j0) && SafetyInv(cfg, s)
    ensures j0 <= j' <= |BufferChunks(cfg)|
    ensures if alive then Still(cfg, Next(cfg, s, m), first, j0, j')
            else At(cfg, Next(cfg, s, m), first + PB.Concat(BufferChunks(cfg)[j0..j']), [], 0)
  {
    hide FindFinal, DailyRootFor, BufferAddress, BufferChunks, PB.Concat, PB.Prior, PB.StoreInv, SafetyInv, NeverFrom,
         Phase, At;
    var next := Next(cfg, s, m);
    assert s.dispatch.todo != [];
    if m.Advance? && m.who == Dispatch {
      alive, j' := StillAdvance(cfg, s, m.moment, first, j0, j);
    } else {
      OthersLeaveStaging(cfg, s, m);
      alive, j' := !(m.Crash? && m.who == Dispatch), j;
      if alive {
        SamePhase(cfg, s.w, next.w, next.dispatch.todo, j);
      } else {
        Over(cfg, next, first + PB.Concat(BufferChunks(cfg)[j0..j]));
      }
    }
  }

  lemma {:induction false} NeverCompletes(cfg: Config, s: System, moves: seq<Move>, first: bytes, j0: nat)
    returns (alive: bool, n: nat, cuts: seq<nat>, j: nat)
    requires SafetyInv(cfg, s) && AllAllowed(moves) && CanStage(cfg)
    requires Still(cfg, s, first, j0, j0) && NeverFrom(cfg, first, j0)
    ensures alive ==> Still(cfg, Run(cfg, s, moves), first, j0, j)
    ensures !alive ==>
              && j0 <= n <= |BufferChunks(cfg)|
              && At(cfg, Run(cfg, s, moves), first + PB.Concat(BufferChunks(cfg)[j0..n]), cuts, j)
    decreases |moves|
  {
    hide Next, SafetyInv, Allowed, FindFinal, DailyRootFor, At, NeverMatches, Still, BufferChunks;
    if moves == [] {
      alive, n, cuts, j := true, j0, [], j0;
    } else {
      var init := moves[..|moves| - 1];
      assert forall m <- init :: m in moves;
      var alive0, n0, cuts0, j1 := NeverCompletes(cfg, s, init, first, j0);
      RunIsSafe(cfg, s, init);
      if alive0 {
        cuts := [];
        alive, n := StillNext(cfg, Run(cfg, s, init), moves[|moves| - 1], first, j0, j1);
        j := if alive then n else 0;
      } else {
        alive, n := false, n0;
        cuts, j := AtNext(cfg, Run(cfg, s, init), moves[|moves| - 1], first + PB.Concat(BufferChunks(cfg)[j0..n0]),
                          cuts0, j1);
      }
    }
  }

  // -------------------------------------------------------------------------
  // Where every run leaves the dispatch workflow
  // -------------------------------------------------------------------------

  ghost predicate InPhase(cfg: Config, s: System)
    requires CanStage(cfg)
  {
    exists j :: Phase(cfg, s.w, s.dispatch.todo, j)
  }

  ghost predicate InPlace(cfg: Config, s: System)
    requires CanStage(cfg)
  {
    && Sound(cfg, s.w)
    && if s.w.dispatch == Staged then forall a <- s.dispatch.todo :: a.Emit?
       else InPhase(cfg, s) || (Sealed(cfg, s.w) && Finishing(s.dispatch.todo))
  }

  lemma FinishingAdvance(cfg: Config, s: System, m: Moment)
    requires Finishing(s.dispatch.todo)
    ensures var next := Next(cfg, s, Advance(Dispatch, m));
            && next.w.buffers == s.w.buffers
            && if |s.dispatch.todo| == 1 then next.w.dispatch == Staged && next.dispatch.todo == []
               else next.w.dispatch == s.w.dispatch && Finishing(next.dispatch.todo)
  {
  }

  lemma EmitAdvance(cfg: Config, s: System, m: Moment)
    requires s.dispatch.todo != [] && s.dispatch.todo[0].Emit?
    ensures var next := Next(cfg, s, Advance(Dispatch, m));
            && next.w.buffers == s.w.buffers && next.w.dispatch == s.w.dispatch
            && next.dispatch.todo == s.dispatch.todo[1..]
  {
  }

  lemma StagedTick(cfg: Config, w: World, i: TickInput)
    requires w.dispatch == Staged
    ensures forall a <- DispatchTick(cfg, w, i) :: a.Emit?
  {
  }

  lemma InPlaceAdvance(cfg: Config, s: System, m: Moment)
    requires CanStage(cfg) && InPlace(cfg, s) && s.dispatch.todo != []
    ensures InPlace(cfg, Next(cfg, s, Advance(Dispatch, m)))
  {
    hide FindFinal, DailyRootFor, Next, Phase, Sound, Finishing, PB.Prior, BufferChunks, CanonicalBytes, Path, Idling;
    var next := Next(cfg, s, Advance(Dispatch, m));
    NextKeepsStore(cfg, s, Advance(Dispatch, m));
    if s.w.dispatch == Staged {
      EmitAdvance(cfg, s, m);
    } else if InPhase(cfg, s) {
      var j :| Phase(cfg, s.w, s.dispatch.todo, j);
      var o := PhaseDoes(cfg, s, m, j);
      if o == CutShort { IdlePhase(cfg, next.w); }
    } else {
      FinishingAdvance(cfg, s, m);
    }
  }

  lemma InPlaceNext(cfg: Config, s: System, m: Move)
    requires CanStage(cfg) && InPlace(cfg, s) && SafetyInv(cfg, s)
    ensures InPlace(cfg, Next(cfg, s, m))
  {
    hide FindFinal, DailyRootFor, Next, Phase, Sound, Finishing, SafetyInv, CanStage, BufferAddress;
    var next := Next(cfg, s, m);
    if m.Advance? && m.who == Dispatch && s.dispatch.todo != [] {
      InPlaceAdvance(cfg, s, m.moment);
    } else {
      NextKeepsStore(cfg, s, m);
      OthersLeaveStaging(cfg, s, m);
      NewDispatchTodo(cfg, s, m);
      if next.dispatch.todo == [] {
        IdlePhase(cfg, next.w);
      } else if next.dispatch.todo == s.dispatch.todo {
        if InPhase(cfg, s) {
          var j :| Phase(cfg, s.w, s.dispatch.todo, j);
          SamePhase(cfg, s.w, next.w, next.dispatch.todo, j);
        }
      } else if s.w.dispatch == Staged {
        StagedTick(cfg, s.w, m.input);
      } else {
        TickPhase(cfg, s.w, m.input);
        SamePhase(cfg, s.w, next.w, next.dispatch.todo, 0);
      }
    }
  }

  lemma {:induction false} RunIsInPlace(cfg: Config, base: Base, moves: seq<Move>)
    requires CanStage(cfg) && BaseContracts.Inv(cfg.d, base) && AllAllowed(moves)
    ensures InPlace(cfg, Run(cfg, Beginning(base), moves))
    decreases |moves|
  {
    hide Next, SafetyInv, Allowed, CanStage, InPlace, BaseContracts.Inv;
    if moves == [] {
      BeginningInPlace(cfg, base);
    } else {
      var init := moves[..|moves| - 1];
      assert forall m <- init :: m in moves;
      RunIsInPlace(cfg, base, init);
      BeginningIsSafe(cfg, base);
      RunIsSafe(cfg, Beginning(base), init);
      InPlaceNext(cfg, Run(cfg, Beginning(base), init), moves[|moves| - 1]);
    }
  }

  lemma BeginningInPlace(cfg: Config, base: Base)
    requires CanStage(cfg)
    ensures InPlace(cfg, Beginning(base))
  {
    hide FindFinal, DailyRootFor, Phase, Finishing;
    IdlePhase(cfg, Beginning(base).w);
  }

  lemma NextKeepsStore(cfg: Config, s: System, m: Move)
    requires Sound(cfg, s.w)
    ensures Sound(cfg, Next(cfg, s, m).w)
  {
    hide Do, Tick, AfterTx, PB.StoreInv;
    if m.Advance? && s.Of(m.who).todo != [] { DoKeepsStore(cfg, s.w, s.Of(m.who), m.moment); }
  }

  lemma DoKeepsStore(cfg: Config, w: World, p: Proc, m: Moment)
    requires p.todo != [] && Sound(cfg, w)
    ensures Sound(cfg, Do(cfg, w, p, m).0)
  {
    hide TryOnReport, TrySubmit, TrySettle, RowOf, Seen, PB.AfterInit, PB.TryAppend, PB.TrySeal, ReadLevel4Id,
         PB.StoreInv;
    var a, k := p.todo[0], cfg.setup.c.keccak;
    if a.InitBuffer? { PB.OpKeeps(k, w.buffers, PB.Init(a.address, UPLOADER), ""); }
    if a.AppendChunk? { PB.OpKeeps(k, w.buffers, PB.Append(a.address, a.chunk), ""); }
    if a.SealBuffer? { PB.OpKeeps(k, w.buffers, PB.Seal(a.address, a.expected), ""); }
  }

  lemma {:induction false} RunKeepsStore(cfg: Config, s: System, moves: seq<Move>)
    requires Sound(cfg, s.w)
    ensures Sound(cfg, Run(cfg, s, moves).w)
    decreases |moves|
  {
    hide Next, Sound;
    if moves != [] {
      RunKeepsStore(cfg, s, moves[..|moves| - 1]);
      NextKeepsStore(cfg, Run(cfg, s, moves[..|moves| - 1]), moves[|moves| - 1]);
    }
  }

  // -------------------------------------------------------------------------
  // Getting there
  // -------------------------------------------------------------------------

  /** Between ticks, with the buffer not sealed and "staged" not saved. */
  predicate Resting(cfg: Config, s: System)
    requires CanStage(cfg)
  {
    s.dispatch.todo == [] && s.w.dispatch != Staged && Sound(cfg, s.w) && !Sealed(cfg, s.w)
  }

  function TickAt(tick: nat): TickInput { QuietInput([]).(tick := tick) }

  /** A tick that only observes the final record. */
  lemma Observe(cfg: Config, s: System) returns (moves: seq<Move>, t: System)
    requires CanStage(cfg) && Resting(cfg, s)
    ensures Reaches(cfg, s, moves, t, true) && Resting(cfg, t) && t.w.dispatch.FinalObserved?
    ensures t.w.buffers == s.w.buffers
  {
    hide Reaches, FindFinal, Final, DailyRootFor, BufferAddress, Stage, PB.StoreInv;
    if s.w.dispatch.FinalObserved? {
      moves, t := [], s;
      Nowhere(cfg, s, true);
    } else {
      var i, m := TickAt(0), Moment(0, 0);
      var begun := Next(cfg, s, Start(Dispatch, i));
      OneMove(cfg, s, Start(Dispatch, i), true);
      assert begun.Of(Dispatch) == begun.dispatch;
      var events, seen := PerformEvents(cfg, begun, Dispatch, 2, m);
      assert seen.dispatch.todo == begun.dispatch.todo[2..];
      var saved := Step(cfg, seen, Dispatch, m, true);
      t := Next(cfg, saved, Crash(Dispatch));
      OneMove(cfg, saved, Crash(Dispatch), true);
      Follow(cfg, s, [Start(Dispatch, i)], begun, events, seen, true);
      Follow(cfg, s, [Start(Dispatch, i)] + events, seen, [Advance(Dispatch, m)], saved, true);
      Follow(cfg, s, [Start(Dispatch, i)] + events + [Advance(Dispatch, m)], saved, [Crash(Dispatch)], t, true);
      moves := [Start(Dispatch, i)] + events + [Advance(Dispatch, m)] + [Crash(Dispatch)];
    }
  }

  /** In the middle of an upload. */
  predicate UploadingAt(cfg: Config, s: System, j: nat, i: TickInput)
    requires CanStage(cfg) && j <= |BufferChunks(cfg)|
  {
    && s.dispatch.todo == UploadFrom(cfg, j, i) && s.w.dispatch != Staged
    && Sound(cfg, s.w) && Present(cfg, s.w) && !Sealed(cfg, s.w)
  }

  lemma BeginUpload(cfg: Config, s: System) returns (moves: seq<Move>, t: System, i: TickInput)
    requires CanStage(cfg) && Resting(cfg, s) && s.w.dispatch.FinalObserved?
    ensures Reaches(cfg, s, moves, t, true) && UploadingAt(cfg, t, 0, i) && Held(cfg, t.w) == Held(cfg, s.w)
  {
    hide Reaches, FindFinal, DailyRootFor, BufferAddress, BufferChunks, PB.StoreInv, PB.Prior, UploadFrom, Path;
    var ahead;
    moves, ahead, i := UpToInit(cfg, s);
    var m := Moment(0, 0);
    assert ahead.Of(Dispatch) == ahead.dispatch;
    t := Step(cfg, ahead, Dispatch, m, true);
    InitHolds(cfg, ahead.w, t.w);
    Follow(cfg, s, moves, ahead, [Advance(Dispatch, m)], t, true);
    moves := moves + [Advance(Dispatch, m)];
  }

  lemma UpToInit(cfg: Config, s: System) returns (moves: seq<Move>, t: System, i: TickInput)
    requires CanStage(cfg) && s.dispatch.todo == [] && s.w.dispatch.FinalObserved?
    ensures Reaches(cfg, s, moves, t, true) && t.w == s.w.(stream := t.w.stream)
    ensures t.dispatch.todo != [] && t.dispatch.todo[0] == InitBuffer(BufferAddress(cfg))
    ensures t.dispatch.todo[1..] == UploadFrom(cfg, 0, i)
  {
    hide Reaches, FindFinal, DailyRootFor, BufferAddress, UploadFrom, DispatchTick;
    var ready := s.w.dispatch.tick + ReadyAfter(cfg);
    i := TickAt(if ready > 0 then ready else 0);
    var begun := Next(cfg, s, Start(Dispatch, i));
    OneMove(cfg, s, Start(Dispatch, i), true);
    assert begun.Of(Dispatch) == begun.dispatch && begun.dispatch.todo == DispatchTick(cfg, s.w, i);
    UploadingTick(cfg, s.w, i);
    var events;
    events, t := PerformEvents(cfg, begun, Dispatch, 2, Moment(0, 0));
    assert t.dispatch.todo == begun.dispatch.todo[2..];
    Follow(cfg, s, [Start(Dispatch, i)], begun, events, t, true);
    moves := [Start(Dispatch, i)] + events;
  }

  lemma UploadingTick(cfg: Config, w: World, i: TickInput)
    requires CanStage(cfg) && w.dispatch.FinalObserved? && i.tick >= w.dispatch.tick + ReadyAfter(cfg)
    ensures var tick := DispatchTick(cfg, w, i);
            && |tick| > 3 && tick[0].Emit? && tick[1].Emit? && tick[2] == InitBuffer(BufferAddress(cfg))
            && tick[2..][1..] == UploadFrom(cfg, 0, i)
  {
    hide FindFinal, Final, DailyRootFor, BufferAddress, BufferChunks, HandoffOf, HandOver;
    assert BufferChunks(cfg)[0..] == BufferChunks(cfg);
    assert UploadFrom(cfg, 0, i) == Upload(cfg, i);
    var tick := DispatchTick(cfg, w, i);
    assert tick == [tick[0], tick[1], tick[2]] + Upload(cfg, i);
  }

  lemma {:induction false} AppendMany(cfg: Config, s: System, j: nat, n: nat, i: TickInput)
    returns (moves: seq<Move>, t: System)
    requires CanStage(cfg) && j <= n <= |BufferChunks(cfg)| && UploadingAt(cfg, s, j, i)
    ensures Reaches(cfg, s, moves, t, true) && UploadingAt(cfg, t, n, i)
    ensures Held(cfg, t.w) == Held(cfg, s.w) + PB.Concat(BufferChunks(cfg)[j..n])
    decreases n - j
  {
    hide Reaches, FindFinal, DailyRootFor, BufferAddress, BufferChunks, PB.StoreInv, PB.Prior, UploadFrom;
    if j == n {
      moves, t := [], s;
      Nowhere(cfg, s, true);
    } else {
      var m := Moment(0, 0);
      var chunk := BufferChunks(cfg)[j];
      UploadHead(cfg, j, i);
      assert s.Of(Dispatch) == s.dispatch;
      var next := Step(cfg, s, Dispatch, m, true);
      AppendHolds(cfg, s.w, next.w, chunk);
      var rest;
      rest, t := AppendMany(cfg, next, j + 1, n, i);
      assert BufferChunks(cfg)[j..n][1..] == BufferChunks(cfg)[j + 1..n];
      assert Held(cfg, s.w) + chunk + PB.Concat(BufferChunks(cfg)[j + 1..n]) ==
             Held(cfg, s.w) + PB.Concat(BufferChunks(cfg)[j..n]);
      Follow(cfg, s, [Advance(Dispatch, m)], next, rest, t, true);
      moves := [Advance(Dispatch, m)] + rest;
    }
  }

  /** An upload cut off after n chunks. */
  lemma CrashAfter(cfg: Config, s: System, n: nat) returns (moves: seq<Move>, t: System)
    requires CanStage(cfg) && Resting(cfg, s) && n <= |BufferChunks(cfg)|
    ensures Reaches(cfg, s, moves, t, true) && Resting(cfg, t)
    ensures Held(cfg, t.w) == Held(cfg, s.w) + PB.Concat(BufferChunks(cfg)[..n])
  {
    hide Reaches, FindFinal, DailyRootFor, BufferAddress, BufferChunks, PB.StoreInv, PB.Prior, PB.Concat;
    var m0, s0 := Observe(cfg, s);
    var m1, s1, i := BeginUpload(cfg, s0);
    var m2, s2 := AppendMany(cfg, s1, 0, n, i);
    assert BufferChunks(cfg)[0..n] == BufferChunks(cfg)[..n];
    t := Next(cfg, s2, Crash(Dispatch));
    OneMove(cfg, s2, Crash(Dispatch), true);
    Follow(cfg, s, m0, s0, m1, s1, true);
    Follow(cfg, s, m0 + m1, s1, m2, s2, true);
    Follow(cfg, s, m0 + m1 + m2, s2, [Crash(Dispatch)], t, true);
    moves := m0 + m1 + m2 + [Crash(Dispatch)];
  }

  lemma {:induction false} CrashAll(cfg: Config, s: System, cuts: seq<nat>) returns (moves: seq<Move>, t: System)
    requires CanStage(cfg) && Resting(cfg, s)
    ensures Reaches(cfg, s, moves, t, true) && Resting(cfg, t)
    ensures Held(cfg, t.w) == Held(cfg, s.w) + Junk(BufferChunks(cfg), cuts)
    decreases |cuts|
  {
    hide Reaches, Resting, Held, FindFinal, DailyRootFor, BufferAddress, BufferChunks, PB.Concat;
    if cuts == [] {
      moves, t := [], s;
      Nowhere(cfg, s, true);
    } else {
      var chunks, n := BufferChunks(cfg), cuts[|cuts| - 1];
      var m0, s0 := CrashAll(cfg, s, cuts[..|cuts| - 1]);
      var m1;
      m1, t := CrashAfter(cfg, s0, if n <= |chunks| then n else |chunks|);
      Follow(cfg, s, m0, s0, m1, t, true);
      moves := m0 + m1;
      Regroup(Held(cfg, s.w), Junk(chunks, cuts[..|cuts| - 1]),
              PB.Concat(chunks[..if n <= |chunks| then n else |chunks|]), []);
    }
  }

  /** An upload up to its seal, when the hash of all that is then there is the bundle's. */
  lemma SealFrom(cfg: Config, s: System, j: nat, i: TickInput) returns (moves: seq<Move>, t: System)
    requires CanStage(cfg) && j <= |BufferChunks(cfg)| && UploadingAt(cfg, s, j, i)
    requires cfg.setup.c.keccak(Held(cfg, s.w) + PB.Concat(BufferChunks(cfg)[j..])) ==
             cfg.setup.c.keccak(CanonicalBytes(cfg))
    ensures Reaches(cfg, s, moves, t, true) && t.dispatch.todo == HandOver(cfg, i)
    ensures Sealed(cfg, t.w) && t.w.dispatch != Staged
  {
    hide Reaches, FindFinal, DailyRootFor, BufferAddress, BufferChunks, PB.StoreInv, PB.Prior, PB.Concat,
         CanonicalBytes, HandoffOf,
         HandOver, UploadFrom;
    var all := |BufferChunks(cfg)|;
    var m0, s0 := AppendMany(cfg, s, j, all, i);
    assert BufferChunks(cfg)[j..all] == BufferChunks(cfg)[j..];
    HashIs(cfg);
    UploadHead(cfg, all, i);
    SealHolds(cfg, s0.w, HandoffOf(cfg).proofBundleHash);
    assert s0.Of(Dispatch) == s0.dispatch;
    var m := Moment(0, 0);
    t := Step(cfg, s0, Dispatch, m, true);
    Follow(cfg, s, m0, s0, [Advance(Dispatch, m)], t, true);
    moves := m0 + [Advance(Dispatch, m)];
  }

  /** A whole upload from between ticks. */
  lemma SealNow(cfg: Config, s: System) returns (moves: seq<Move>, t: System, i: TickInput)
    requires CanStage(cfg) && Resting(cfg, s)
    requires cfg.setup.c.keccak(Held(cfg, s.w) + CanonicalBytes(cfg)) == cfg.setup.c.keccak(CanonicalBytes(cfg))
    ensures Reaches(cfg, s, moves, t, true) && t.dispatch.todo == HandOver(cfg, i)
    ensures Sealed(cfg, t.w) && t.w.dispatch != Staged
  {
    hide Reaches, FindFinal, DailyRootFor, BufferAddress, BufferChunks, PB.StoreInv, PB.Prior, PB.Concat,
         CanonicalBytes, HandOver, UploadFrom;
    var m0, s0 := Observe(cfg, s);
    var m1, s1;
    m1, s1, i := BeginUpload(cfg, s0);
    ChunksAreAll(cfg);
    assert BufferChunks(cfg)[0..] == BufferChunks(cfg);
    var m2;
    m2, t := SealFrom(cfg, s1, 0, i);
    Follow(cfg, s, m0, s0, m1, s1, true);
    Follow(cfg, s, m0 + m1, s1, m2, t, true);
    moves := m0 + m1 + m2;
  }

  lemma StageNow(cfg: Config, s: System) returns (moves: seq<Move>, t: System)
    requires CanStage(cfg) && Resting(cfg, s)
    requires cfg.setup.c.keccak(Held(cfg, s.w) + CanonicalBytes(cfg)) == cfg.setup.c.keccak(CanonicalBytes(cfg))
    ensures Reaches(cfg, s, moves, t, true) && t.w.dispatch == Staged
  {
    hide Reaches, Resting, FindFinal, DailyRootFor, CanonicalBytes, Held, HandOver;
    var m0, s0, i := SealNow(cfg, s);
    var m1;
    HandOverFinishes(cfg, i);
    m1, t := Finish(cfg, s0);
    Follow(cfg, s, m0, s0, m1, t, true);
    moves := m0 + m1;
  }

  /** The window: a crash right after the seal leaves a buffer that no later tick can append to. */
  lemma SealedBeforeStaged(cfg: Config, s: System) returns (moves: seq<Move>, t: System)
    requires CanStage(cfg) && Resting(cfg, s)
    requires cfg.setup.c.keccak(Held(cfg, s.w) + CanonicalBytes(cfg)) == cfg.setup.c.keccak(CanonicalBytes(cfg))
    ensures Reaches(cfg, s, moves, t, true)
    ensures t.dispatch.todo == [] && t.w.dispatch != Staged && Sealed(cfg, t.w)
  {
    hide Reaches, Resting, FindFinal, DailyRootFor, CanonicalBytes, Held, HandOver;
    var m0, s0, i := SealNow(cfg, s);
    t := Next(cfg, s0, Crash(Dispatch));
    OneMove(cfg, s0, Crash(Dispatch), true);
    Follow(cfg, s, m0, s0, [Crash(Dispatch)], t, true);
    moves := m0 + [Crash(Dispatch)];
  }

  /** A tick that only hands over and saves gets to "staged". */
  lemma {:induction false} Finish(cfg: Config, s: System) returns (moves: seq<Move>, t: System)
    requires Finishing(s.dispatch.todo)
    ensures Reaches(cfg, s, moves, t, true) && t.w.dispatch == Staged
    decreases |s.dispatch.todo|
  {
    hide Reaches;
    var m := Moment(0, 0);
    assert s.Of(Dispatch) == s.dispatch;
    var next := Step(cfg, s, Dispatch, m, true);
    assert next.dispatch.todo == s.dispatch.todo[1..];
    if |s.dispatch.todo| == 1 {
      moves, t := [Advance(Dispatch, m)], next;
    } else {
      var rest;
      rest, t := Finish(cfg, next);
      Follow(cfg, s, [Advance(Dispatch, m)], next, rest, t, true);
      moves := [Advance(Dispatch, m)] + rest;
    }
  }

  /** A running tick that has not come to its buffer yet, up to there. */
  lemma {:induction false} Approach(cfg: Config, s: System, j: nat) returns (moves: seq<Move>, t: System, i: TickInput)
    requires CanStage(cfg) && Phase(cfg, s.w, s.dispatch.todo, j) && Seals(s.dispatch.todo)
    requires Sound(cfg, s.w) && !Sealed(cfg, s.w) && s.w.dispatch != Staged
    ensures Reaches(cfg, s, moves, t, true) && j <= |BufferChunks(cfg)|
    ensures UploadingAt(cfg, t, j, i) && Held(cfg, t.w) == Held(cfg, s.w)
    decreases |s.dispatch.todo|
  {
    hide Reaches, FindFinal, DailyRootFor, BufferAddress, BufferChunks, PB.StoreInv, PB.Prior, UploadFrom, Path,
         Approaching, Seals, Plain;
    var todo, m := s.dispatch.todo, Moment(0, 0);
    PhasePends(cfg, s.w, todo, j);
    if j == 0 && exists prefix, input :: Approaching(cfg, prefix, input, todo) {
      var prefix, input :| Approaching(cfg, prefix, input, todo);
      DropPrefix(cfg, prefix, input, todo);
      assert s.Of(Dispatch) == s.dispatch;
      var next := Next(cfg, s, Advance(Dispatch, m));
      NextKeepsStore(cfg, s, Advance(Dispatch, m));
      OneMove(cfg, s, Advance(Dispatch, m), true);
      var rest;
      if prefix != [] {
        PlainAdvance(cfg, s, m);
        assert Approaching(cfg, prefix[1..], input, todo[1..]);
        ApproachIsBusy(cfg, next.w, prefix[1..], input, todo[1..]);
        assert Phase(cfg, next.w, next.dispatch.todo, 0);
        PhasePends(cfg, next.w, next.dispatch.todo, 0);
        rest, t, i := Approach(cfg, next, 0);
      } else {
        BufferAdvance(cfg, s, m);
        InitHolds(cfg, s.w, next.w);
        rest, t, i := [], next, input;
        Nowhere(cfg, next, true);
      }
      Follow(cfg, s, [Advance(Dispatch, m)], next, rest, t, true);
      moves := [Advance(Dispatch, m)] + rest;
    } else {
      i :| todo == UploadFrom(cfg, j, i);
      moves, t := [], s;
      Nowhere(cfg, s, true);
    }
  }

  /** The running attempt goes through. */
  lemma CompleteNow(cfg: Config, s: System, j: nat) returns (moves: seq<Move>, t: System)
    requires CanStage(cfg) && Phase(cfg, s.w, s.dispatch.todo, j) && Completes(cfg, s)
    requires Sound(cfg, s.w) && !Sealed(cfg, s.w) && s.w.dispatch != Staged
    ensures Reaches(cfg, s, moves, t, true) && t.w.dispatch == Staged
  {
    hide Reaches, FindFinal, DailyRootFor, BufferChunks, PB.StoreInv, PB.Prior, PB.Concat, Path, Pending, Phase,
         Seals, HandOver, CanonicalBytes, Sound, Finishing, UploadingAt;
    PhasePends(cfg, s.w, s.dispatch.todo, j);
    var m0, s0, i := Approach(cfg, s, j);
    var m1, s1 := SealFrom(cfg, s0, j, i);
    HandOverFinishes(cfg, i);
    var m2;
    m2, t := Finish(cfg, s1);
    Follow(cfg, s, m0, s0, m1, s1, true);
    Follow(cfg, s, m0 + m1, s1, m2, t, true);
    moves := m0 + m1 + m2;
  }

  /** The running attempt is cut off after n more chunks. */
  lemma CutNow(cfg: Config, s: System, j: nat, n: nat) returns (moves: seq<Move>, t: System)
    requires CanStage(cfg) && Phase(cfg, s.w, s.dispatch.todo, j) && n <= |Pending(s.dispatch.todo)|
    requires Sound(cfg, s.w) && !Sealed(cfg, s.w) && s.w.dispatch != Staged
    ensures Reaches(cfg, s, moves, t, true) && Resting(cfg, t)
    ensures Held(cfg, t.w) == Held(cfg, s.w) + PB.Concat(Pending(s.dispatch.todo)[..n])
  {
    hide Reaches, FindFinal, DailyRootFor, BufferChunks, PB.StoreInv, PB.Prior, Path, Pending, Phase, Seals, UploadFrom;
    PhasePends(cfg, s.w, s.dispatch.todo, j);
    var m0, s0 := [], s;
    if n == 0 {
      Nowhere(cfg, s, true);
    } else {
      var s1, i;
      m0, s1, i := Approach(cfg, s, j);
      var m1;
      m1, s0 := AppendMany(cfg, s1, j, j + n, i);
      assert BufferChunks(cfg)[j..][..n] == BufferChunks(cfg)[j..j + n];
      Follow(cfg, s, m0, s1, m1, s0, true);
      m0 := m0 + m1;
    }
    t := Next(cfg, s0, Crash(Dispatch));
    OneMove(cfg, s0, Crash(Dispatch), true);
    Follow(cfg, s, m0, s0, [Crash(Dispatch)], t, true);
    moves := m0 + [Crash(Dispatch)];
  }

  // -------------------------------------------------------------------------
  // When a dispatch can still be staged
  // -------------------------------------------------------------------------

  ghost predicate CanReachStaged(cfg: Config, s: System) {
    exists after :: AllAllowed(after) && Run(cfg, s, after).w.dispatch == Staged
  }

  /** The running attempt, left alone, ends with bytes that hash like the bundle's. */
  predicate Completes(cfg: Config, s: System)
    requires CanStage(cfg)
  {
    && Seals(s.dispatch.todo)
    && cfg.setup.c.keccak(Held(cfg, s.w) + PB.Concat(Pending(s.dispatch.todo))) ==
       cfg.setup.c.keccak(CanonicalBytes(cfg))
  }

  /** It is cut off after n more chunks, others are cut off after it, and one goes through. */
  predicate MatchesAfter(cfg: Config, s: System, n: nat, cuts: seq<nat>)
    requires CanStage(cfg)
  {
    && n <= |Pending(s.dispatch.todo)|
    && Matches(cfg, Held(cfg, s.w) + PB.Concat(Pending(s.dispatch.todo)[..n]), cuts)
  }

  /** STAGING AFTER A CRASH: in any state of any run, a dispatch that is not staged yet ever will be
      exactly if the proof can be staged at all and, once its buffer is sealed, the running tick sealed
      it and still holds its save; before that, if what the buffer holds followed by what the running
      tick still appends hashes like the bundle, or what it holds, followed by what this attempt and
      further ones leave when they are cut off and by the canonical bytes, hashes like these alone. */
  lemma StagedReachableIff(cfg: Config, base: Base, before: seq<Move>)
    requires BaseContracts.Inv(cfg.d, base) && AllAllowed(before)
    requires Run(cfg, Beginning(base), before).w.dispatch != Staged
    ensures var s := Run(cfg, Beginning(base), before);
            CanReachStaged(cfg, s) <==>
            && CanStage(cfg)
            && if Sealed(cfg, s.w) then Holds(StageRule, s.dispatch.todo)
               else Completes(cfg, s) || exists n, cuts :: MatchesAfter(cfg, s, n, cuts)
  {
    hide Run, SafetyInv, BaseContracts.Inv, CanStage, Allowed, Sealed, Holds, Completes, MatchesAfter, InPlace;
    var s := Run(cfg, Beginning(base), before);
    BeginningIsSafe(cfg, base);
    RunIsSafe(cfg, Beginning(base), before);
    if !CanStage(cfg) {
      StartsBarred(cfg, base);
      forall after | AllAllowed(after)
        ensures Run(cfg, s, after).w.dispatch != Staged
      {
        RunAppend(cfg, Beginning(base), before, after);
        BarredForever(cfg, Beginning(base), before + after);
      }
    } else {
      RunIsInPlace(cfg, base, before);
      if Sealed(cfg, s.w) { SealedStages(cfg, s); } else { OpenStages(cfg, s); }
    }
  }

  lemma StartsBarred(cfg: Config, base: Base)
    requires !CanStage(cfg)
    ensures Barred(cfg, Beginning(base))
  {
    hide CanStage;
  }

  /** Once the buffer is sealed. */
  lemma SealedStages(cfg: Config, s: System)
    requires CanStage(cfg) && InPlace(cfg, s) && SafetyInv(cfg, s) && Sealed(cfg, s.w) && s.w.dispatch != Staged
    ensures CanReachStaged(cfg, s) <==> Holds(StageRule, s.dispatch.todo)
  {
    hide Run, SafetyInv, CanStage, Allowed, Holds, Phase, Finishing, Sound, Guarded, Sealed, OurSeals;
    HoldsIff(StageRule, s.dispatch.todo);
    if InPhase(cfg, s) {
      var j :| Phase(cfg, s.w, s.dispatch.todo, j);
      PhaseSealsFirst(cfg, s.w, s.dispatch.todo, j);
      forall after | AllAllowed(after)
        ensures Run(cfg, s, after).w.dispatch != Staged
      {
        BarredForever(cfg, s, after);
      }
    } else {
      FinishingHolds(s.dispatch.todo);
      var after, t := Finish(cfg, s);
      StagedBy(cfg, s, after, t);
    }
  }

  lemma FinishingHolds(todo: seq<Action>)
    requires Finishing(todo)
    ensures Holds(StageRule, todo)
  {
    var k := |todo| - 1;
    assert Needs(StageRule, todo[k]) && NoneOpens(StageRule, todo, k);
  }

  lemma StagedBy(cfg: Config, s: System, after: seq<Move>, t: System)
    requires Reaches(cfg, s, after, t, true) && t.w.dispatch == Staged
    ensures CanReachStaged(cfg, s)
  {
    hide Run, PromptRun, Allowed;
    assert AllAllowed(after) && Run(cfg, s, after).w.dispatch == Staged;
  }

  /** Before it is. */
  lemma OpenStages(cfg: Config, s: System)
    requires CanStage(cfg) && InPlace(cfg, s) && SafetyInv(cfg, s) && !Sealed(cfg, s.w) && s.w.dispatch != Staged
    ensures CanReachStaged(cfg, s) <==> Completes(cfg, s) || exists n, cuts :: MatchesAfter(cfg, s, n, cuts)
  {
    hide Run, SafetyInv, CanStage, Allowed, Phase, Finishing, Sound, Sealed, Completes, Reaches, Held, Matches,
         Resting, CanReachStaged, Pending;
    var j :| Phase(cfg, s.w, s.dispatch.todo, j);
    if Completes(cfg, s) {
      var after, t := CompleteNow(cfg, s, j);
      StagedBy(cfg, s, after, t);
    } else if exists n, cuts :: MatchesAfter(cfg, s, n, cuts) {
      var n, cuts :| MatchesAfter(cfg, s, n, cuts);
      var m0, s0 := CutNow(cfg, s, j, n);
      var m1, t := StageWith(cfg, s0, cuts);
      Follow(cfg, s, m0, s0, m1, t, true);
      StagedBy(cfg, s, m0 + m1, t);
    } else {
      NeverReaches(cfg, s, j);
    }
  }

  lemma NeverReaches(cfg: Config, s: System, j: nat)
    requires CanStage(cfg) && SafetyInv(cfg, s) && Phase(cfg, s.w, s.dispatch.todo, j) && Sound(cfg, s.w)
    requires !Sealed(cfg, s.w) && s.w.dispatch != Staged
    requires !Completes(cfg, s) && forall n, cuts :: !MatchesAfter(cfg, s, n, cuts)
    ensures !CanReachStaged(cfg, s)
  {
    hide Run, SafetyInv, FindFinal, DailyRootFor, Allowed, Phase, Sound, Sealed, Held, At, Still, NeverFrom,
         NeverMatches, Pending, BufferChunks, Completes, MatchesAfter, Idling, Seals;
    var first := Held(cfg, s.w);
    PhasePends(cfg, s.w, s.dispatch.todo, j);
    NeverSplit(cfg, s, j);
    if Seals(s.dispatch.todo) { StartsStill(cfg, s, j); } else { StartsAt(cfg, s); }
    forall after | AllAllowed(after)
      ensures Run(cfg, s, after).w.dispatch != Staged
    {
      if Seals(s.dispatch.todo) {
        var alive, n, cuts, j' := NeverCompletes(cfg, s, after, first, j);
        if alive { StillOpen(cfg, Run(cfg, s, after), first, j, j'); }
        else { AtOpen(cfg, Run(cfg, s, after), first + PB.Concat(BufferChunks(cfg)[j..n]), cuts, j'); }
      } else {
        var cuts, j' := NeverStaged(cfg, s, after, first);
        AtOpen(cfg, Run(cfg, s, after), first, cuts, j');
      }
    }
  }

  lemma StillOpen(cfg: Config, s: System, first: bytes, j0: nat, j: nat)
    requires CanStage(cfg) && Still(cfg, s, first, j0, j)
    ensures s.w.dispatch != Staged
  {
    hide CanStage, Phase, Held, Sealed, BufferChunks;
  }

  lemma AtOpen(cfg: Config, s: System, first: bytes, cuts: seq<nat>, j: nat)
    requires CanStage(cfg) && At(cfg, s, first, cuts, j)
    ensures s.w.dispatch != Staged
  {
    hide CanStage, Phase, Held, Sealed, BufferChunks;
  }

  lemma StartsStill(cfg: Config, s: System, j: nat)
    requires CanStage(cfg) && Phase(cfg, s.w, s.dispatch.todo, j) && Sound(cfg, s.w)
    requires !Sealed(cfg, s.w) && s.w.dispatch != Staged && !Idling(s.dispatch.todo) && j <= |BufferChunks(cfg)|
    ensures Still(cfg, s, Held(cfg, s.w), j, j)
  {
    hide FindFinal, DailyRootFor, Phase, Held, Sealed, BufferChunks, Sound, Idling;
    assert BufferChunks(cfg)[j..j] == [];
  }

  lemma StartsAt(cfg: Config, s: System)
    requires CanStage(cfg) && Phase(cfg, s.w, s.dispatch.todo, 0) && Sound(cfg, s.w)
    requires !Sealed(cfg, s.w) && s.w.dispatch != Staged
    ensures At(cfg, s, Held(cfg, s.w), [], 0)
  {
    hide CanStage, Phase, Held, Sealed, BufferChunks, Sound;
    NothingCut(cfg, Held(cfg, s.w));
  }

  lemma NeverSplit(cfg: Config, s: System, j: nat)
    requires CanStage(cfg) && j <= |BufferChunks(cfg)|
    requires Pending(s.dispatch.todo) == if Seals(s.dispatch.todo) then BufferChunks(cfg)[j..] else []
    requires !Completes(cfg, s) && forall n, cuts :: !MatchesAfter(cfg, s, n, cuts)
    ensures if Seals(s.dispatch.todo) then NeverFrom(cfg, Held(cfg, s.w), j) else NeverMatches(cfg, Held(cfg, s.w))
  {
    hide FindFinal, DailyRootFor, Held, Pending, Seals, BufferChunks, Matches, CanonicalBytes;
    var held, chunks, pending := Held(cfg, s.w), BufferChunks(cfg), Pending(s.dispatch.todo);
    if Seals(s.dispatch.todo) {
      forall n, cuts | j <= n <= |chunks|
        ensures !Matches(cfg, held + PB.Concat(chunks[j..n]), cuts)
      {
        assert pending[..n - j] == chunks[j..n];
        assert !MatchesAfter(cfg, s, n - j, cuts);
      }
    } else {
      forall cuts
        ensures !Matches(cfg, held, cuts)
      {
        assert pending[..0] == [] && held + PB.Concat([]) == held;
        assert !MatchesAfter(cfg, s, 0, cuts);
      }
    }
  }

  lemma StageWith(cfg: Config, s: System, cuts: seq<nat>) returns (after: seq<Move>, t: System)
    requires CanStage(cfg) && Resting(cfg, s) && Matches(cfg, Held(cfg, s.w), cuts)
    ensures Reaches(cfg, s, after, t, true) && t.w.dispatch == Staged
  {
    hide Reaches, CanStage, Resting, Held, BufferChunks, CanonicalBytes, BufferAddress, Junk;
    var m0, s0 := CrashAll(cfg, s, cuts);
    var m1;
    m1, t := StageNow(cfg, s0);
    Follow(cfg, s, m0, s0, m1, t, true);
    after := m0 + m1;
  }

  lemma NothingCut(cfg: Config, first: bytes)
    requires CanStage(cfg)
    ensures first == first + Junk(BufferChunks(cfg), []) + PB.Concat(BufferChunks(cfg)[..0])
  {
    hide BufferChunks;
    assert BufferChunks(cfg)[..0] == [];
  }

  /** What the running attempt and further ones leave when they are cut off. */
  function Leaves(cfg: Config, pending: seq<bytes>, n: nat, cuts: seq<nat>): bytes
    requires CanStage(cfg)
  {
    PB.Concat(if n <= |pending| then pending[..n] else pending) + Junk(BufferChunks(cfg), cuts)
  }

  /** None of the strings that further attempts can lead to hashes like the bundle's bytes unless it
      is the bundle's bytes. */
  ghost predicate NoneCollides(cfg: Config, s: System)
    requires CanStage(cfg)
  {
    var canonical := CanonicalBytes(cfg);
    && (Completes(cfg, s) ==> Held(cfg, s.w) + PB.Concat(Pending(s.dispatch.todo)) == canonical)
    && forall n: nat, cuts: seq<nat> ::
      MatchesAfter(cfg, s, n, cuts) ==>
        Held(cfg, s.w) + Leaves(cfg, Pending(s.dispatch.todo), n, cuts) + canonical == canonical
  }

  /** Where no such string collides with the bundle, before the seal that is: nothing was ever appended,
      or the running tick is about to complete the bundle's own bytes. */
  lemma StagedReachableIffEmpty(cfg: Config, base: Base, before: seq<Move>)
    requires BaseContracts.Inv(cfg.d, base) && AllAllowed(before) && CanStage(cfg)
    requires var s := Run(cfg, Beginning(base), before);
             s.w.dispatch != Staged && !Sealed(cfg, s.w) && NoneCollides(cfg, s)
    ensures var s := Run(cfg, Beginning(base), before);
            CanReachStaged(cfg, s) <==>
            || Held(cfg, s.w) == []
            || (Seals(s.dispatch.todo) &&
                Held(cfg, s.w) + PB.Concat(Pending(s.dispatch.todo)) == CanonicalBytes(cfg))
  {
    hide Run, BaseContracts.Inv, FindFinal, DailyRootFor, Allowed, Held, Sealed, CanReachStaged, CanonicalBytes,
         BufferChunks, Pending, Seals;
    StagedReachableIff(cfg, base, before);
    var s := Run(cfg, Beginning(base), before);
    var held, b, pending := Held(cfg, s.w), CanonicalBytes(cfg), Pending(s.dispatch.todo);
    if held == [] {
      assert pending[..0] == [] && held + PB.Concat(pending[..0]) + Junk(BufferChunks(cfg), []) + b == b;
      assert Matches(cfg, held + PB.Concat(pending[..0]), []);
      assert MatchesAfter(cfg, s, 0, []);
    }
    forall n: nat, cuts: seq<nat> | MatchesAfter(cfg, s, n, cuts)
      ensures held == []
    {
      Longer(held, Leaves(cfg, pending, n, cuts), b);
    }
  }

  lemma Longer(a: bytes, b: bytes, c: bytes)
    ensures a + b + c == c ==> a == []
  {
    assert |a + b + c| == |a| + |b| + |c|;
  }
}
