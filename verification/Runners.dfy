/** The workflows as they run without a crash: each tick as written, over the files of one run
    directory, proved to do exactly the actions of the protocol in their order. */
module Runners {
  import opened Bytes
  import opened BaseContracts
  import opened Lanes
  import opened Progress
  import opened Workflows
  import PB = ProofBuffer
  import R = Reducer

  /** A tick performed to its end (or to the revert that ends it), action by action. */
  function Drain(cfg: Config, w: World, p: Proc, env: nat -> Moment, clock: nat): (World, nat)
    decreases Weight(p.todo)
  {
    if p.todo == [] then (w, clock)
    else
      DoDecreases(cfg, w, p, env(clock));
      var (w', p') := Do(cfg, w, p, env(clock));
      Drain(cfg, w', p', env, clock + 1)
  }

  /** The upload and its seal go through on this store. */
  predicate Stages(cfg: Config, w: World)
    requires FindFinal(cfg.fixture.records).Some?
  {
    && cfg.chunkSize > 0
    && PB.StageThenSeal(cfg.setup.c.keccak, w.buffers, BufferAddress(cfg), UPLOADER, CanonicalBytes(cfg),
                        cfg.chunkSize).Ok?
  }

  /** Whether the heartbeat loop stops after a tick that began in this world: "done", or a throw. */
  predicate Stops(cfg: Config, who: Who, w: World, i: TickInput) {
    match who
    case Dispatch =>
      w.dispatch == Staged ||
      (FindFinal(cfg.fixture.records).Some? && i.tick >= ObservedTick(w.dispatch, i.tick) + ReadyAfter(cfg)
       && (DailyRootFor(cfg.fixture, Final(cfg.fixture).timestampMs) != Ok(cfg.fixture.rootAccount) || !Stages(cfg, w)))
    case Attestor => w.attestor.Reported? || w.handoff.Some?
    case Executor =>
      w.executor.Submitted? || (w.handoff.Some? && !WaitsForVaa(cfg, w.handoff.value, i))
  }

  predicate WaitsForVaa(cfg: Config, h: Handoff, i: TickInput) {
    var checked := Level4Checked(cfg.setup, cfg.fixture, h);
    && checked.Ok? && h.wormhole.Some?
    && var built := Level4Build(cfg.setup, cfg.fixture, h, checked.value);
    built.Ok? && FetchVaa(cfg.setup, i.vaaSource, built.value) == Err(VaaNotAvailable)
  }

  /** cronHeartbeat with maxTicks, from this tick on. */
  function Cron(cfg: Config, who: Who, w: World, inputs: nat -> TickInput, env: nat -> Moment,
                clock: nat, tick: nat, max: nat): (World, nat)
    decreases if tick <= max then max - tick + 1 else 0
  {
    if tick > max then (w, clock)
    else
      var (w', clock') := Drain(cfg, w, Started(Tick(cfg, who, w, inputs(tick))), env, clock);
      if Stops(cfg, who, w, inputs(tick)) then (w', clock') else Cron(cfg, who, w', inputs, env, clock', tick + 1, max)
  }

  // -------------------------------------------------------------------------
  // Uploads
  // -------------------------------------------------------------------------

  lemma DrainStep(cfg: Config, w: World, p: Proc, env: nat -> Moment, clock: nat)
    requires p.todo != []
    ensures var (w', p') := Do(cfg, w, p, env(clock));
            Drain(cfg, w, p, env, clock) == Drain(cfg, w', p', env, clock + 1)
  {
    hide Do;
  }

  /** The first n chunks of an upload, while they go through. */
  lemma {:induction false} AppendsDrain(cfg: Config, w: World, p: Proc, env: nat -> Moment, clock: nat,
                               address: string, chunks: seq<bytes>, rest: seq<Action>, n: nat)
    requires n <= |chunks| && p.todo == Appends(address, chunks) + rest
    requires PB.AppendAll(w.buffers, address, chunks[..n]).1 == None
    ensures Drain(cfg, w, p, env, clock) ==
            Drain(cfg, w.(buffers := PB.AppendAll(w.buffers, address, chunks[..n]).0),
                  p.(todo := Appends(address, chunks[n..]) + rest), env, clock + n)
    decreases n
  {
    hide Drain, PB.TryAppend;
    if n == 0 {
      assert chunks[..0] == [] && chunks[0..] == chunks;
    } else {
      assert chunks[..n][..n - 1] == chunks[..n - 1];
      AppendsDrain(cfg, w, p, env, clock, address, chunks, rest, n - 1);
      var files := PB.AppendAll(w.buffers, address, chunks[..n - 1]).0;
      NextAppend(address, chunks, rest, n - 1);
      var q := p.(todo := Appends(address, chunks[n - 1..]) + rest);
      DrainStep(cfg, w.(buffers := files), q, env, clock + n - 1);
    }
  }

  lemma NextAppend(address: string, chunks: seq<bytes>, rest: seq<Action>, k: nat)
    requires k < |chunks|
    ensures var todo := Appends(address, chunks[k..]) + rest;
            todo[0] == AppendChunk(address, chunks[k]) && todo[1..] == Appends(address, chunks[k + 1..]) + rest
  {
    assert Appends(address, chunks[k..]) == [AppendChunk(address, chunks[k])] + Appends(address, chunks[k + 1..]);
  }

  /** The chunk that does not go through ends the tick. */
  lemma AppendThrows(cfg: Config, w: World, p: Proc, env: nat -> Moment, clock: nat,
                     address: string, chunks: seq<bytes>, rest: seq<Action>, n: nat)
    requires n < |chunks| && p.todo == Appends(address, chunks) + rest
    requires PB.AppendAll(w.buffers, address, chunks[..n]).1 == None
    requires PB.AppendAll(w.buffers, address, chunks[..n + 1]).1.Some?
    ensures Drain(cfg, w, p, env, clock) == (w.(buffers := PB.AppendAll(w.buffers, address, chunks).0), clock + n + 1)
  {
    hide PB.TryAppend;
    AppendsDrain(cfg, w, p, env, clock, address, chunks, rest, n);
    PB.StopsThere(w.buffers, address, chunks, n + 1);
    assert chunks[..n + 1][..n] == chunks[..n];
    NextAppend(address, chunks, rest, n);
    var q := p.(todo := Appends(address, chunks[n..]) + rest);
    DrainStep(cfg, w.(buffers := PB.AppendAll(w.buffers, address, chunks[..n]).0), q, env, clock + n);
  }

  /** What is staged, where, and in which pieces. */
  lemma BundleNames(cfg: Config)
    requires FindFinal(cfg.fixture.records).Some?
    ensures cfg.addressOf(cfg.fixture.fixtureId + ":" + Final(cfg.fixture).sequence) == BufferAddress(cfg)
    ensures cfg.chunkSize > 0 ==>
              PB.Chunks(PB.CanonicalBytes(ProofBundle(cfg.fixture, Final(cfg.fixture))),
                        cfg.chunkSize) == BufferChunks(cfg)
  {
    hide FindFinal, Final, ProofBundle, PB.Chunks, PB.CanonicalBytes;
  }

  lemma Finishes(cfg: Config, w: World, p: Proc, env: nat -> Moment, clock: nat)
    requires p.todo == []
    ensures Drain(cfg, w, p, env, clock) == (w, clock)
  {
  }

  lemma UploadDrains(cfg: Config, w: World, p: Proc, env: nat -> Moment, clock: nat, i: TickInput)
    requires FindFinal(cfg.fixture.records).Some?
    requires p.todo == [InitBuffer(BufferAddress(cfg))] + if cfg.chunkSize <= 0 then [] else Upload(cfg, i)
    ensures Drain(cfg, w, p, env, clock) ==
            Drain(cfg, w.(buffers := PB.AfterInit(w.buffers, BufferAddress(cfg), UPLOADER)),
                  p.(todo := if cfg.chunkSize <= 0 then [] else Upload(cfg, i)), env, clock + 1)
  {
    hide Drain, PB.AfterInit, BufferAddress, BufferChunks, HandoffOf, Upload;
    DrainStep(cfg, w, p, env, clock);
    assert p.todo[1..] == if cfg.chunkSize <= 0 then [] else Upload(cfg, i);
  }

  /** Staging goes through when every chunk and the seal do. */
  lemma StagesIff(cfg: Config, w: World)
    requires FindFinal(cfg.fixture.records).Some? && cfg.chunkSize > 0
    ensures var staged := PB.AppendAll(PB.AfterInit(w.buffers, BufferAddress(cfg), UPLOADER), BufferAddress(cfg),
                                       BufferChunks(cfg));
            Stages(cfg, w) <==>
            && staged.1 == None
            && PB.TrySeal(cfg.setup.c.keccak, staged.0, BufferAddress(cfg), HandoffOf(cfg).proofBundleHash).Ok?
  {
    hide PB.AppendAll, PB.AfterInit, PB.TrySeal, PB.Chunks, ProofBundle, BufferAddress;
  }

  lemma SameStore(cfg: Config, w: World, next: World)
    requires FindFinal(cfg.fixture.records).Some? && next.buffers == w.buffers
    ensures Stages(cfg, next) <==> Stages(cfg, w)
  {
    hide PB.StageThenSeal, BufferAddress, CanonicalBytes, FindFinal;
  }

  lemma UploadThrows(cfg: Config, w: World, p: Proc, env: nat -> Moment, clock: nat, i: TickInput, n: nat)
    requires FindFinal(cfg.fixture.records).Some? && cfg.chunkSize > 0
    requires p.todo == Upload(cfg, i) && n < |BufferChunks(cfg)|
    requires PB.AppendAll(w.buffers, BufferAddress(cfg), BufferChunks(cfg)[..n]).1 == None
    requires PB.AppendAll(w.buffers, BufferAddress(cfg), BufferChunks(cfg)[..n + 1]).1.Some?
    ensures Drain(cfg, w, p, env, clock) ==
            (w.(buffers := PB.AppendAll(w.buffers, BufferAddress(cfg), BufferChunks(cfg)).0), clock + n + 1)
  {
    hide Drain, BufferAddress, BufferChunks, HandoffOf, Workflows.HandOver;
    var rest := [SealBuffer(BufferAddress(cfg), HandoffOf(cfg).proofBundleHash)] + Workflows.HandOver(cfg, i);
    assert p.todo == Appends(BufferAddress(cfg), BufferChunks(cfg)) + rest;
    AppendThrows(cfg, w, p, env, clock, BufferAddress(cfg), BufferChunks(cfg), rest, n);
  }

  /** What is left once every chunk went through. */
  function SealAndHandOver(cfg: Config, i: TickInput): seq<Action>
    requires FindFinal(cfg.fixture.records).Some?
  {
    [SealBuffer(BufferAddress(cfg), HandoffOf(cfg).proofBundleHash)] + Workflows.HandOver(cfg, i)
  }

  lemma UploadAppends(cfg: Config, w: World, p: Proc, env: nat -> Moment, clock: nat, i: TickInput)
    requires FindFinal(cfg.fixture.records).Some? && cfg.chunkSize > 0 && p.todo == Upload(cfg, i)
    requires PB.AppendAll(w.buffers, BufferAddress(cfg), BufferChunks(cfg)).1 == None
    ensures Drain(cfg, w, p, env, clock) ==
            Drain(cfg, w.(buffers := PB.AppendAll(w.buffers, BufferAddress(cfg), BufferChunks(cfg)).0),
                  p.(todo := SealAndHandOver(cfg, i)), env, clock + |BufferChunks(cfg)|)
  {
    hide Drain, BufferAddress, BufferChunks, HandoffOf, Workflows.HandOver, PB.AppendAll;
    var address, chunks := BufferAddress(cfg), BufferChunks(cfg);
    assert p.todo == Appends(address, chunks) + SealAndHandOver(cfg, i) && chunks[..|chunks|] == chunks;
    AppendsDrain(cfg, w, p, env, clock, address, chunks, SealAndHandOver(cfg, i), |chunks|);
    assert Appends(address, chunks[|chunks|..]) + SealAndHandOver(cfg, i) == SealAndHandOver(cfg, i);
  }

  lemma SeenIs(w: World, m: Moment)
    ensures Seen(w, m) == Behind(w.base, w.past, m.lag)
  {
  }

  lemma NextProvider(i: TickInput, k: nat, tail: seq<Action>)
    requires k < |i.providers|
    ensures var todo := ProviderEvents(i, k) + tail;
            && todo != []
            && todo[0] == Emit(R.Level3RpcResult(i.providers[k].provider, i.providers[k].agreed, i.digest),
                               !i.providers[k].live)
            && todo[1..] == ProviderEvents(i, k + 1) + tail
  {
  }

  lemma NoProviderLeft(i: TickInput, tail: seq<Action>)
    ensures ProviderEvents(i, |i.providers|) + tail == tail
  {
  }

  // -------------------------------------------------------------------------
  // Polls
  // -------------------------------------------------------------------------

  /** One look at the registry: what is left to do after it. */
  lemma PollDrain(cfg: Config, w: World, env: nat -> Moment, clock: nat, attempts: nat, f: int, hash: string,
                  tail: seq<Action>)
    requires attempts > 0
    ensures var rest :=
              if RowOf(Seen(w, env(clock)).registry, f).status == DualFinalized
              then Proc([AnnounceDual(f)] + (if cfg.settleMarket then [CheckMarket(hash)] else []) + tail, true, None)
              else if attempts == 1 then Started(tail)
              else Started([PollRegistry(attempts - 1, f, hash)] + tail);
            Drain(cfg, w, Started([PollRegistry(attempts, f, hash)] + tail), env,
                  clock) == Drain(cfg, w, rest, env, clock + 1)
  {
    hide Drain, RowOf, Seen;
    var p := Started([PollRegistry(attempts, f, hash)] + tail);
    assert p.todo[1..] == tail;
    DrainStep(cfg, w, p, env, clock);
  }

  /** One run directory, the proof buffer's store, the endpoints its workflows talk to, and the clock. */
  class Workspace {
    const cfg: Config
    const env: nat -> Moment
    const adapter: PB.FileBackedAdapter
    var stream: seq<R.RunEvent>
    var dispatch: DispatchState
    var handoff: Option<Handoff>
    var attestor: AttestorState
    var level3Report: Option<Level3Report>
    var executor: ExecutorState
    /** Base, and the states a replica behind it may still show. */
    var base: Base
    var past: seq<Base>
    ghost var sent: seq<Level3Report>
    ghost var accepted: seq<Level3Report>
    /** Actions performed so far; what the outside shows then is env(clock). */
    var clock: nat

    ghost function Files(): World
      reads this, adapter
    {
      World(stream, adapter.files, dispatch, handoff, attestor, level3Report, executor, base, past, sent, accepted)
    }

    /** The adapter hashes and derives addresses as the configuration says. */
    ghost predicate Wired() { adapter.keccak == cfg.setup.c.keccak && adapter.addressOf == cfg.addressOf }

    /** Where a tick with this much left to do ends up. */
    ghost function End(p: Proc): (World, nat)
      reads this, adapter
    {
      Drain(cfg, Files(), p, env, clock)
    }

    constructor (cfg: Config, env: nat -> Moment, base: Base)
      ensures this.cfg == cfg && this.env == env && clock == 0 && fresh(adapter) && Wired()
      ensures Files() == Beginning(base).w
    {
      this.cfg, this.env, this.base := cfg, env, base;
      var store := new PB.FileBackedAdapter(cfg.setup.c.keccak, cfg.addressOf);
      adapter := store;
      stream, dispatch, handoff, attestor, level3Report, executor :=
        [], Watching, None, NotReported, None, NotSubmitted;
      past, sent, accepted, clock := [], [], [], 0;
    }

    /** sink.emit */
    method Emit(e: R.Event, simulated: bool, ghost p: Proc) returns (ghost rest: Proc)
      requires p.todo != [] && p.todo[0] == Action.Emit(e, simulated)
      modifies this
      ensures rest == p.(todo := p.todo[1..]) && End(rest) == old(End(p))
      ensures Files() == Append(old(Files()), e, simulated, env(old(clock)))
    {
      stream := stream + [R.RunEvent(|stream|, env(clock).now, simulated, e)];
      rest := p.(todo := p.todo[1..]);
      clock := clock + 1;
    }

    // -----------------------------------------------------------------------
    // cre-source-dispatch
    // -----------------------------------------------------------------------

    method DispatchTick(i: TickInput) returns (stops: bool)
      requires Wired()
      modifies this, adapter
      ensures (Files(), clock) == old(End(Started(Tick(cfg, Dispatch, Files(), i))))
      ensures stops == Stops(cfg, Dispatch, old(Files()), i)
    {
      hide Do, Drain, DailyRootFor, Stage, Stages, FindFinal, ReadyAfter;
      ghost var p := Started(Tick(cfg, Dispatch, Files(), i));
      p := Emit(R.Event.Heartbeat(i.now, i.nextAt), false, p);
      var state := dispatch;
      if p.todo == [] { Finishes(cfg, Files(), p, env, clock); }
      if state == Staged { return true; }
      var found := FindFinal(cfg.fixture.records);
      if found == None { return false; }
      if state == Watching {
        state := FinalObserved(i.tick);
        p := NoteFinal(found.value, state, p);
      }
      if p.todo == [] { Finishes(cfg, Files(), p, env, clock); }
      if i.tick < state.tick + ReadyAfter(cfg) { return false; }
      SameStore(cfg, old(Files()), Files());
      stops := StageProof(i, p);
    }

    /** The event, then the tick it was first seen in. */
    method NoteFinal(r: ScoreRecord, state: DispatchState, ghost p: Proc) returns (ghost rest: Proc)
      requires |p.todo| >= 2 && p.todo[1] == SaveDispatch(state)
      requires p.todo[0] == Action.Emit(R.FinalRecordObserved(cfg.fixture.fixtureId, r.sequence), !cfg.fixtureLive)
      modifies this
      ensures rest == p.(todo := p.todo[2..]) && End(rest) == old(End(p))
      ensures Files() == old(Files()).(stream := stream, dispatch := state)
    {
      hide Do, Drain;
      ghost var q := Emit(R.FinalRecordObserved(cfg.fixture.fixtureId, r.sequence), !cfg.fixtureLive, p);
      rest := SaveDispatchState(state, q);
      assert p.todo[1..][1..] == p.todo[2..];
    }

    method StageProof(i: TickInput, ghost todo: Proc) returns (stops: bool)
      requires FindFinal(cfg.fixture.records).Some? && todo.todo == Stage(cfg, i) && Wired()
      modifies this, adapter
      ensures (Files(), clock) == old(End(todo))
      ensures stops == (DailyRootFor(cfg.fixture, Final(cfg.fixture).timestampMs) != Ok(cfg.fixture.rootAccount)
                        || !Stages(cfg, old(Files())))
    {
      hide Do, DailyRootFor, HandoffOf, PB.StageThenSeal, CanonicalBytes, BufferAddress;
      ghost var p := todo;
      var h := HandoffOf(cfg);
      p := Emit(R.ProofAvailable(h.proofBundleHash, cfg.fixture.rootAccount), !cfg.fixtureLive, p);
      var derivedPda := DailyRootFor(cfg.fixture, Final(cfg.fixture).timestampMs);
      if derivedPda.Err? { return true; }
      if derivedPda.value != cfg.fixture.rootAccount {
        p := Emit(R.RunFailed(DISPATCH_STAGE, i.reason), !cfg.fixtureLive, p);
        return true;
      }
      var sealed;
      sealed, p := UploadAndSeal(i, h, p);
      if !sealed { return true; }
      HandOver(i, h, p);
      stops := false;
    }

    /** stageProofBundle and sealProofBuffer; an error thrown by either ends the tick. */
    method UploadAndSeal(i: TickInput, h: Handoff, ghost todo: Proc) returns (sealed: bool, ghost rest: Proc)
      requires FindFinal(cfg.fixture.records).Some? && h == HandoffOf(cfg) && Wired()
      requires todo.todo == [InitBuffer(BufferAddress(cfg))] + if cfg.chunkSize <= 0 then [] else Upload(cfg, i)
      modifies this`clock, adapter
      ensures sealed == Stages(cfg, old(Files()))
      ensures rest == (if sealed then todo.(todo := Workflows.HandOver(cfg, i)) else IDLE)
      ensures End(rest) == old(End(todo))
    {
      hide HandoffOf, PB.TrySeal, PB.StageThenSeal, PB.AppendAll, Upload, BufferAddress, BufferChunks, CanonicalBytes,
           Drain,
           Workflows.HandOver;
      ghost var w := Files();
      sealed, rest := StageBundle(i, todo);
      if cfg.chunkSize > 0 { StagesIff(cfg, w); }
      if sealed {
        assert rest.todo[1..] == Workflows.HandOver(cfg, i);
        sealed, rest := Seal(BufferAddress(cfg), h.proofBundleHash, rest);
      }
    }

    method StageBundle(i: TickInput, ghost todo: Proc) returns (staged: bool, ghost rest: Proc)
      requires FindFinal(cfg.fixture.records).Some? && Wired()
      requires todo.todo == [InitBuffer(BufferAddress(cfg))] + if cfg.chunkSize <= 0 then [] else Upload(cfg, i)
      modifies this`clock, adapter
      ensures cfg.chunkSize <= 0 ==> !staged
      ensures cfg.chunkSize > 0 ==>
        (adapter.files, staged) ==
        var (files, failed) :=
          PB.AppendAll(PB.AfterInit(old(adapter.files), BufferAddress(cfg), UPLOADER), BufferAddress(cfg),
                       BufferChunks(cfg));
        (files, failed == None)
      ensures rest == (if staged then todo.(todo := SealAndHandOver(cfg, i)) else IDLE) && End(rest) == old(End(todo))
    {
      hide HandoffOf, PB.AppendAll, PB.AfterInit, Upload, Do, Drain, ProofBundle, BufferAddress, BufferChunks,
           PB.CanonicalBytes,
           PB.Chunks, FindFinal, Final, SealAndHandOver;
      BundleNames(cfg);
      ghost var w, at := Files(), clock;
      var bundle := ProofBundle(cfg.fixture, Final(cfg.fixture));
      var seed := cfg.fixture.fixtureId + ":" + Final(cfg.fixture).sequence;
      var address, chunkCount, byteLength, expectedHash, error :=
        PB.StageProofBundle(adapter, bundle, seed, UPLOADER, cfg.chunkSize);
      ghost var start := w.(buffers := PB.AfterInit(w.buffers, address, UPLOADER));
      UploadDrains(cfg, w, todo, env, at, i);
      if cfg.chunkSize <= 0 {
        clock := clock + 1;
        Finishes(cfg, Files(), todo.(todo := []), env, clock);
        Finishes(cfg, Files(), IDLE, env, clock);
        return false, IDLE;
      }
      if error.Some? {
        clock := clock + chunkCount + 2;
        UploadThrows(cfg, start, todo.(todo := Upload(cfg, i)), env, at + 1, i, chunkCount);
        Finishes(cfg, Files(), IDLE, env, clock);
        return false, IDLE;
      }
      clock := clock + chunkCount + 1;
      UploadAppends(cfg, start, todo.(todo := Upload(cfg, i)), env, at + 1, i);
      return true, todo.(todo := SealAndHandOver(cfg, i));
    }

    method Seal(address: string, expected: bytes32, ghost p: Proc) returns (ok: bool, ghost rest: Proc)
      requires p.todo != [] && p.todo[0] == SealBuffer(address, expected) && Wired()
      modifies this`clock, adapter
      ensures ok == PB.TrySeal(cfg.setup.c.keccak, old(adapter.files), address, expected).Ok?
      ensures rest == (if ok then p.(todo := p.todo[1..]) else IDLE) && End(rest) == old(End(p))
    {
      hide PB.TrySeal;
      var r := adapter.SealProof(address, expected);
      clock := clock + 1;
      return r.Ok?, if r.Ok? then p.(todo := p.todo[1..]) else IDLE;
    }

    method HandOver(i: TickInput, h: Handoff, ghost todo: Proc)
      requires todo.todo == [Action.Emit(R.ProofStaged(i.sealSignature), true),
                             Action.Emit(R.SolanaVerifySubmitted(i.verifySignature), true),
                             WriteHandoff(h), SaveDispatch(Staged)]
      modifies this
      ensures (Files(), clock) == old(End(todo))
    {
      hide Do;
      ghost var p := todo;
      p := Emit(R.ProofStaged(i.sealSignature), true, p);
      p := Emit(R.SolanaVerifySubmitted(i.verifySignature), true, p);
      p := SaveHandoff(h, p);
      p := SaveDispatchState(Staged, p);
    }

    method SaveDispatchState(s: DispatchState, ghost p: Proc) returns (ghost rest: Proc)
      requires p.todo != [] && p.todo[0] == SaveDispatch(s)
      modifies this
      ensures rest == p.(todo := p.todo[1..]) && End(rest) == old(End(p))
      ensures Files() == old(Files()).(dispatch := s)
    {
      dispatch := s;
      rest := p.(todo := p.todo[1..]);
      clock := clock + 1;
    }

    method SaveHandoff(h: Handoff, ghost p: Proc) returns (ghost rest: Proc)
      requires p.todo != [] && p.todo[0] == WriteHandoff(h)
      modifies this
      ensures rest == p.(todo := p.todo[1..]) && End(rest) == old(End(p))
      ensures Files() == old(Files()).(handoff := Some(h))
    {
      handoff := Some(h);
      rest := p.(todo := p.todo[1..]);
      clock := clock + 1;
    }

    // -----------------------------------------------------------------------
    // cre-level3-attestor
    // -----------------------------------------------------------------------

    method Fail(stage: string, e: LaneError, i: TickInput, ghost p: Proc)
      requires p.todo == Failure(stage, e, i)
      modifies this
      ensures (Files(), clock) == old(End(p))
    {
      hide Do;
      if Announced(e) {
        ghost var rest := Emit(R.RunFailed(stage, i.reason), true, p);
      }
    }

    /** Asks every provider for the stable outputs and counts the ones that agree. */
    method AskProviders(i: TickInput, ghost p: Proc, ghost tail: seq<Action>)
      returns (agreedCount: nat, ghost rest: Proc)
      requires p.todo == ProviderEvents(i, 0) + tail
      modifies this
      ensures agreedCount == |set k | 0 <= k < |i.providers| && i.providers[k].agreed|
      ensures rest == p.(todo := tail) && End(rest) == old(End(p))
      ensures Files() == old(Files()).(stream := stream)
    {
      hide Do, Drain, ProviderEvents;
      agreedCount := 0;
      rest := p;
      for k := 0 to |i.providers|
        invariant agreedCount == AgreedCount(i.providers[..k])
        invariant rest == p.(todo := ProviderEvents(i, k) + tail) && End(rest) == old(End(p))
        invariant Files() == old(Files()).(stream := stream)
      {
        var answer := i.providers[k];
        if answer.agreed { agreedCount := agreedCount + 1; }
        assert i.providers[..k + 1][..k] == i.providers[..k];
        NextProvider(i, k, tail);
        rest := Emit(R.Level3RpcResult(answer.provider, answer.agreed, i.digest), !answer.live, rest);
      }
      assert i.providers[..|i.providers|] == i.providers;
      NoProviderLeft(i, tail);
      AgreedCountIs(i.providers);
    }

    method AttestorTick(i: TickInput) returns (stops: bool)
      modifies this
      ensures (Files(), clock) == old(End(Started(Tick(cfg, Attestor, Files(), i))))
      ensures stops == Stops(cfg, Attestor, old(Files()), i)
    {
      hide Do, Attest;
      ghost var p := Started(Tick(cfg, Attestor, Files(), i));
      p := Emit(R.Event.Heartbeat(i.now, i.nextAt), false, p);
      if attestor.Reported? { return true; }
      if handoff == None { return false; }
      AttestHandoff(handoff.value, i, p);
      stops := true;
    }

    method AttestHandoff(h: Handoff, i: TickInput, ghost todo: Proc)
      requires todo == Started(Attest(cfg, h, i))
      modifies this
      ensures (Files(), clock) == old(End(todo))
    {
      hide Do, CheckedTx, Level3Derive, Announced;
      ghost var p := todo;
      if h.fixturePath == None { Fail(ATTESTOR_STAGE, NoFixturePath, i, p); return; }
      var found := FindFinal(cfg.fixture.records);
      if found == None { Fail(ATTESTOR_STAGE, NoFinalRecord, i, p); return; }
      var checked := CheckedTx(cfg.setup, cfg.fixture, h, found.value);
      if checked.Err? { Fail(ATTESTOR_STAGE, checked.error, i, p); return; }
      var agreedCount;
      ghost var tail := todo.todo[|ProviderEvents(i, 0)|..];
      agreedCount, p := AskProviders(i, p, tail);
      AgreedCountIs(i.providers);
      if agreedCount < cfg.quorum { Fail(ATTESTOR_STAGE, QuorumNotReached, i, p); return; }
      var derived := Level3Derive(cfg.setup, cfg.fixture, h, found.value, checked.value);
      if derived.Err? { Fail(ATTESTOR_STAGE, derived.error, i, p); return; }
      DeliverReport(derived.value, i, p);
    }

    /** sendLevel3Report and the wait for its receipt: only the gas estimate can throw; whether the mined
        transaction reverted is not looked at. */
    method Send(r: Level3Report, ghost p: Proc) returns (mined: bool, ghost rest: Proc)
      requires p.todo != [] && p.todo[0] == SendReport(r)
      modifies this
      ensures rest == (if mined then p.(todo := p.todo[1..]) else IDLE) && End(rest) == old(End(p))
      ensures mined <==> TryOnReport(Seen(old(Files()), env(old(clock))), true, r).Ok?
      ensures !mined ==> Files() == old(Files())
      ensures mined ==> sent == old(sent) + [r]
      ensures mined && TryOnReport(old(base), true, r).Ok? ==>
                base == TryOnReport(old(base), true, r).value && accepted == old(accepted) + [r]
      ensures mined && TryOnReport(old(base), true, r).Err? ==> base == old(base) && accepted == old(accepted)
    {
      hide TryOnReport, Drain, Seen;
      assert Seen(Files(), env(clock)) == Behind(base, past, env(clock).lag) by { SeenIs(Files(), env(clock)); }
      DrainStep(cfg, Files(), p, env, clock);
      var estimate := TryOnReport(Behind(base, past, env(clock).lag), true, r);
      clock := clock + 1;
      if estimate.Err? { return false, IDLE; }
      sent := sent + [r];
      var receipt := TryOnReport(base, true, r);
      if receipt.Ok? {
        base, past := receipt.value, past + [base];
        accepted := accepted + [r];
      }
      return true, p.(todo := p.todo[1..]);
    }

    method SaveReport(r: Level3Report, ghost p: Proc) returns (ghost rest: Proc)
      requires p.todo != [] && p.todo[0] == WriteLevel3Report(r)
      modifies this
      ensures rest == p.(todo := p.todo[1..]) && End(rest) == old(End(p))
      ensures Files() == old(Files()).(level3Report := Some(r))
    {
      level3Report := Some(r);
      rest := p.(todo := p.todo[1..]);
      clock := clock + 1;
    }

    method SaveAttestorState(s: AttestorState, ghost p: Proc) returns (ghost rest: Proc)
      requires p.todo != [] && p.todo[0] == SaveAttestor(s)
      modifies this
      ensures rest == p.(todo := p.todo[1..]) && End(rest) == old(End(p))
      ensures Files() == old(Files()).(attestor := s)
    {
      attestor := s;
      rest := p.(todo := p.todo[1..]);
      clock := clock + 1;
    }

    /** Send, then the report file, then the event, then "reported": after a crash in between the next tick
        sends again. */
    method DeliverReport(r: Level3Report, i: TickInput, ghost todo: Proc)
      requires todo == Started(Deliver(cfg, r, i))
      modifies this
      ensures (Files(), clock) == old(End(todo))
    {
      hide Do;
      ghost var p := todo;
      if cfg.attestorLive {
        var mined;
        mined, p := Send(r, p);
        if !mined { return; }
      }
      p := SaveReport(r, p);
      p := Emit(R.Level3BaseFinalized(i.txHash), !cfg.attestorLive, p);
      p := SaveAttestorState(Reported(r.attestationId), p);
    }

    // -----------------------------------------------------------------------
    // cre-vaa-executor
    // -----------------------------------------------------------------------

    /** What finalizeOnBase leaves to do: the rest of the tick, or nothing if it threw. */
    ghost function Finalized(threw: bool, dualFinalized: bool, settleTxHash: Option<string>, tail: seq<Action>): Proc
    {
      if threw then IDLE else Proc(tail, dualFinalized, settleTxHash)
    }

    /** Polls the registry a bounded number of times; on dual finality announces the id the registry
        shows and, if a market is configured, settles it. */
    method FinalizeOnBase(attempts: nat, f: int, hash: string, ghost tail: seq<Action>)
      returns (threw: bool, dualFinalized: bool, settleTxHash: Option<string>)
      requires attempts > 0
      modifies this
      ensures End(Finalized(threw, dualFinalized, settleTxHash, tail)) ==
              old(End(Started([PollRegistry(attempts, f, hash)] + tail)))
      ensures Files() == old(Files()).(stream := stream, base := base, past := past)
    {
      hide RowOf, Drain, Do;
      threw, dualFinalized, settleTxHash := false, false, None;
      for k := 0 to attempts
        invariant End(if k == attempts then Started(tail) else Started([PollRegistry(attempts - k, f, hash)] + tail))
                  == old(End(Started([PollRegistry(attempts, f, hash)] + tail)))
        invariant Files() == old(Files())
      {
        var shown := Behind(base, past, env(clock).lag);
        PollDrain(cfg, Files(), env, clock, attempts - k, f, hash, tail);
        clock := clock + 1;
        if RowOf(shown.registry, f).status == DualFinalized {
          dualFinalized := true;
          threw, settleTxHash := AnnounceAndSettle(f, hash, tail);
          return;
        }
      }
    }

    method AnnounceAndSettle(f: int, hash: string, ghost tail: seq<Action>)
      returns (threw: bool, settleTxHash: Option<string>)
      modifies this
      ensures End(Finalized(threw, true, settleTxHash, tail)) ==
              old(End(Proc([AnnounceDual(f)] + (if cfg.settleMarket then [CheckMarket(hash)] else []) + tail, true,
                           None)))
      ensures Files() == old(Files()).(stream := stream, base := base, past := past)
    {
      hide Drain, Do;
      ghost var checks := if cfg.settleMarket then [CheckMarket(hash)] else [];
      ghost var p := Proc([AnnounceDual(f)] + checks + tail, true, None);
      p := Announce(f, p);
      assert p.todo == checks + tail;
      threw, settleTxHash := false, None;
      if cfg.settleMarket { threw, settleTxHash := SettleIfOpen(hash, p, tail); }
    }

    /** Reads the proof lane's record back and announces its id. */
    method Announce(f: int, ghost p: Proc) returns (ghost rest: Proc)
      requires p.todo != [] && p.todo[0] == AnnounceDual(f)
      modifies this
      ensures rest == p.(todo := p.todo[1..]) && End(rest) == old(End(p))
      ensures Files() == old(Files()).(stream := stream)
    {
      hide RowOf;
      var m := env(clock);
      stream := stream + [R.RunEvent(|stream|, m.now, false,
                                     R.DualFinalityReached(ReadLevel4Id(Behind(base, past, m.lag), f)))];
      clock := clock + 1;
      rest := p.(todo := p.todo[1..]);
    }

    /** Another look at the market, then the settlement: only its gas estimate can throw. */
    method SettleIfOpen(hash: string, ghost p: Proc, ghost tail: seq<Action>)
      returns (threw: bool, settleTxHash: Option<string>)
      requires p == Proc([CheckMarket(hash)] + tail, true, None)
      modifies this
      ensures End(Finalized(threw, true, settleTxHash, tail)) == old(End(p))
      ensures Files() == old(Files()).(stream := stream, base := base, past := past)
    {
      hide TrySettle;
      var market := Behind(base, past, env(clock).lag);
      assert p.todo[1..] == tail && ([SendSettle(hash)] + tail)[1..] == tail;
      clock := clock + 1;
      if market.winningOutcome.Some? { return false, None; }
      ghost var send := Proc([SendSettle(hash)] + tail, true, None);
      assert End(send) == old(End(p));
      ghost var q;
      threw, q := Settle(hash, send, tail);
      if threw { return true, None; }
      q := Emit(R.ConsumerSettled(hash), false, q);
      assert q.todo == tail;
      return false, Some(hash);
    }

    method Settle(hash: string, ghost p: Proc, ghost tail: seq<Action>) returns (threw: bool, ghost rest: Proc)
      requires p == Proc([SendSettle(hash)] + tail, true, None)
      modifies this
      ensures rest ==
              if threw then IDLE else Proc([Action.Emit(R.ConsumerSettled(hash), false)] + tail, true, Some(hash))
      ensures End(rest) == old(End(p)) && Files() == old(Files()).(base := base, past := past)
    {
      hide TrySettle;
      assert p.todo[1..] == tail;
      var estimate := TrySettle(cfg.d, Behind(base, past, env(clock).lag));
      clock := clock + 1;
      if estimate.Err? { return true, IDLE; }
      var receipt := TrySettle(cfg.d, base);
      if receipt.Ok? { base, past := receipt.value, past + [base]; }
      return false, Proc([Action.Emit(R.ConsumerSettled(hash), false)] + tail, true, Some(hash));
    }

    /** The last write of a tick; its locals say what finalizeOnBase or the reconciliation found. */
    method SaveExecutorState(s: ExecutorState, dualFinalized: bool, settleTxHash: Option<string>)
      requires s.Submitted?
      modifies this
      ensures (Files(), clock) == old(End(Proc([SaveExecutor(s)], dualFinalized, settleTxHash)))
    {
      assert [SaveExecutor(s)][1..] == [];
      executor := s.(dualFinalized := dualFinalized,
                     settleTxHash := if settleTxHash.Some? then settleTxHash else s.settleTxHash);
      clock := clock + 1;
      assert End(Proc([], dualFinalized, settleTxHash)) ==
             old(End(Proc([SaveExecutor(s)], dualFinalized, settleTxHash)));
    }

    method ExecutorTick(i: TickInput) returns (stops: bool)
      modifies this
      ensures (Files(), clock) == old(End(Started(Tick(cfg, Executor, Files(), i))))
      ensures stops == Stops(cfg, Executor, old(Files()), i)
    {
      hide Do, Execute, WaitsForVaa;
      ghost var p := Started(Tick(cfg, Executor, Files(), i));
      p := Emit(R.Event.Heartbeat(i.now, i.nextAt), false, p);
      if executor.Submitted? {
        if cfg.executorLive && executor.settleTxHash == None && !executor.dualFinalized {
          var fixtureId := if handoff == None then Some(0) else cfg.setup.bigInt(handoff.value.fixtureId);
          if fixtureId == None { return true; }
          assert p.todo == [PollRegistry(POLL_ATTEMPTS, fixtureId.value, i.settleTxHash)] + [SaveExecutor(executor)];
          var threw, dualFinalized, settleTxHash :=
            FinalizeOnBase(POLL_ATTEMPTS, fixtureId.value, i.settleTxHash, [SaveExecutor(executor)]);
          if !threw { SaveExecutorState(executor, dualFinalized, settleTxHash); }
        }
        return true;
      }
      if handoff == None { return false; }
      stops := ExecuteHandoff(handoff.value, i, p);
    }

    method ExecuteHandoff(h: Handoff, i: TickInput, ghost todo: Proc) returns (stops: bool)
      requires todo == Started(Execute(cfg, h, i))
      modifies this
      ensures (Files(), clock) == old(End(todo))
      ensures stops == !WaitsForVaa(cfg, h, i)
    {
      hide Do, Level4Checked, Level4Build, FetchVaa, Published, Announced;
      ghost var p := todo;
      var checked := Level4Checked(cfg.setup, cfg.fixture, h);
      if checked.Err? { Fail(EXECUTOR_STAGE, checked.error, i, p); return true; }
      p := Emit(R.TxlineCpiVerified(i.slot), true, p);
      if h.wormhole == None { return true; }
      var built := Level4Build(cfg.setup, cfg.fixture, h, checked.value);
      if built.Err? { Fail(EXECUTOR_STAGE, built.error, i, p); return true; }
      stops := PublishBuilt(h, built.value, i, p);
    }

    method PublishBuilt(h: Handoff, built: Built, i: TickInput, ghost todo: Proc) returns (stops: bool)
      requires h.wormhole.Some? && todo == Started(Published(cfg, h, built, i))
      modifies this
      ensures (Files(), clock) == old(End(todo))
      ensures stops == (FetchVaa(cfg.setup, i.vaaSource, built) != Err(VaaNotAvailable))
    {
      hide Do, FetchVaa, Level4Accept, Submit, Announced;
      ghost var p := todo;
      p := Emit(R.WormholeMessagePublished(h.wormhole.value.emitterBase58, h.wormhole.value.sequence), true, p);
      var fetched := FetchVaa(cfg.setup, i.vaaSource, built);
      if fetched.Err? { return fetched.error != VaaNotAvailable; }
      stops := true;
      var accept := Level4Accept(cfg.setup, built, fetched.value);
      if accept.Err? { Fail(EXECUTOR_STAGE, accept.error, i, p); return; }
      var res := accept.value;
      p := Emit(R.VaaReady(cfg.setup.c.keccak(fetched.value), SignerIndices(res.vaa.signatures)), true, p);
      SubmitAccepted(built, res, i, p);
    }

    method SubmitAccepted(built: Built, res: Level4Result, i: TickInput, ghost todo: Proc)
      requires todo == Started(Submit(cfg, built, res, i))
      modifies this
      ensures (Files(), clock) == old(End(todo))
    {
      hide Do, Seen, TrySubmit;
      ghost var p := todo;
      var state := Submitted(res.attestationId, false, None);
      if cfg.executorLive {
        var mined;
        mined, p := SendMessage(res.vaaBytes, p);
        if !mined { return; }
        p := Emit(R.Level4BaseSubmitted(i.txHash), false, p);
        p := Emit(R.BaseVaaVerified(i.block), false, p);
        assert p.todo == [PollRegistry(POLL_ATTEMPTS, built.outcome.fixtureId, i.settleTxHash)] + [SaveExecutor(state)];
        var threw, dualFinalized, settleTxHash :=
          FinalizeOnBase(POLL_ATTEMPTS, built.outcome.fixtureId, i.settleTxHash, [SaveExecutor(state)]);
        if !threw { SaveExecutorState(state, dualFinalized, settleTxHash); }
      } else {
        p := Emit(R.Level4BaseSubmitted(i.txHash), true, p);
        p := Emit(R.BaseVaaVerified(i.block), true, p);
        assert p.todo == [Action.Reconcile(res.attestationId, i.settleTxHash, i.reason)] + [SaveExecutor(state)];
        var failed, settleTxHash := ReconcileLocally(res.attestationId, i.settleTxHash, i.reason, p,
                                                     [SaveExecutor(state)]);
        if !failed { SaveExecutorState(state, false, settleTxHash); }
      }
    }

    method SendMessage(vaaBytes: bytes, ghost p: Proc) returns (mined: bool, ghost rest: Proc)
      requires p.todo != [] && p.todo[0] == SendVaa(vaaBytes)
      modifies this
      ensures rest == (if mined then p.(todo := p.todo[1..]) else IDLE) && End(rest) == old(End(p))
      ensures mined <==> TrySubmit(cfg.d, Seen(old(Files()), env(old(clock))), vaaBytes).Ok?
    {
      hide TrySubmit;
      var estimate := TrySubmit(cfg.d, Behind(base, past, env(clock).lag), vaaBytes);
      clock := clock + 1;
      if estimate.Err? { return false, IDLE; }
      var receipt := TrySubmit(cfg.d, base, vaaBytes);
      if receipt.Ok? { base, past := receipt.value, past + [base]; }
      return true, p.(todo := p.todo[1..]);
    }

    /** The simulated comparison with level3-report.json. */
    method ReconcileLocally(id: bytes32, hash: string, reason: string, ghost todo: Proc, ghost tail: seq<Action>)
      returns (failed: bool, settleTxHash: Option<string>)
      requires todo == Started([Action.Reconcile(id, hash, reason)] + tail)
      modifies this
      ensures End(if failed then IDLE else Proc(tail, false, settleTxHash)) == old(End(todo))
    {
      hide Append;
      assert todo.todo[1..] == tail;
      failed, settleTxHash := false, None;
      clock := clock + 1;
      if level3Report == None { return; }
      if level3Report.value.attestationId != id {
        ghost var gone := Emit(R.RunFailed(EXECUTOR_STAGE, reason), true,
                               Started([Action.Emit(R.RunFailed(EXECUTOR_STAGE, reason), true)]));
        failed := true;
        return;
      }
      if cfg.settleMarket {
        settleTxHash := Some(hash);
        ghost var p := Proc(
                        [Action.Emit(R.DualFinalityReached(id), true),
                         Action.Emit(R.ConsumerSettled(hash), true)] + tail, false, Some(hash));
        p := Emit(R.DualFinalityReached(id), true, p);
        assert p.todo == [Action.Emit(R.ConsumerSettled(hash), true)] + tail;
        p := Emit(R.ConsumerSettled(hash), true, p);
        assert p.todo == tail;
      } else {
        ghost var p := Proc([Action.Emit(R.DualFinalityReached(id), true)] + tail, false, None);
        p := Emit(R.DualFinalityReached(id), true, p);
        assert p.todo == tail;
      }
    }

    // -----------------------------------------------------------------------
    // The heartbeat loop
    // -----------------------------------------------------------------------

    /** cronHeartbeat: ticks 1 to max, ending early on "done" (or a throw). */
    method RunWorkflow(who: Who, inputs: nat -> TickInput, max: nat)
      requires Wired()
      modifies this, adapter
      ensures (Files(), clock) == old(Cron(cfg, who, Files(), inputs, env, clock, 1, max))
    {
      hide Tick, Stops, Drain;
      for tick := 1 to max + 1
        invariant Cron(cfg, who, Files(), inputs, env, clock, tick, max) ==
                  old(Cron(cfg, who, Files(), inputs, env, clock, 1, max))
      {
        var i := inputs(tick);
        var stops;
        match who {
          case Dispatch => stops := DispatchTick(i);
          case Attestor => stops := AttestorTick(i);
          case Executor => stops := ExecutorTick(i);
        }
        if stops { return; }
      }
    }
  }
}
