/** The coordinator's store and fan-out (apps/coordinator/src/event-store/store.ts,
    apps/coordinator/src/sse/broadcast.ts) and the list a live page keeps (apps/web/lib/run-engine.tsx). */
module EventStream {
  import opened Bytes
  import Manifest
  import R = Reducer

  // -------------------------------------------------------------------------
  // The server
  // -------------------------------------------------------------------------

  /** One open response: what has been written to it. */
  class Response {
    var written: seq<R.RunEvent>

    constructor ()
      ensures written == []
    {
      written := [];
    }

    method Write(e: R.RunEvent)
      modifies this
      ensures written == old(written) + [e]
    {
      written := written + [e];
    }
  }

  class SseHub {
    var clients: set<Response>

    constructor ()
      ensures clients == {}
    {
      clients := {};
    }

    /** The whole backlog first, then the live fan-out. */
    method Attach(res: Response, backlog: seq<R.RunEvent>)
      requires res !in clients && res.written == []
      modifies this, res
      ensures clients == old(clients) + {res} && res.written == backlog
    {
      for i := 0 to |backlog|
        invariant res.written == backlog[..i] && clients == old(clients)
      {
        res.Write(backlog[i]);
      }
      assert backlog[..|backlog|] == backlog;
      clients := clients + {res};
    }

    /** The "close" handler. */
    method Detach(res: Response)
      modifies this
      ensures clients == old(clients) - {res}
    {
      clients := clients - {res};
    }

    method Send(e: R.RunEvent)
      modifies clients
      ensures forall c <- clients :: c.written == old(c.written) + [e]
    {
      var left := clients;
      while left != {}
        invariant left <= clients
        invariant forall c <- clients :: c.written == if c in left then old(c.written) else old(c.written) + [e]
        decreases |left|
      {
        var c :| c in left;
        c.Write(e);
        left := left - {c};
      }
    }
  }

  datatype ActiveRun = ActiveRun(runId: string, events: seq<R.RunEvent>)

  datatype StoreError = NoActiveRun | ManifestInvalid

  /** What the store hands out sequence numbers as. */
  predicate Numbered(events: seq<R.RunEvent>) { forall i | 0 <= i < |events| :: events[i].seq_ == i }

  class EventStore {
    const hub: SseHub
    var run: Option<ActiveRun>

    ghost predicate Valid()
      reads this
    {
      run.Some? ==> Numbered(run.value.events)
    }

    /** store.active?.events ?? [] */
    function Events(): seq<R.RunEvent>
      reads this
    {
      if run.Some? then run.value.events else []
    }

    /** Every attached response has been sent exactly the store's events, in order. */
    ghost predicate InStep()
      reads this, hub, hub.clients
    {
      forall c <- hub.clients :: c.written == Events()
    }

    constructor (hub: SseHub)
      ensures this.hub == hub && run == None && Valid()
    {
      this.hub, run := hub, None;
    }

    method StartRun(runId: string)
      modifies this
      ensures run == Some(ActiveRun(runId, [])) && Valid()
    {
      run := Some(ActiveRun(runId, []));
    }

    /** Number, push, fan out. */
    method Record(event: R.Event, simulated: bool, now: int) returns (r: Result<R.RunEvent, StoreError>)
      requires Valid()
      modifies this, hub.clients
      ensures Valid()
      ensures old(run) == None ==>
                r == Err(NoActiveRun) && run == None && forall c <- hub.clients :: c.written == old(c.written)
      ensures old(run).Some? ==>
        && r == Ok(R.RunEvent(|old(Events())|, now, simulated, event))
        && run == Some(old(run).value.(events := old(Events()) + [r.value]))
      ensures old(InStep()) ==> InStep()
    {
      if run == None { return Err(NoActiveRun); }
      var re := R.RunEvent(|run.value.events|, now, simulated, event);
      run := Some(run.value.(events := run.value.events + [re]));
      hub.Send(re);
      r := Ok(re);
    }

    /** A new connection (or a reconnect) keeps every response in step. */
    method Attach(res: Response)
      requires res !in hub.clients && res.written == []
      modifies hub, res
      ensures hub.clients == old(hub.clients) + {res} && res.written == Events()
      ensures old(InStep()) ==> InStep()
    {
      hub.Attach(res, Events());
    }

    /** finalize writes exactly the manifests that validate. Its own numbering always passes the
        sequence check, so only an empty run id, an empty run or a clock going back can stop it. */
    method Finalize() returns (r: Result<seq<R.RunEvent>, StoreError>)
      requires Valid()
      ensures run == None <==> r == Err(NoActiveRun)
      ensures run.Some? ==>
                (r.Ok? <==> run.value.runId != "" && run.value.events != [] && Manifest.TimeRises(run.value.events))
      ensures r.Ok? ==> r.value == Events()
    {
      if run == None { return Err(NoActiveRun); }
      var errs := Manifest.ValidateManifest(run.value.runId, run.value.events);
      if |errs| > 0 { return Err(ManifestInvalid); }
      r := Ok(run.value.events);
    }
  }

  // -------------------------------------------------------------------------
  // The page
  // -------------------------------------------------------------------------

  predicate HasSeq(list: seq<R.RunEvent>, s: int) { exists e <- list :: e.seq_ == s }

  /** setLiveEvents: an event whose number is already in the list is dropped. */
  function Received(list: seq<R.RunEvent>, e: R.RunEvent): seq<R.RunEvent>
  {
    if HasSeq(list, e.seq_) then list else list + [e]
  }

  class LivePage {
    var liveEvents: seq<R.RunEvent>

    constructor ()
      ensures liveEvents == []
    {
      liveEvents := [];
    }

    method OnMessage(e: R.RunEvent)
      modifies this
      ensures liveEvents == Received(old(liveEvents), e)
    {
      for i := 0 to |liveEvents|
        invariant liveEvents == old(liveEvents)
        invariant forall j | 0 <= j < i :: liveEvents[j].seq_ != e.seq_
      {
        if liveEvents[i].seq_ == e.seq_ {
          assert liveEvents[i] in liveEvents;
          return;
        }
      }
      liveEvents := liveEvents + [e];
    }
  }

  // -------------------------------------------------------------------------
  // One page across connections and runs
  // -------------------------------------------------------------------------

  /** The store's events; what the page's current connection was sent and how much of it has arrived;
      the page's list. */
  datatype Session = Session(
    events: seq<R.RunEvent>, sent: seq<R.RunEvent>, delivered: nat, connected: bool, list: seq<R.RunEvent>)

  datatype Move = Record(event: R.Event, simulated: bool, now: int) | Connect | Deliver | Disconnect | StartRun

  function Next(s: Session, m: Move): Session
  {
    match m
    case Record(event, simulated, now) =>
      var e := R.RunEvent(|s.events|, now, simulated, event);
      s.(events := s.events + [e], sent := if s.connected then s.sent + [e] else s.sent)
    case Connect => s.(sent := s.events, delivered := 0, connected := true)
    case Deliver =>
      if s.connected && s.delivered < |s.sent|
      then s.(list := Received(s.list, s.sent[s.delivered]), delivered := s.delivered + 1) else s
    case Disconnect => s.(connected := false)
    case StartRun => s.(events := [])
  }

  const FRESH := Session([], [], 0, false, [])

  function Run(moves: seq<Move>): Session
    decreases |moves|
  {
    if moves == [] then FRESH else Next(Run(moves[..|moves| - 1]), moves[|moves| - 1])
  }

  /** A page that lost its connection shows what it showed until it connects again. */
  lemma {:induction false} OfflineStays(before: seq<Move>, after: seq<Move>)
    requires Connect !in after
    ensures Run(before + [Disconnect] + after).list == Run(before).list
    ensures !Run(before + [Disconnect] + after).connected
    decreases |after|
  {
    var all := before + [Disconnect] + after;
    if after == [] {
      assert all[..|all| - 1] == before;
    } else {
      var n := |after| - 1;
      assert all[..|all| - 1] == before + [Disconnect] + after[..n] && all[|all| - 1] == after[n];
      assert after[n] in after && forall m <- after[..n] :: m in after;
      OfflineStays(before, after[..n]);
    }
  }

  predicate OneRun(moves: seq<Move>) { StartRun !in moves }

  /** The list is a prefix of the store's events that covers what this connection delivered. */
  predicate Inv(s: Session) {
    && Numbered(s.events) && |s.list| <= |s.events| && s.list == s.events[..|s.list|]
    && s.delivered <= |s.sent| <= |s.events| && s.sent == s.events[..|s.sent|] && s.delivered <= |s.list|
    && (s.connected ==> s.sent == s.events)
  }

  lemma ReceivedPrefix(events: seq<R.RunEvent>, m: nat, d: nat)
    requires Numbered(events) && d <= m <= |events| && d < |events|
    ensures Received(events[..m], events[d]) == if d < m then events[..m] else events[..m + 1]
  {
    if d < m { assert events[..m][d] == events[d] && events[d] in events[..m]; }
  }

  lemma NextKeeps(s: Session, m: Move)
    requires Inv(s) && m != StartRun
    ensures Inv(Next(s, m))
  {
    match m
    case Deliver => if s.connected && s.delivered < |s.sent| { ReceivedPrefix(s.events, |s.list|, s.delivered); }
    case _ =>
  }

  lemma {:induction false} RunKeeps(moves: seq<Move>)
    requires OneRun(moves)
    ensures Inv(Run(moves))
    decreases |moves|
  {
    hide Next, Inv;
    if moves != [] {
      RunKeeps(moves[..|moves| - 1]);
      NextKeeps(Run(moves[..|moves| - 1]), moves[|moves| - 1]);
    } else {
      FreshInv();
    }
  }

  lemma FreshInv()
    ensures Inv(FRESH)
  {
  }

  /** For every interleaving of recording, delivery, disconnects and reconnects in one run: the page's list is a
      prefix of the store's events, in order and without gaps or repeats, and all of them once the
      connection has delivered; so its room is always some replay position of the store's, the last
      one once delivered. */
  lemma PageFollowsStore(moves: seq<Move>)
    requires OneRun(moves)
    ensures var s := Run(moves);
            && s.list <= s.events
            && (s.connected && s.delivered == |s.sent| ==> s.list == s.events)
            && R.Fold(R.InitialState(), s.list) == R.Replay(s.events, |s.list| - 1)
  {
    hide Run, R.Fold;
    RunKeeps(moves);
    var s := Run(moves);
    NumberedReach(s.events, |s.list|);
  }

  lemma {:induction false} NumberedReach(events: seq<R.RunEvent>, n: nat)
    requires Numbered(events) && n <= |events|
    ensures R.Reach(events, n - 1) == n
  {
    var r := R.Reach(events, n - 1);
    assert r < |events| ==> events[r].seq_ == r > n - 1;
    assert r > 0 ==> events[r - 1].seq_ == r - 1 <= n - 1;
  }

  // -------------------------------------------------------------------------
  // Across runs
  // -------------------------------------------------------------------------

  /** All of a later run's events, delivered to a page that shows an earlier one. */
  function ReceivedAll(list: seq<R.RunEvent>, events: seq<R.RunEvent>): seq<R.RunEvent>
  {
    if events == [] then list else Received(ReceivedAll(list, events[..|events| - 1]), events[|events| - 1])
  }

  lemma {:induction false} LaterRun(first: seq<R.RunEvent>, second: seq<R.RunEvent>)
    requires Numbered(first) && Numbered(second)
    ensures ReceivedAll(first, second) == if |second| <= |first| then first else first + second[|first|..]
  {
    if second != [] {
      var n := |second| - 1;
      LaterRun(first, second[..n]);
      var list := ReceivedAll(first, second[..n]);
      if n < |first| {
        assert first[n] in list;
      } else {
        assert list == first + second[|first|..n] by { assert n == |first| ==> second[|first|..n] == []; }
        assert second[|first|..n] + [second[n]] == second[|first|..];
      }
    }
  }

  /** Sequence numbers start over with each run, so a page kept open over two runs shows the second one
      exactly when the first is a prefix of it. */
  lemma SecondRunShownIff(first: seq<R.RunEvent>, second: seq<R.RunEvent>)
    requires Numbered(first) && Numbered(second)
    ensures ReceivedAll(first, second) == second <==> first <= second
  {
    LaterRun(first, second);
    if first <= second {
      assert second == second[..|first|] + second[|first|..];
    }
  }

  /** What the page still shows and gets after a new run began while it showed all of the first: a
      connection that is still open first brings what is left of the first run. */
  predicate AcrossInv(s: Session, first: seq<R.RunEvent>, left: nat, n: nat) {
    && Numbered(first) && Numbered(s.events) && left <= |first| && n <= |s.events|
    && left <= |s.sent| <= left + |s.events| && s.delivered <= |s.sent| && s.delivered <= left + n
    && s.sent == first[..left] + s.events[..|s.sent| - left]
    && s.list == ReceivedAll(first, s.events[..n])
    && (s.connected ==> |s.sent| == left + |s.events|)
  }

  lemma AllListed(first: seq<R.RunEvent>, events: seq<R.RunEvent>, n: nat, k: nat)
    requires Numbered(first) && Numbered(events) && n <= |events| && (k < |first| || k < n)
    ensures HasSeq(ReceivedAll(first, events[..n]), k)
  {
    LaterRun(first, events[..n]);
    var list := ReceivedAll(first, events[..n]);
    assert if k < |first| then list[k] == first[k] else list[k] == events[k];
    assert list[k] in list;
  }

  lemma AcrossNext(s: Session, m: Move, first: seq<R.RunEvent>, left: nat, n: nat) returns (left': nat, n': nat)
    requires AcrossInv(s, first, left, n) && m != StartRun
    ensures AcrossInv(Next(s, m), first, left', n')
  {
    hide ReceivedAll, HasSeq;
    left', n' := left, n;
    match m
    case Record(event, simulated, now) =>
      var next := Next(s, m);
      assert next.events[..n] == s.events[..n];
      assert next.events[..|s.sent| - left] == s.events[..|s.sent| - left];
      if s.connected { assert next.sent == first[..left] + next.events[..|next.sent| - left]; }
    case Connect =>
      left' := 0;
      assert s.events[..|s.events|] == s.events && first[..0] == [];
    case Deliver =>
      if s.connected && s.delivered < |s.sent| {
        var k := if s.delivered < left then s.delivered else s.delivered - left;
        if s.delivered < left || k < n {
          AllListed(first, s.events, n, k);
        } else {
          n' := n + 1;
          OneMoreReceived(first, s.events, n);
        }
      }
    case Disconnect =>
  }

  lemma OneMoreReceived(first: seq<R.RunEvent>, events: seq<R.RunEvent>, n: nat)
    requires n < |events|
    ensures ReceivedAll(first, events[..n + 1]) == Received(ReceivedAll(first, events[..n]), events[n])
  {
    assert events[..n + 1][..n] == events[..n];
  }

  lemma {:induction false} AcrossRuns(first: seq<Move>, second: seq<Move>) returns (left: nat, n: nat)
    requires OneRun(first) && OneRun(second) && Run(first).list == Run(first).events
    ensures AcrossInv(Run(first + [StartRun] + second), Run(first).events, left, n)
    decreases |second|
  {
    hide Next, AcrossInv;
    var moves := first + [StartRun] + second;
    if second == [] {
      assert moves[..|moves| - 1] == first && moves[|moves| - 1] == StartRun;
      RunKeeps(first);
      left, n := NewRun(Run(first));
    } else {
      assert moves[..|moves| - 1] == first + [StartRun] + second[..|second| - 1];
      var left0, n0 := AcrossRuns(first, second[..|second| - 1]);
      left, n := AcrossNext(Run(moves[..|moves| - 1]), moves[|moves| - 1], Run(first).events, left0, n0);
    }
  }

  lemma NewRun(s: Session) returns (left: nat, n: nat)
    requires Inv(s) && s.list == s.events
    ensures AcrossInv(Next(s, StartRun), s.events, left, n)
  {
    left, n := |s.sent|, 0;
  }

  /** So over any session of two runs: a page that showed all of the first shows all of the second, once
      that is delivered, exactly when the first run's events are a prefix of the second's. */
  lemma SecondSessionShownIff(first: seq<Move>, second: seq<Move>)
    requires OneRun(first) && OneRun(second) && Run(first).list == Run(first).events
    requires var t := Run(first + [StartRun] + second); t.connected && t.delivered == |t.sent|
    ensures var t := Run(first + [StartRun] + second); t.list == t.events <==> Run(first).events <= t.events
  {
    hide Run;
    var t := Run(first + [StartRun] + second);
    var left, n := AcrossRuns(first, second);
    assert t.events[..n] == t.events;
    SecondRunShownIff(Run(first).events, t.events);
  }

  /** The second run's only event never appears: its number is taken. */
  lemma SecondRunHidden(e: R.Event, f: R.Event)
    ensures var t := Run([Connect, Record(e, false, 0), Deliver, StartRun, Record(f, false, 1), Deliver]);
            && t.list == [R.RunEvent(0, 0, false, e)] && t.events == [R.RunEvent(0, 1, false, f)]
            && t.delivered == |t.sent|
  {
    var moves := [Connect, Record(e, false, 0), Deliver, StartRun, Record(f, false, 1), Deliver];
    assert Run(moves[..0]) == FRESH;
    assert moves[..1][..0] == moves[..0] && moves[..2][..1] == moves[..1] && moves[..3][..2] == moves[..2];
    assert moves[..4][..3] == moves[..3] && moves[..5][..4] == moves[..4];
    var a, b := R.RunEvent(0, 0, false, e), R.RunEvent(0, 1, false, f);
    assert Run(moves[..1]) == Session([], [], 0, true, []);
    assert Run(moves[..2]) == Session([a], [a], 0, true, []);
    assert Run(moves[..3]) == Session([a], [a], 1, true, [a]);
    assert Run(moves[..4]) == Session([], [a], 1, true, [a]);
    assert Run(moves[..5]) == Session([b], [a, b], 1, true, [a]);
    assert HasSeq([a], 0) by { assert a in [a]; }
  }
}
