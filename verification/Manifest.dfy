/** validateManifest (packages/event-model/src/run-manifest.ts). */
module Manifest {
  import opened Bytes
  import R = Reducer

  datatype ManifestError = RunIdMissing | EventsEmpty | SeqNotIncreasing(seq_: int) | TimeNotMonotonic(seq_: int)

  /** The sequence number that event i must exceed. */
  function FloorOf(events: seq<R.RunEvent>, i: nat): int
    requires i < |events|
  {
    if i == 0 then -1 else events[i - 1].seq_
  }

  predicate SeqFault(events: seq<R.RunEvent>, i: nat) requires i < |events| { events[i].seq_ <= FloorOf(events, i) }

  predicate TimeFault(events: seq<R.RunEvent>, i: nat) requires i < |events| {
    i > 0 && events[i].at < events[i - 1].at
  }

  /** Strictly increasing sequence numbers, the first of them not negative. */
  predicate SeqRises(events: seq<R.RunEvent>) {
    && (events != [] ==> events[0].seq_ >= 0)
    && forall i, j | 0 <= i < j < |events| :: events[i].seq_ < events[j].seq_
  }

  predicate TimeRises(events: seq<R.RunEvent>) {
    forall i, j | 0 <= i < j < |events| :: events[i].at <= events[j].at
  }

  predicate ValidManifest(runId: string, events: seq<R.RunEvent>) {
    runId != "" && events != [] && SeqRises(events) && TimeRises(events)
  }

  /** One pass over neighbours decides what holds of all pairs; every fault is reported, and only faults. */
  method ValidateManifest(runId: string, events: seq<R.RunEvent>) returns (errs: seq<ManifestError>)
    ensures errs == [] <==> ValidManifest(runId, events)
    ensures RunIdMissing in errs <==> runId == ""
    ensures EventsEmpty in errs <==> events == []
    ensures forall k :: SeqNotIncreasing(k) in errs <==>
                        exists i | 0 <= i < |events| :: events[i].seq_ == k && SeqFault(events, i)
    ensures forall k :: TimeNotMonotonic(k) in errs <==>
                        exists i | 0 <= i < |events| :: events[i].seq_ == k && TimeFault(events, i)
  {
    errs := [];
    if runId == "" { errs := errs + [RunIdMissing]; }
    if |events| == 0 { errs := errs + [EventsEmpty]; }
    ghost var head := errs;
    var lastSeq := -1;
    var lastAt: Option<int> := None;
    for n := 0 to |events|
      invariant lastSeq == if n == 0 then -1 else events[n - 1].seq_
      invariant lastAt == if n == 0 then None else Some(events[n - 1].at)
      invariant Reports(errs, runId, events, n)
    {
      var e := events[n];
      ghost var before := errs;
      if e.seq_ <= lastSeq { errs := errs + [SeqNotIncreasing(e.seq_)]; }
      ghost var between := errs;
      if lastAt.Some? && e.at < lastAt.value { errs := errs + [TimeNotMonotonic(e.seq_)]; }
      ReportsNext(before, between, errs, runId, events, n);
      lastSeq, lastAt := e.seq_, Some(e.at);
    }
    NoFaults(runId, events);
    NoErrors(errs, runId, events);
  }

  ghost predicate Reports(errs: seq<ManifestError>, runId: string, events: seq<R.RunEvent>, n: nat)
    requires n <= |events|
  {
    && (RunIdMissing in errs <==> runId == "") && (EventsEmpty in errs <==> events == [])
    && (forall k :: SeqNotIncreasing(k) in errs <==>
                    exists i | 0 <= i < n :: events[i].seq_ == k && SeqFault(events, i))
    && (forall k :: TimeNotMonotonic(k) in errs <==>
                    exists i | 0 <= i < n :: events[i].seq_ == k && TimeFault(events, i))
  }

  lemma ReportsNext(before: seq<ManifestError>, between: seq<ManifestError>, errs: seq<ManifestError>,
                    runId: string, events: seq<R.RunEvent>, n: nat)
    requires n < |events| && Reports(before, runId, events, n)
    requires between == if SeqFault(events, n) then before + [SeqNotIncreasing(events[n].seq_)] else before
    requires errs == if TimeFault(events, n) then between + [TimeNotMonotonic(events[n].seq_)] else between
    ensures Reports(errs, runId, events, n + 1)
  {
    hide SeqFault, TimeFault;
    forall k
      ensures SeqNotIncreasing(k) in errs <==> exists i | 0 <= i < n + 1 :: events[i].seq_ == k && SeqFault(events, i)
    {
      assert SeqNotIncreasing(k) in errs <==> SeqNotIncreasing(k) in between;
      if SeqNotIncreasing(k) in before { var i :| 0 <= i < n && events[i].seq_ == k && SeqFault(events, i); }
    }
    forall k
      ensures TimeNotMonotonic(k) in errs <==> exists i | 0 <= i < n + 1 :: events[i].seq_ == k && TimeFault(events, i)
    {
      assert TimeNotMonotonic(k) in between <==> TimeNotMonotonic(k) in before;
      if TimeNotMonotonic(k) in before { var i :| 0 <= i < n && events[i].seq_ == k && TimeFault(events, i); }
    }
  }

  lemma NoErrors(errs: seq<ManifestError>, runId: string, events: seq<R.RunEvent>)
    requires Reports(errs, runId, events, |events|)
    ensures errs == [] <==>
            runId != "" && events != [] && forall i | 0 <= i < |events| :: !SeqFault(events, i) && !TimeFault(events, i)
  {
    hide SeqFault, TimeFault;
    if errs != [] {
      assert errs[0] in errs;
      match errs[0]
      case RunIdMissing =>
      case EventsEmpty =>
      case SeqNotIncreasing(k) => var i :| 0 <= i < |events| && events[i].seq_ == k && SeqFault(events, i);
      case TimeNotMonotonic(k) => var i :| 0 <= i < |events| && events[i].seq_ == k && TimeFault(events, i);
    }
    forall i | 0 <= i < |events| && errs == []
      ensures !SeqFault(events, i) && !TimeFault(events, i)
    {
      assert SeqNotIncreasing(events[i].seq_) !in errs && TimeNotMonotonic(events[i].seq_) !in errs;
    }
  }

  lemma NoFaults(runId: string, events: seq<R.RunEvent>)
    ensures (forall i | 0 <= i < |events| :: !SeqFault(events, i)) <==> SeqRises(events)
    ensures (forall i | 0 <= i < |events| :: !TimeFault(events, i)) <==> TimeRises(events)
  {
    if forall i | 0 <= i < |events| :: !SeqFault(events, i) {
      if events != [] { assert !SeqFault(events, 0); }
      forall i, j | 0 <= i < j < |events| ensures events[i].seq_ < events[j].seq_ { Climb(events, i, j); }
    }
    if SeqRises(events) {
      forall i | 0 <= i < |events| ensures !SeqFault(events, i) {
        if i > 0 { assert events[i - 1].seq_ < events[i].seq_; }
      }
    }
    if TimeRises(events) {
      forall i | 0 <= i < |events| ensures !TimeFault(events, i) {
        if i > 0 { assert events[i - 1].at <= events[i].at; }
      }
    }
    if forall i | 0 <= i < |events| :: !TimeFault(events, i) {
      forall i, j | 0 <= i < j < |events| ensures events[i].at <= events[j].at { ClimbTime(events, i, j); }
    }
  }

  lemma {:induction false} Climb(events: seq<R.RunEvent>, i: nat, j: nat)
    requires i < j < |events| && forall m | 0 <= m < |events| :: !SeqFault(events, m)
    ensures events[i].seq_ < events[j].seq_
  {
    assert !SeqFault(events, j);
    if i < j - 1 { Climb(events, i, j - 1); }
  }

  lemma {:induction false} ClimbTime(events: seq<R.RunEvent>, i: nat, j: nat)
    requires i < j < |events| && forall m | 0 <= m < |events| :: !TimeFault(events, m)
    ensures events[i].at <= events[j].at
  {
    assert !TimeFault(events, j);
    if i < j - 1 { ClimbTime(events, i, j - 1); }
  }
}
