/** Every tick ends: each action leaves less to do, whatever the outside answers. */
module Progress {
  import opened BaseContracts
  import opened Workflows
  import PB = ProofBuffer
  import R = Reducer

  function WeightOf(a: Action): nat
  {
    match a
    case PollRegistry(attempts, _, _) => attempts + 6
    case CheckMarket(_) => 4
    case SendSettle(_) => 3
    case Reconcile(_, _, _) => 4
    case _ => 1
  }

  function Weight(todo: seq<Action>): nat { if todo == [] then 0 else WeightOf(todo[0]) + Weight(todo[1..]) }

  lemma {:induction false} WeightAppend(a: seq<Action>, b: seq<Action>)
    ensures Weight(a + b) == Weight(a) + Weight(b)
  {
    if a == [] {
      assert a + b == b;
    } else {
      assert (a + b)[1..] == a[1..] + b;
      WeightAppend(a[1..], b);
    }
  }

  lemma Single(a: Action)
    ensures Weight([a]) == WeightOf(a)
  {
    assert [a][1..] == [];
  }

  /** The actions whose outcome decides what comes next. */
  predicate Decides(a: Action) { a.PollRegistry? || a.CheckMarket? || a.SendSettle? || a.Reconcile? }

  lemma PlainStep(cfg: Config, w: World, p: Proc, m: Moment)
    requires p.todo != [] && !Decides(p.todo[0])
    ensures Do(cfg, w, p, m).1.todo in [p.todo[1..], []]
  {
    hide TryOnReport, TrySubmit, TrySettle, RowOf, Append, Seen, PB.AfterInit, PB.TryAppend, PB.TrySeal, ReadLevel4Id;
  }

  /** What a deciding action puts in front of the rest, or in its place. */
  predicate Shape(a: Action, rest: seq<Action>, todo: seq<Action>) {
    || todo == rest || todo == []
    || (a.PollRegistry? && a.attempts > 0
        && (todo == [PollRegistry(a.attempts - 1, a.fixtureId, a.hash)] + rest
            || todo == [AnnounceDual(a.fixtureId)] + [CheckMarket(a.hash)] + rest
            || todo == [AnnounceDual(a.fixtureId)] + rest))
    || (a.CheckMarket? && todo == [SendSettle(a.hash)] + rest)
    || (a.SendSettle? && todo == [Action.Emit(R.ConsumerSettled(a.hash), false)] + rest)
    || (a.Reconcile?
        && (todo == [Action.Emit(R.DualFinalityReached(a.attestationId), true)] + rest
            || todo == [Action.Emit(R.DualFinalityReached(a.attestationId), true)] +
                      [Action.Emit(R.ConsumerSettled(a.hash), true)] + rest
            || todo == [Action.Emit(R.RunFailed(EXECUTOR_STAGE, a.reason), true)]))
  }

  lemma DecidingShape(cfg: Config, w: World, p: Proc, m: Moment)
    requires p.todo != [] && Decides(p.todo[0])
    ensures Shape(p.todo[0], p.todo[1..], Do(cfg, w, p, m).1.todo)
  {
    hide TryOnReport, TrySubmit, TrySettle, RowOf, Append, Seen, PB.AfterInit, PB.TryAppend, PB.TrySeal, ReadLevel4Id;
    var rest := p.todo[1..];
    assert forall x: Action, y: Action :: [x, y] == [x] + [y];
    assert forall x: Action :: [x] + [] + rest == [x] + rest;
  }

  lemma DecidingStep(cfg: Config, w: World, p: Proc, m: Moment)
    requires p.todo != [] && Decides(p.todo[0])
    ensures Weight(Do(cfg, w, p, m).1.todo) < WeightOf(p.todo[0]) + Weight(p.todo[1..])
  {
    DecidingShape(cfg, w, p, m);
    ShapeWeight(p.todo[0], p.todo[1..], Do(cfg, w, p, m).1.todo);
  }

  lemma ShapeWeight(a: Action, rest: seq<Action>, todo: seq<Action>)
    requires Shape(a, rest, todo)
    ensures Weight(todo) < WeightOf(a) + Weight(rest)
  {
    assert Weight([]) == 0;
    hide Weight;
    if todo != rest && todo != [] {
      if |todo| == |rest| + 2 {
        Prepend([todo[0]] + [todo[1]], rest);
        assert todo == [todo[0]] + [todo[1]] + rest;
      } else if |todo| == |rest| + 1 && todo[1..] == rest {
        Prepend([todo[0]], rest);
        assert todo == [todo[0]] + rest;
      } else {
        Single(todo[0]);
        assert todo == [todo[0]];
      }
    }
  }

  lemma DoDecreases(cfg: Config, w: World, p: Proc, m: Moment)
    requires p.todo != []
    ensures Weight(Do(cfg, w, p, m).1.todo) < Weight(p.todo)
  {
    hide Do;
    if Decides(p.todo[0]) { DecidingStep(cfg, w, p, m); } else { PlainStep(cfg, w, p, m); }
  }

  lemma Prepend(a: seq<Action>, rest: seq<Action>)
    requires 1 <= |a| <= 2
    ensures Weight(a + rest) == WeightOf(a[0]) + (if |a| == 2 then WeightOf(a[1]) else 0) + Weight(rest)
  {
    WeightAppend(a, rest);
    assert a[1..] == if |a| == 2 then [a[1]] else [];
    if |a| == 2 { Single(a[1]); }
  }
}
