/** The pieces of a step keep the invariant. */
module TaskPreserve {
  import opened Wrappers
  import opened TaskMachine
  import opened TaskInvariant
  import opened TaskFrames

  lemma CurrentPush(st: seq<StackFrame>, frame: StackFrame)
    ensures Current(st + [frame]) == if frame.Exec? then Some(frame.task) else Current(st)
  {
    assert (st + [frame])[..|st|] == st;
  }

  // ---- lasm_task_execute takes the closure ----

  predicate CanBegin(s: State, t: Addr) {
    Idle(s, t) && t !in s.queued && t !in s.syncRegistered
  }

  lemma BeginShape(s: State, f: Fiber, t: Addr, x: Slack)
    requires Shape(s, x.dying) && CanBegin(s, t) && KeepOk(s)
    ensures Shape(Begin(s, f, t), x.dying)
  {
    var s' := Begin(s, f, t);
    forall a | a in s'.heap
      ensures ShapeAt(s', x.dying, a)
    {
      assert ShapeAt(s, x.dying, a);
    }
  }

  lemma BeginHeld(s: State, f: Fiber, t: Addr, x: Slack)
    requires Shape(s, x.dying) && CanBegin(s, t) && HeldOk(s)
    ensures HeldOk(Begin(s, f, t))
  {
    var s' := Begin(s, f, t);
    assert ShapeAt(s, x.dying, t);
    forall a
      ensures Holds(s', a) == Holds(s, a)
    {
    }
  }

  lemma BeginKeep(s: State, f: Fiber, t: Addr, x: Slack)
    requires Shape(s, x.dying) && CanBegin(s, t) && KeepOk(s)
    ensures KeepOk(Begin(s, f, t))
  {
    var s' := Begin(s, f, t);
    assert ShapeAt(s, x.dying, t);
    forall a, g, i
      ensures Keeps(s', g, i, a) <==> Keeps(s, g, i, a) || (g == f && i == |Stack(s, f)| && a == t && s.heap[t].imp.value.keepAlive)
    {
    }
  }

  // What the stack clause says after a push on `f`, when nothing below changed.
  lemma BeginStacks(s: State, f: Fiber, t: Addr, x: Slack)
    requires Shape(s, x.dying) && CanBegin(s, t) && StacksOk(s)
    ensures StacksOk(Begin(s, f, t))
  {
    hide Current;
    var s' := Begin(s, f, t);
    var st, st' := Stack(s, f), Stack(s', f);
    assert ShapeAt(s, x.dying, t);
    CurrentPush(st, st'[|st|]);
    assert st' == st + [st'[|st|]];
    forall g
      ensures CurrentTask(s', g) == Current(Stack(s', g))
    {
      if g != f {
        assert Stack(s', g) == Stack(s, g);
      }
    }
    forall g, i: int | 0 <= i < |Stack(s', g)| && Stack(s', g)[i].Exec?
      ensures ExecAt(s', g, i)
    {
      if g == f {
        assert Stack(s', g)[..i] == Stack(s, g)[..i];
      }
      if g != f || i < |Stack(s, f)| {
        assert Stack(s, g)[i] == Stack(s', g)[i];
        assert ExecAt(s, g, i);
      }
    }
  }

  lemma BeginWaits(s: State, f: Fiber, t: Addr)
    requires CanBegin(s, t) && WaitsOk(s)
    ensures WaitsOk(Begin(s, f, t))
  {
  }

  lemma BeginProgress(s: State, f: Fiber, t: Addr, x: Slack)
    requires Shape(s, x.dying) && CanBegin(s, t) && ProgressOk(s, x.idle)
    ensures ProgressOk(Begin(s, f, t), x.idle - {t})
  {
    var s' := Begin(s, f, t);
    PushKeepsLoops(s, s', f);
    forall a | a in s'.heap && s'.heap[a].Closure().Some? && a !in x.idle - {t}
      ensures ProgressAt(s', a)
    {
      assert ProgressAt(s, a);
    }
  }

  // Frames below the top stay where they are.
  ghost predicate Pushed(s: State, s': State, f: Fiber) {
    && (forall g :: g != f ==> Stack(s', g) == Stack(s, g))
    && |Stack(s', f)| == |Stack(s, f)| + 1 && Stack(s', f)[..|Stack(s, f)|] == Stack(s, f)
  }

  lemma PushKeepsLoops(s: State, s': State, f: Fiber)
    requires Pushed(s, s', f)
    ensures forall d, a :: InLoop(s, d, a) ==> InLoop(s', d, a)
    ensures forall d :: Resolving(s, d) ==> Resolving(s', d)
  {
    forall d, a | InLoop(s, d, a)
      ensures InLoop(s', d, a)
    {
      var g, i :| 0 <= i < |Stack(s, g)| && LoopAt(s, g, i, d, a);
      assert LoopAt(s', g, i, d, a);
    }
    forall d | Resolving(s, d)
      ensures Resolving(s', d)
    {
      var g, i :| 0 <= i < |Stack(s, g)| && ResolvesAt(s, g, i, d);
      assert ResolvesAt(s', g, i, d);
    }
  }

  lemma BeginHistory(s: State, f: Fiber, t: Addr, x: Slack)
    requires CanBegin(s, t) && HistoryOk(s) && MeaningOk(s, x.loose) && x.loose.Firm? && Shape(s, x.dying)
    ensures HistoryOk(Begin(s, f, t))
  {
    var s' := Begin(s, f, t);
    var c := s.heap[t].Closure().value;
    if c.Call? {
      assert WorkAt(s, x.loose, t);
    }
    forall u: Uid | u in s'.final
      ensures u in s'.origin && Equation(s', u)
    {
      assert Equation(s, u);
    }
    forall g, i | 0 <= i < |Stack(s', g)|
      ensures FastAt(s', Stack(s', g)[i])
    {
      if g != f || i < |Stack(s, f)| {
        assert FastAt(s, Stack(s, g)[i]);
      }
    }
  }

  lemma BeginMeaning(s: State, f: Fiber, t: Addr, x: Slack)
    requires CanBegin(s, t) && HeldOk(s) && HistoryOk(s) && MeaningOk(s, x.loose) && x.loose.Firm? && Shape(s, x.dying)
    ensures MeaningOk(Begin(s, f, t), x.loose)
  {
    hide Begin, HistoryOk, AgreesAt, MeansAt, Work, NeededAt;
    var s' := Begin(s, f, t);
    BeginWork(s, f, t, x);
    forall a, u | a in s'.heap && a != t && u in s'.heap[a].standsFor
      ensures AgreesAt(s, s', u)
    {
      BeginAgrees(s, f, t, x, a, u);
    }
    BeginMeansHere(s, f, t, x);
    MeaningExcept(s, s', Firm, Firm, t);
  }

  lemma BeginAgrees(s: State, f: Fiber, t: Addr, x: Slack, a: Addr, u: Uid)
    requires CanBegin(s, t) && HeldOk(s) && HistoryOk(s) && MeaningOk(s, x.loose) && x.loose.Firm? && Shape(s, x.dying)
    requires a in Begin(s, f, t).heap && a != t && u in Begin(s, f, t).heap[a].standsFor
    ensures AgreesAt(s, Begin(s, f, t), u)
  {
    assert ShapeAt(s, x.dying, t) && WorkAt(s, Firm, t);
    BeginWork(s, f, t, x);
    hide Begin;
    assert !Work(s, t).value.BindResult? ==> Work(s, t).value.fn in s.heap[t].standsFor;
  }

  lemma BeginMeansHere(s: State, f: Fiber, t: Addr, x: Slack)
    requires CanBegin(s, t) && HeldOk(s) && HistoryOk(s) && MeaningOk(s, x.loose) && x.loose.Firm? && Shape(s, x.dying)
    ensures MeansHere(Begin(s, f, t), Firm, t)
  {
    assert ShapeAt(s, x.dying, t) && WorkAt(s, Firm, t);
    BeginWork(s, f, t, x);
    var s' := Begin(s, f, t);
    hide Begin;
    forall u | u in s'.heap[t].standsFor
      ensures MeansAt(s', Firm, t, u)
    {
      assert MeansAt(s, Firm, t, u);
    }
  }

  // A task that begins does the work it had; the others go on with theirs.
  lemma BeginWork(s: State, f: Fiber, t: Addr, x: Slack)
    requires CanBegin(s, t) && HeldOk(s) && Shape(s, x.dying)
    ensures var s' := Begin(s, f, t);
            && (forall a :: a in s'.heap <==> a in s.heap)
            && (forall a :: a in s.heap && a != t ==> SameTask(s, s', a))
            && (forall a :: a in s.heap && Needs(s, a).Some? ==> NeededAt(s, s', Needs(s, a).value))
            && s'.heap[t].uid == s.heap[t].uid && s'.heap[t].standsFor == s.heap[t].standsFor && s'.heap[t].value == s.heap[t].value
            && Work(s', t) == Work(s, t) && Called(s', t) == Work(s, t).value.Call?
            && s'.next == s.next && s'.origin == s.origin && s'.arg == s.arg && s'.returned == s.returned && s'.final == s.final
            && s'.applied == (if Work(s, t).value.Call? then s.applied + [Work(s, t).value.fn] else s.applied)
  {
    assert ShapeAt(s, x.dying, t);
    forall a | a in s.heap
      ensures Needs(s, a) == Holds(s, a)
    {
      assert ShapeAt(s, x.dying, a);
    }
  }

  lemma BeginInv(s: State, f: Fiber, t: Addr, x: Slack)
    requires Inv(s, x) && x.loose.Firm? && CanBegin(s, t)
    ensures Inv(Begin(s, f, t), x.(idle := x.idle - {t}))
  {
    hide Shape, HeldOk, KeepOk, StacksOk, WaitsOk, ProgressOk, HistoryOk, MeaningOk, Begin, CanBegin;
    BeginShape(s, f, t, x);
    BeginHeld(s, f, t, x);
    BeginKeep(s, f, t, x);
    BeginStacks(s, f, t, x);
    BeginWaits(s, f, t);
    BeginProgress(s, f, t, x);
    BeginHistory(s, f, t, x);
    BeginMeaning(s, f, t, x);
  }
}
