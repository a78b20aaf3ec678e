/** resolve_task up to its loop keeps the invariant. */
module TaskSettle {
  import opened Wrappers
  import opened TaskMachine
  import opened TaskInvariant
  import opened TaskFrames
  import opened TaskPreserve

  // A frame other than an invocation is pushed on `f`.
  predicate Pushes(s: State, s': State, f: Fiber, frame: StackFrame) {
    s'.stacks == s.stacks[f := Stack(s, f) + [frame]] && s'.active == s.active && s'.calls == s.calls
  }

  lemma PushesPushed(s: State, s': State, f: Fiber, frame: StackFrame)
    requires Pushes(s, s', f, frame)
    ensures Pushed(s, s', f) && Stack(s', f) == Stack(s, f) + [frame]
  {
    assert (Stack(s, f) + [frame])[..|Stack(s, f)|] == Stack(s, f);
  }

  lemma PushStacks(s: State, s': State, f: Fiber, frame: StackFrame)
    requires StacksOk(s) && Pushes(s, s', f, frame) && !frame.Exec?
    requires forall t :: t in s.calls && t in s.heap && s.heap[t].imp.Some? ==> SameKeepAlive(s, s', t)
    ensures StacksOk(s')
  {
    PushesPushed(s, s', f, frame);
    CurrentPush(Stack(s, f), frame);
    hide Current;
    forall g: Fiber
      ensures CurrentTask(s', g) == Current(Stack(s', g))
    {
      assert CurrentTask(s', g) == CurrentTask(s, g);
      assert g != f ==> Stack(s', g) == Stack(s, g);
    }
    hide Pushes;
    forall g, i: int | 0 <= i < |Stack(s', g)| && Stack(s', g)[i].Exec?
      ensures ExecAt(s', g, i)
    {
      PushExec(s, s', f, frame, g, i);
    }
  }

  lemma PushExec(s: State, s': State, f: Fiber, frame: StackFrame, g: Fiber, i: int)
    requires StacksOk(s) && Pushes(s, s', f, frame) && !frame.Exec?
    requires forall t :: t in s.calls && t in s.heap && s.heap[t].imp.Some? ==> SameKeepAlive(s, s', t)
    requires 0 <= i < |Stack(s', g)| && Stack(s', g)[i].Exec?
    ensures ExecAt(s', g, i)
  {
    hide Current;
    PushesPushed(s, s', f, frame);
    assert i < |Stack(s, g)| && Stack(s', g)[i] == Stack(s, g)[i];
    assert Stack(s', g)[..i] == Stack(s, g)[..i];
    assert ExecAt(s, g, i);
  }

  lemma PushFast(s: State, s': State, f: Fiber, frame: StackFrame)
    requires HistoryOk(s) && Pushes(s, s', f, frame) && FinalKept(s, s') && FastAt(s', frame)
    ensures forall g, i: int | 0 <= i < |Stack(s', g)| :: FastAt(s', Stack(s', g)[i])
  {
    PushesPushed(s, s', f, frame);
    forall g, i: int | 0 <= i < |Stack(s', g)|
      ensures FastAt(s', Stack(s', g)[i])
    {
      if g != f || i < |Stack(s, f)| {
        assert Stack(s', g)[i] == Stack(s, g)[i];
        assert FastAt(s, Stack(s, g)[i]);
      }
    }
  }

  lemma PushKeeps(s: State, s': State, f: Fiber, frame: StackFrame)
    requires Pushes(s, s', f, frame) && !frame.Exec? && !frame.Tail?
    ensures forall a, g, i :: Keeps(s', g, i, a) <==> Keeps(s, g, i, a)
  {
    PushesPushed(s, s', f, frame);
    forall a, g, i
      ensures Keeps(s', g, i, a) <==> Keeps(s, g, i, a)
    {
      if g == f && 0 <= i < |Stack(s, f)| {
        assert Stack(s', f)[i] == Stack(s, f)[i];
      }
    }
  }

  // ---- resolve_task ----

  predicate Unsettled(s: State, t: Addr) {
    t in s.heap && s.heap[t].value.None? && s.heap[t].Closure().None? && !s.heap[t].Running() && !s.heap[t].Deleted()
  }

  function Finals(s: State, t: Addr, v: Value): map<Uid, Value>
    requires t in s.heap
  {
    s.final + (map u | u in s.heap[t].standsFor :: v)
  }

  ghost predicate Settles(s: State, s': State, f: Fiber, t: Addr, v: Value)
    requires t in s.heap
  {
    && s'.heap == s.heap[t := s.heap[t].(value := Some(v), imp := None)]
    && s'.syncDependents == s.syncDependents - {t}
    && s'.queued == s.queued && s'.syncRegistered == s.syncRegistered
    && Pushes(s, s', f, Resolve(t, s.heap[t].uid, Dependents(s, t)))
    && s'.next == s.next && s'.origin == s.origin && s'.arg == s.arg && s'.returned == s.returned && s'.applied == s.applied
    && s'.final == Finals(s, t, v)
  }

  lemma SettleShape(s: State, s': State, f: Fiber, t: Addr, v: Value, dying: set<Addr>)
    requires Unsettled(s, t) && Settles(s, s', f, t, v) && Shape(s, dying)
    ensures Shape(s', dying)
  {
    hide Pushes;
    assert s'.calls == s.calls by { PushesCalls(s, s', f, Resolve(t, s.heap[t].uid, Dependents(s, t))); }
    assert ShapeAt(s, dying, t);
    forall a | a in s'.heap
      ensures ShapeAt(s', dying, a)
    {
      assert ShapeAt(s, dying, a);
    }
  }

  lemma PushesCalls(s: State, s': State, f: Fiber, frame: StackFrame)
    requires Pushes(s, s', f, frame)
    ensures s'.calls == s.calls
  {
  }

  lemma SettleHeld(s: State, s': State, f: Fiber, t: Addr, v: Value)
    requires Unsettled(s, t) && Settles(s, s', f, t, v) && HeldOk(s)
    ensures HeldOk(s')
  {
    forall a
      ensures Holds(s', a) == Holds(s, a)
    {
    }
    hide Holds, Pushes, Finals;
  }

  lemma SettleKeep(s: State, s': State, f: Fiber, t: Addr, v: Value)
    requires Unsettled(s, t) && Settles(s, s', f, t, v) && KeepOk(s)
    ensures KeepOk(s')
  {
    PushKeeps(s, s', f, Resolve(t, s.heap[t].uid, Dependents(s, t)));
    hide Keeps, Pushes, Finals;
  }

  lemma SettleStacks(s: State, s': State, f: Fiber, t: Addr, v: Value, dying: set<Addr>)
    requires Unsettled(s, t) && Settles(s, s', f, t, v) && Shape(s, dying) && StacksOk(s)
    ensures StacksOk(s')
  {
    assert ShapeAt(s, dying, t);
    hide StacksOk, Finals;
    PushStacks(s, s', f, Resolve(t, s.heap[t].uid, Dependents(s, t)));
  }

  lemma SettleWaits(s: State, s': State, f: Fiber, t: Addr, v: Value)
    requires Unsettled(s, t) && Settles(s, s', f, t, v) && WaitsOk(s)
    ensures WaitsOk(s')
  {
    hide Pushes, Finals;
  }

  lemma SettleProgress(s: State, s': State, f: Fiber, t: Addr, v: Value, idle: set<Addr>)
    requires Unsettled(s, t) && Settles(s, s', f, t, v) && ProgressOk(s, idle)
    ensures ProgressOk(s', idle)
  {
    var frame := Resolve(t, s.heap[t].uid, Dependents(s, t));
    PushesPushed(s, s', f, frame);
    PushKeepsLoops(s, s', f);
    var n := |Stack(s, f)|;
    assert ResolvesAt(s', f, n, t);
    forall a | a in Dependents(s, t)
      ensures InLoop(s', t, a)
    {
      assert LoopAt(s', f, n, t, a);
    }
    hide Pushes, Finals, InLoop, Stack;
    forall a | a in s'.heap && s'.heap[a].Closure().Some? && a !in idle
      ensures ProgressAt(s', a)
    {
      assert ProgressAt(s, a);
    }
  }

  lemma SettleHistory(s: State, s': State, f: Fiber, t: Addr, v: Value)
    requires Unsettled(s, t) && Settles(s, s', f, t, v) && HistoryOk(s) && MeaningOk(s, Settling(t, v))
    ensures HistoryOk(s')
  {
    forall u | u in s.heap[t].standsFor
      ensures u in s.origin && u !in s.final && WillBe(s, t, u, v)
    {
      assert MeansAt(s, Settling(t, v), t, u);
    }
    hide MeaningOk;
    assert FinalKept(s, s');
    PushFast(s, s', f, Resolve(t, s.heap[t].uid, Dependents(s, t)));
    hide Pushes, Dependents;
    forall u: Uid | u in s'.final && u !in s.final
      ensures u in s'.origin && Equation(s', u)
    {
      assert WillBe(s, t, u, v);
    }
    HistoryGrows(s, s');
  }

  lemma SettleMeaning(s: State, s': State, f: Fiber, t: Addr, v: Value, dying: set<Addr>)
    requires Unsettled(s, t) && Settles(s, s', f, t, v) && Shape(s, dying) && HeldOk(s) && MeaningOk(s, Settling(t, v))
    ensures MeaningOk(s', Firm)
  {
    hide Pushes, Dependents;
    PushesCalls(s, s', f, Resolve(t, s.heap[t].uid, Dependents(s, t)));
    assert ShapeAt(s, dying, t);
    forall a | a in s.heap && a != t
      ensures SameTask(s, s', a) && (Needs(s, a).Some? ==> NeededAt(s, s', Needs(s, a).value))
      ensures forall u :: u in s.heap[a].standsFor ==> AgreesAt(s, s', u)
    {
      assert ShapeAt(s, dying, a);
      assert Holds(s, a) == Needs(s, a);
    }
    forall u | u in s.heap[t].standsFor
      ensures u in s.origin && u !in s.final
    {
      assert MeansAt(s, Settling(t, v), t, u);
    }
    assert Work(s', t).None?;
    assert MeansHere(s', Firm, t);
    assert FinalKept(s, s');
    hide Shape, HeldOk;
    MeaningExcept(s, s', Settling(t, v), Firm, t);
  }

  lemma SettleInv(s: State, s': State, f: Fiber, t: Addr, v: Value, x: Slack)
    requires Unsettled(s, t) && Settles(s, s', f, t, v) && Inv(s, x) && x.loose == Settling(t, v)
    ensures Inv(s', x.(loose := Firm))
  {
    hide Shape, HeldOk, KeepOk, StacksOk, WaitsOk, ProgressOk, HistoryOk, MeaningOk, Settles, Unsettled;
    SettleShape(s, s', f, t, v, x.dying);
    SettleHeld(s, s', f, t, v);
    SettleKeep(s, s', f, t, v);
    SettleStacks(s, s', f, t, v, x.dying);
    SettleWaits(s, s', f, t, v);
    SettleProgress(s, s', f, t, v, x.idle);
    SettleHistory(s, s', f, t, v);
    SettleMeaning(s, s', f, t, v, x.dying);
  }
}
