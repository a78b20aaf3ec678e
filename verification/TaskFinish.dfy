/** The end of an invocation keeps the invariant: the frame goes, and the task
    gets its value or the closure of the task it now follows. */
module TaskFinish {
  import opened Wrappers
  import opened TaskMachine
  import opened TaskInvariant
  import opened TaskFrames
  import opened TaskPreserve

  // The topmost frame of `f` is the invocation of `t`.
  predicate OnTop(s: State, f: Fiber, t: Addr) {
    && Top(s, f).Some? && Top(s, f).value.Exec? && Top(s, f).value.task == t
    && t in s.heap && s.heap[t].imp.Some? && t in s.calls
  }

  // lasm_task_execute without what it does with the result.
  ghost predicate Pops(s: State, s': State, f: Fiber, t: Addr)
    requires OnTop(s, f, t)
  {
    var st := Stack(s, f);
    var frame := Top(s, f).value;
    var below := st[..|st| - 1];
    && SameRecord(s, s')
    && s'.queued == s.queued && s'.syncRegistered == s.syncRegistered && s'.syncDependents == s.syncDependents
    && s'.heap == s.heap[t := s.heap[t].(imp := Some(s.heap[t].imp.value.(running := false)))]
    && s'.calls == s.calls - {t}
    && s'.stacks == s.stacks[f := Below(below, frame.keep, t)]
    && s'.active == SetActive(s.active, f, frame.previous)
  }

  lemma TopIndex(s: State, f: Fiber)
    requires Top(s, f).Some?
    ensures var n := |Stack(s, f)| - 1; n >= 0 && Top(s, f).value == Stack(s, f)[n]
  {
  }

  lemma PopsStack(s: State, s': State, f: Fiber, t: Addr)
    requires OnTop(s, f, t) && Pops(s, s', f, t)
    ensures forall g :: g != f ==> Stack(s', g) == Stack(s, g)
    ensures var n := |Stack(s, f)| - 1;
            && n <= |Stack(s', f)| <= n + 1 && Stack(s', f)[..n] == Stack(s, f)[..n]
            && (Top(s, f).value.keep <==> |Stack(s', f)| == n + 1)
            && (Top(s, f).value.keep ==> Stack(s', f)[n] == Tail(t))
  {
  }

  lemma PopShape(s: State, s': State, f: Fiber, t: Addr)
    requires OnTop(s, f, t) && Pops(s, s', f, t) && Shape(s, {})
    ensures Shape(s', if s.heap[t].Deleted() then {t} else {})
  {
    assert ShapeAt(s, {}, t);
    forall a | a in s'.heap
      ensures ShapeAt(s', if s.heap[t].Deleted() then {t} else {}, a)
    {
      assert ShapeAt(s, {}, a);
    }
  }

  lemma PopHeld(s: State, s': State, f: Fiber, t: Addr)
    requires OnTop(s, f, t) && Pops(s, s', f, t) && HeldOk(s) && s.calls[t].called
    ensures HeldOk(s')
  {
    forall a
      ensures Holds(s', a) == Holds(s, a)
    {
    }
    hide Holds;
  }

  lemma PopKeep(s: State, s': State, f: Fiber, t: Addr)
    requires OnTop(s, f, t) && Pops(s, s', f, t) && Shape(s, {}) && KeepOk(s)
    ensures KeepOk(s')
  {
    PopsStack(s, s', f, t);
    TopIndex(s, f);
    assert ShapeAt(s, {}, t);
    forall a, g, i
      ensures Keeps(s', g, i, a) <==> Keeps(s, g, i, a)
    {
      if g == f && 0 <= i < |Stack(s, f)| - 1 {
        assert Stack(s', f)[i] == Stack(s', f)[..|Stack(s, f)| - 1][i];
        assert Stack(s, f)[i] == Stack(s, f)[..|Stack(s, f)| - 1][i];
      }
    }
    hide Keeps;
  }

  lemma PopStacks(s: State, s': State, f: Fiber, t: Addr)
    requires OnTop(s, f, t) && Pops(s, s', f, t) && StacksOk(s)
    ensures StacksOk(s')
  {
    PopsStack(s, s', f, t);
    TopIndex(s, f);
    var n := |Stack(s, f)| - 1;
    assert ExecAt(s, f, n);
    var below := Stack(s, f)[..n];
    CurrentPush(below, Tail(t));
    assert Stack(s', f) == below || Stack(s', f) == below + [Tail(t)];
    hide Current, Pops;
    forall g
      ensures CurrentTask(s', g) == Current(Stack(s', g))
    {
      if g != f {
        assert CurrentTask(s', g) == CurrentTask(s, g) by {
          PopsActive(s, s', f, t, g);
        }
      } else {
        PopsActive(s, s', f, t, f);
      }
    }
    forall g, i: int | 0 <= i < |Stack(s', g)| && Stack(s', g)[i].Exec?
      ensures ExecAt(s', g, i)
    {
      PopExec(s, s', f, t, g, i);
    }
    forall a | a in s'.calls
      ensures var c := s'.calls[a];
              0 <= c.depth < |Stack(s', c.fiber)| && Stack(s', c.fiber)[c.depth].Exec? && Stack(s', c.fiber)[c.depth].task == a
    {
      PopCall(s, s', f, t, a);
    }
  }

  lemma PopsActive(s: State, s': State, f: Fiber, t: Addr, g: Fiber)
    requires OnTop(s, f, t) && Pops(s, s', f, t)
    ensures CurrentTask(s', g) == if g == f then Top(s, f).value.previous else CurrentTask(s, g)
  {
  }

  lemma PopExec(s: State, s': State, f: Fiber, t: Addr, g: Fiber, i: int)
    requires OnTop(s, f, t) && Pops(s, s', f, t) && StacksOk(s)
    requires 0 <= i < |Stack(s', g)| && Stack(s', g)[i].Exec?
    ensures ExecAt(s', g, i)
  {
    hide Current;
    PopsStack(s, s', f, t);
    TopIndex(s, f);
    var n := |Stack(s, f)| - 1;
    assert ExecAt(s, f, n);
    if g == f {
      assert i < n;
      assert Stack(s', f)[i] == Stack(s', f)[..n][i] == Stack(s, f)[..n][i] == Stack(s, f)[i];
      assert Stack(s', f)[..i] == Stack(s', f)[..n][..i] == Stack(s, f)[..n][..i] == Stack(s, f)[..i];
    }
    assert ExecAt(s, g, i);
    assert Stack(s, g)[i].task != t;
  }

  lemma PopCall(s: State, s': State, f: Fiber, t: Addr, a: Addr)
    requires OnTop(s, f, t) && Pops(s, s', f, t) && StacksOk(s) && a in s'.calls
    ensures var c := s'.calls[a];
            0 <= c.depth < |Stack(s', c.fiber)| && Stack(s', c.fiber)[c.depth].Exec? && Stack(s', c.fiber)[c.depth].task == a
  {
    hide Current;
    PopsStack(s, s', f, t);
    TopIndex(s, f);
    var n := |Stack(s, f)| - 1;
    var c := s.calls[a];
    if c.fiber == f {
      assert c.depth != n;
      assert Stack(s', f)[c.depth] == Stack(s', f)[..n][c.depth] == Stack(s, f)[..n][c.depth] == Stack(s, f)[c.depth];
    }
  }

  lemma PopWaits(s: State, s': State, f: Fiber, t: Addr)
    requires OnTop(s, f, t) && Pops(s, s', f, t) && WaitsOk(s) && Shape(s, {})
    ensures WaitsOk(s')
  {
    assert ShapeAt(s, {}, t);
    hide Shape;
  }

  lemma PopProgress(s: State, s': State, f: Fiber, t: Addr)
    requires OnTop(s, f, t) && Pops(s, s', f, t) && ProgressOk(s, {})
    ensures ProgressOk(s', {})
  {
    PopLoops(s, s', f, t);
    hide InLoop, Resolving;
    forall a | a in s'.heap && s'.heap[a].Closure().Some?
      ensures ProgressAt(s', a)
    {
      assert ProgressAt(s, a);
    }
  }

  lemma PopLoops(s: State, s': State, f: Fiber, t: Addr)
    requires OnTop(s, f, t) && Pops(s, s', f, t)
    ensures forall d, a :: InLoop(s, d, a) ==> InLoop(s', d, a)
    ensures forall d :: Resolving(s, d) ==> Resolving(s', d)
  {
    PopsStack(s, s', f, t);
    TopIndex(s, f);
    var n := |Stack(s, f)| - 1;
    forall g, i: int | 0 <= i < |Stack(s, g)| && Stack(s, g)[i].Resolve?
      ensures i < |Stack(s', g)| && Stack(s', g)[i] == Stack(s, g)[i]
    {
      if g == f {
        assert i < n;
        assert Stack(s', f)[..n][i] == Stack(s, f)[..n][i];
      }
    }
    hide Pops, Top;
    forall d, a | InLoop(s, d, a)
      ensures InLoop(s', d, a)
    {
      var g, i :| 0 <= i < |Stack(s, g)| && LoopAt(s, g, i, d, a);
      assert LoopAt(s', g, i, d, a);
    }
    forall d | Resolving(s, d)
      ensures Resolving(s', d)
    {
      var g, i :| 0 <= i < |Stack(s, g)| && ResolvesAt(s, g, i, d);
      assert ResolvesAt(s', g, i, d);
    }
  }

  lemma PopHistory(s: State, s': State, f: Fiber, t: Addr)
    requires OnTop(s, f, t) && Pops(s, s', f, t) && HistoryOk(s)
    ensures HistoryOk(s')
  {
    PopsStack(s, s', f, t);
    TopIndex(s, f);
    var n := |Stack(s, f)| - 1;
    forall g, i: int | 0 <= i < |Stack(s', g)|
      ensures FastAt(s', Stack(s', g)[i])
    {
      if g == f && i < n {
        assert Stack(s', f)[i] == Stack(s', f)[..n][i] == Stack(s, f)[..n][i] == Stack(s, f)[i];
      }
      if g != f || i < n {
        assert FastAt(s, Stack(s, g)[i]);
      }
    }
    forall u: Uid | u in s'.final
      ensures u in s'.origin && Equation(s', u)
    {
      assert Equation(s, u);
    }
  }

  lemma PopMeaning(s: State, s': State, f: Fiber, t: Addr, loose: Loose)
    requires OnTop(s, f, t) && Pops(s, s', f, t) && Shape(s, {}) && HeldOk(s) && MeaningOk(s, loose)
    requires loose.Settling? || (loose.Rebinding? && s.calls[t].closure.BindFn? && s.calls[t].closure.fn == loose.fn)
    requires loose.task == t
    ensures MeaningOk(s', loose)
  {
    forall a | a in s.heap && a != t
      ensures SameTask(s, s', a) && (Needs(s, a).Some? ==> NeededAt(s, s', Needs(s, a).value))
    {
      assert ShapeAt(s, {}, a);
      assert Holds(s, a) == Needs(s, a);
    }
    assert ShapeAt(s, {}, t);
    assert Work(s, t).Some? && WorkAt(s, loose, t);
    forall u | u in s'.heap[t].standsFor
      ensures MeansAt(s', loose, t, u)
    {
      assert MeansAt(s, loose, t, u);
    }
    hide Shape, HeldOk;
    MeaningExcept(s, s', loose, loose, t);
  }

  lemma PopInv(s: State, s': State, f: Fiber, t: Addr, loose: Loose)
    requires OnTop(s, f, t) && Pops(s, s', f, t) && s.calls[t].called
    requires Inv(s, Slack({}, {}, loose)) && loose.Firm? == false && loose.task == t
    requires loose.Rebinding? ==> s.calls[t].closure.BindFn? && s.calls[t].closure.fn == loose.fn
    ensures Inv(s', Slack(if s.heap[t].Deleted() then {t} else {}, {}, loose))
  {
    hide Shape, HeldOk, KeepOk, StacksOk, WaitsOk, ProgressOk, HistoryOk, MeaningOk;
    PopShape(s, s', f, t);
    PopHeld(s, s', f, t);
    PopKeep(s, s', f, t);
    PopStacks(s, s', f, t);
    PopWaits(s, s', f, t);
    PopProgress(s, s', f, t);
    PopHistory(s, s', f, t);
    PopMeaning(s, s', f, t, loose);
  }
}
