/** The loop of resolve_task, and frames that end. */
module TaskLoops {
  import opened Wrappers
  import opened TaskMachine
  import opened TaskInvariant
  import opened TaskFrames
  import opened TaskPreserve

  // The top frame of `f`, not an invocation, goes or is replaced by another such frame.
  ghost predicate Swaps(s: State, s': State, f: Fiber, frame: Option<StackFrame>) {
    && Top(s, f).Some? && !Top(s, f).value.Exec?
    && (frame.Some? ==> !frame.value.Exec? && !frame.value.Tail?)
    && s'.active == s.active && s'.calls == s.calls
    && var below := Stack(s, f)[..|Stack(s, f)| - 1];
    && s'.stacks == s.stacks[f := if frame.Some? then below + [frame.value] else below]
  }

  lemma SwapsStack(s: State, s': State, f: Fiber, frame: Option<StackFrame>)
    requires Swaps(s, s', f, frame)
    ensures forall g :: g != f ==> Stack(s', g) == Stack(s, g)
    ensures var n := |Stack(s, f)| - 1;
            && n >= 0 && Top(s, f).value == Stack(s, f)[n]
            && n <= |Stack(s', f)| <= n + 1 && Stack(s', f)[..n] == Stack(s, f)[..n]
            && (frame.Some? <==> |Stack(s', f)| == n + 1)
            && (frame.Some? ==> Stack(s', f)[n] == frame.value)
    ensures forall g, i: int :: 0 <= i < |Stack(s, g)| && (g == f ==> i < |Stack(s, f)| - 1)
              ==> i < |Stack(s', g)| && Stack(s', g)[i] == Stack(s, g)[i]
    ensures forall g, i: int :: 0 <= i < |Stack(s', g)| && (g == f ==> i < |Stack(s, f)| - 1)
              ==> i < |Stack(s, g)| && Stack(s', g)[i] == Stack(s, g)[i]
  {
    var n := |Stack(s, f)| - 1;
    forall i: int | 0 <= i < n
      ensures i < |Stack(s', f)| && Stack(s', f)[i] == Stack(s, f)[i]
    {
      assert Stack(s', f)[..n] == Stack(s, f)[..n];
      assert Stack(s', f)[i] == Stack(s', f)[..n][i] == Stack(s, f)[..n][i];
    }
  }

  lemma SwapStacks(s: State, s': State, f: Fiber, frame: Option<StackFrame>)
    requires StacksOk(s) && Swaps(s, s', f, frame)
    requires forall t :: t in s.calls && t in s.heap && s.heap[t].imp.Some? ==> SameKeepAlive(s, s', t)
    ensures StacksOk(s')
  {
    hide Current, Swaps, SameKeepAlive;
    forall g: Fiber
      ensures CurrentTask(s', g) == Current(Stack(s', g))
    {
      SwapsActive(s, s', f, frame, g);
      SwapsStack(s, s', f, frame);
      SwapsCurrent(s, s', f, frame);
    }
    forall g, i: int | 0 <= i < |Stack(s', g)| && Stack(s', g)[i].Exec?
      ensures ExecAt(s', g, i)
    {
      SwapExecAt(s, s', f, frame, g, i);
    }
    forall t | t in s'.calls
      ensures var c := s'.calls[t];
              0 <= c.depth < |Stack(s', c.fiber)| && Stack(s', c.fiber)[c.depth].Exec? && Stack(s', c.fiber)[c.depth].task == t
    {
      SwapCallAt(s, s', f, frame, t);
    }
  }

  lemma SwapExecAt(s: State, s': State, f: Fiber, frame: Option<StackFrame>, g: Fiber, i: int)
    requires StacksOk(s) && Swaps(s, s', f, frame)
    requires forall t :: t in s.calls && t in s.heap && s.heap[t].imp.Some? ==> SameKeepAlive(s, s', t)
    requires 0 <= i < |Stack(s', g)| && Stack(s', g)[i].Exec?
    ensures ExecAt(s', g, i)
  {
    hide Current, Swaps;
    SwapsStack(s, s', f, frame);
    SwapsActive(s, s', f, frame, g);
    assert i < |Stack(s, g)| && Stack(s', g)[i] == Stack(s, g)[i];
    assert ExecAt(s, g, i);
    SwapPrefix(s, s', f, frame, g, i);
  }

  lemma SwapCallAt(s: State, s': State, f: Fiber, frame: Option<StackFrame>, t: Addr)
    requires StacksOk(s) && Swaps(s, s', f, frame) && t in s'.calls
    ensures var c := s'.calls[t];
            0 <= c.depth < |Stack(s', c.fiber)| && Stack(s', c.fiber)[c.depth].Exec? && Stack(s', c.fiber)[c.depth].task == t
  {
    hide Current, Swaps;
    SwapsStack(s, s', f, frame);
    SwapsActive(s, s', f, frame, f);
    var c := s.calls[t];
    assert c.fiber == f ==> c.depth != |Stack(s, f)| - 1;
  }

  lemma SwapsCurrent(s: State, s': State, f: Fiber, frame: Option<StackFrame>)
    requires Swaps(s, s', f, frame)
    ensures Current(Stack(s', f)) == Current(Stack(s, f))
  {
    hide Current;
    var n := |Stack(s, f)| - 1;
    var below := Stack(s, f)[..n];
    assert Stack(s, f) == below + [Top(s, f).value];
    CurrentPush(below, Top(s, f).value);
    if frame.Some? {
      CurrentPush(below, frame.value);
      assert Stack(s', f) == below + [frame.value];
    } else {
      assert Stack(s', f) == below;
    }
  }

  lemma SwapsActive(s: State, s': State, f: Fiber, frame: Option<StackFrame>, g: Fiber)
    requires Swaps(s, s', f, frame)
    ensures CurrentTask(s', g) == CurrentTask(s, g) && s'.calls == s.calls && !Top(s, f).value.Exec?
    ensures frame.Some? ==> !frame.value.Exec?
  {
  }

  lemma SwapPrefix(s: State, s': State, f: Fiber, frame: Option<StackFrame>, g: Fiber, i: int)
    requires Swaps(s, s', f, frame) && 0 <= i < |Stack(s', g)| && (g == f ==> i < |Stack(s, f)| - 1)
    ensures i < |Stack(s, g)| && Stack(s', g)[..i] == Stack(s, g)[..i]
  {
    SwapsStack(s, s', f, frame);
    if g == f {
      assert Stack(s', f)[..i] == Stack(s', f)[..|Stack(s, f)| - 1][..i];
      assert Stack(s, f)[..i] == Stack(s, f)[..|Stack(s, f)| - 1][..i];
    }
  }

  // Loops other than the topmost frame of `f` go on.
  lemma SwapLoops(s: State, s': State, f: Fiber, frame: Option<StackFrame>)
    requires Swaps(s, s', f, frame)
    ensures forall d, a :: InLoop(s, d, a) && !LoopAt(s, f, |Stack(s, f)| - 1, d, a) ==> InLoop(s', d, a)
    ensures forall d :: Resolving(s, d) && !ResolvesAt(s, f, |Stack(s, f)| - 1, d) ==> Resolving(s', d)
    ensures frame.Some? && frame.value.Resolve? ==>
              && Resolving(s', frame.value.task)
              && forall a <- frame.value.deps :: InLoop(s', frame.value.task, a)
  {
    SwapsStack(s, s', f, frame);
    var n := |Stack(s, f)| - 1;
    hide Swaps;
    forall d, a | InLoop(s, d, a) && !LoopAt(s, f, n, d, a)
      ensures InLoop(s', d, a)
    {
      var g, i :| 0 <= i < |Stack(s, g)| && LoopAt(s, g, i, d, a);
      assert LoopAt(s', g, i, d, a);
    }
    forall d | Resolving(s, d) && !ResolvesAt(s, f, n, d)
      ensures Resolving(s', d)
    {
      var g, i :| 0 <= i < |Stack(s, g)| && ResolvesAt(s, g, i, d);
      assert ResolvesAt(s', g, i, d);
    }
    if frame.Some? && frame.value.Resolve? {
      assert ResolvesAt(s', f, n, frame.value.task);
      forall a | a in frame.value.deps
        ensures InLoop(s', frame.value.task, a)
      {
        assert LoopAt(s', f, n, frame.value.task, a);
      }
    }
  }

  lemma SwapFast(s: State, s': State, f: Fiber, frame: Option<StackFrame>)
    requires HistoryOk(s) && Swaps(s, s', f, frame) && FinalKept(s, s') && (frame.Some? ==> FastAt(s', frame.value))
    ensures forall g, i: int | 0 <= i < |Stack(s', g)| :: FastAt(s', Stack(s', g)[i])
  {
    SwapsStack(s, s', f, frame);
    forall g, i: int | 0 <= i < |Stack(s', g)|
      ensures FastAt(s', Stack(s', g)[i])
    {
      if g != f || i < |Stack(s, f)| - 1 {
        assert FastAt(s, Stack(s, g)[i]);
      }
    }
  }

  lemma SwapKeeps(s: State, s': State, f: Fiber, frame: Option<StackFrame>)
    requires Swaps(s, s', f, frame) && !Top(s, f).value.Tail?
    ensures forall a, g, i :: Keeps(s', g, i, a) <==> Keeps(s, g, i, a)
  {
    SwapsStack(s, s', f, frame);
    hide Swaps;
    SwapsTop(s, s', f, frame);
    forall a, g, i
      ensures Keeps(s', g, i, a) <==> Keeps(s, g, i, a)
    {
    }
  }

  lemma SwapsTop(s: State, s': State, f: Fiber, frame: Option<StackFrame>)
    requires Swaps(s, s', f, frame)
    ensures !Top(s, f).value.Exec? && (frame.Some? ==> !frame.value.Exec? && !frame.value.Tail?)
  {
  }

  // ---- The clauses that a swap of a frame leaves alone ----

  ghost predicate SameHeap(s: State, s': State) {
    s'.heap == s.heap && s'.calls == s.calls
  }

  lemma SwapStorage(s: State, s': State, f: Fiber, frame: Option<StackFrame>)
    requires Shape(s, {}) && HeldOk(s) && KeepOk(s) && StacksOk(s) && MeaningOk(s, Firm) && HistoryOk(s)
    requires Swaps(s, s', f, frame) && !Top(s, f).value.Tail? && SameHeap(s, s') && SameRecord(s, s')
    requires frame.Some? ==> FastAt(s', frame.value)
    ensures Shape(s', {}) && HeldOk(s') && KeepOk(s') && StacksOk(s') && MeaningOk(s', Firm) && HistoryOk(s')
  {
    hide StacksOk, HistoryOk, MeaningOk;
    SwapStacks(s, s', f, frame);
    SwapKeeps(s, s', f, frame);
    SwapHistory(s, s', f, frame);
    hide Swaps, KeepOk;
    SameHeld(s, s');
    SwapKeepOk(s, s', f);
    assert MeaningOk(s', Firm) by {
      forall a | a in s'.heap
        ensures SameTask(s, s', a) && (Needs(s, a).Some? ==> Needs(s, a).value in s'.heap)
      {
        assert ShapeAt(s, {}, a);
        assert Holds(s, a) == Needs(s, a);
      }
      hide Shape, HeldOk;
      MeaningFrame(s, s', Firm);
    }
    forall a | a in s'.heap
      ensures ShapeAt(s', {}, a)
    {
      assert ShapeAt(s, {}, a);
    }
  }

  lemma SameHeld(s: State, s': State)
    requires HeldOk(s) && SameHeap(s, s')
    ensures HeldOk(s')
  {
    forall a
      ensures Holds(s', a) == Holds(s, a)
    {
    }
    hide Holds;
  }

  lemma SwapKeepOk(s: State, s': State, f: Fiber)
    requires KeepOk(s) && SameHeap(s, s') && forall a, g, i :: Keeps(s', g, i, a) <==> Keeps(s, g, i, a)
    ensures KeepOk(s')
  {
    hide Keeps;
  }

  lemma SwapHistory(s: State, s': State, f: Fiber, frame: Option<StackFrame>)
    requires HistoryOk(s) && Swaps(s, s', f, frame) && SameRecord(s, s') && (frame.Some? ==> FastAt(s', frame.value))
    ensures HistoryOk(s')
  {
    SwapFast(s, s', f, frame);
    hide Swaps;
    forall u: Uid | u in s'.final
      ensures u in s'.origin && Equation(s', u)
    {
      assert Equation(s, u);
    }
  }

  // ---- lasm_task_resolve, after the loop ----

  predicate Wakes(s: State, s': State, t: Addr) {
    && s'.queued.Keys == s.queued.Keys
    && (forall a :: a in s.queued ==> s'.queued[a] == if s.queued[a] == Some(t) then None else s.queued[a])
    && s'.syncRegistered == s.syncRegistered && s'.syncDependents == s.syncDependents
  }

  lemma EndInv(s: State, s': State, f: Fiber)
    requires Inv(s, Tight) && Swaps(s, s', f, None) && SameHeap(s, s') && SameRecord(s, s')
    requires Top(s, f).value.Resolve? && Top(s, f).value.deps == [] && Wakes(s, s', Top(s, f).value.task)
    ensures Inv(s', Tight)
  {
    hide Shape, HeldOk, KeepOk, StacksOk, WaitsOk, ProgressOk, HistoryOk, MeaningOk;
    SwapStorage(s, s', f, None);
    assert WaitsOk(s') by { EndWaits(s, s', Top(s, f).value.task); }
    EndProgress(s, s', f);
  }

  lemma EndWaits(s: State, s': State, t: Addr)
    requires WaitsOk(s) && SameHeap(s, s') && Wakes(s, s', t)
    ensures WaitsOk(s')
  {
    forall a | a in s'.queued
      ensures Idle(s', a) && !s'.heap[a].imp.value.sync && (s'.queued[a].Some? ==> s'.heap[a].Held() == s'.queued[a])
    {
      assert a in s.queued;
    }
  }

  lemma EndProgress(s: State, s': State, f: Fiber)
    requires ProgressOk(s, {}) && Swaps(s, s', f, None) && SameHeap(s, s')
    requires Top(s, f).value.Resolve? && Top(s, f).value.deps == [] && Wakes(s, s', Top(s, f).value.task)
    ensures ProgressOk(s', {})
  {
    var t := Top(s, f).value.task;
    var n := |Stack(s, f)| - 1;
    SwapLoops(s, s', f, None);
    SwapsStack(s, s', f, None);
    forall d, a | InLoop(s, d, a)
      ensures InLoop(s', d, a)
    {
      assert !LoopAt(s, f, n, d, a);
    }
    forall d | Resolving(s, d) && d != t
      ensures Resolving(s', d)
    {
      assert !ResolvesAt(s, f, n, d);
    }
    hide Swaps, InLoop, Resolving;
    forall a | a in s'.heap && s'.heap[a].Closure().Some?
      ensures ProgressAt(s', a)
    {
      assert ProgressAt(s, a);
      assert a in s.queued ==> a in s'.queued;
    }
  }

  // ---- One turn of the loop ----

  // The next entry of the loop, and what is left of the frame.
  predicate Turns(s: State, s': State, f: Fiber) {
    && Top(s, f).Some? && Top(s, f).value.Resolve? && Top(s, f).value.deps != []
    && var frame := Top(s, f).value;
    && s'.queued == s.queued && s'.syncDependents == s.syncDependents
    && if Hits(s, frame)
       then s'.syncRegistered == s.syncRegistered - {frame.deps[0]}
       else s'.syncRegistered == s.syncRegistered
  }

  function Rest(s: State, f: Fiber): StackFrame
    requires Top(s, f).Some? && Top(s, f).value.Resolve? && Top(s, f).value.deps != []
  {
    Top(s, f).value.(deps := Top(s, f).value.deps[1..])
  }

  lemma TurnInv(s: State, s': State, f: Fiber)
    requires Inv(s, Tight) && Turns(s, s', f) && Swaps(s, s', f, Some(Rest(s, f))) && SameHeap(s, s') && SameRecord(s, s')
    ensures Inv(s', Slack({}, if Hits(s, Top(s, f).value) then {Top(s, f).value.deps[0]} else {}, Firm))
    ensures Hits(s, Top(s, f).value) ==> CanBegin(s', Top(s, f).value.deps[0])
  {
    hide Shape, HeldOk, KeepOk, StacksOk, WaitsOk, ProgressOk, HistoryOk, MeaningOk, Swaps;
    SwapStorage(s, s', f, Some(Rest(s, f)));
    TurnWaits(s, s', f);
    TurnProgress(s, s', f);
  }

  lemma TurnWaits(s: State, s': State, f: Fiber)
    requires WaitsOk(s) && Turns(s, s', f) && SameHeap(s, s')
    ensures WaitsOk(s')
    ensures Hits(s, Top(s, f).value) ==> CanBegin(s', Top(s, f).value.deps[0])
  {
  }

  lemma TurnProgress(s: State, s': State, f: Fiber)
    requires WaitsOk(s) && ProgressOk(s, {}) && Turns(s, s', f) && Swaps(s, s', f, Some(Rest(s, f))) && SameHeap(s, s')
    ensures ProgressOk(s', if Hits(s, Top(s, f).value) then {Top(s, f).value.deps[0]} else {})
  {
    var frame := Top(s, f).value;
    var n := |Stack(s, f)| - 1;
    SwapLoops(s, s', f, Some(Rest(s, f)));
    SwapsStack(s, s', f, Some(Rest(s, f)));
    forall d, a | InLoop(s, d, a) && (d != frame.task || a != frame.deps[0])
      ensures InLoop(s', d, a)
    {
      if LoopAt(s, f, n, d, a) {
        assert a in frame.deps[1..];
      }
    }
    forall d | Resolving(s, d)
      ensures Resolving(s', d)
    {
      assert ResolvesAt(s, f, n, d) ==> d == frame.task;
    }
    hide Swaps, InLoop, Resolving, WaitsOk;
    forall a | a in s'.heap && s'.heap[a].Closure().Some? && a !in (if Hits(s, Top(s, f).value) then {frame.deps[0]} else {})
      ensures ProgressAt(s', a)
    {
      assert ProgressAt(s, a);
    }
  }
}
