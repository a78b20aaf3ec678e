/** When does a task start only after its dependency has a value?

    A task can be freed inside its own resolve_task loop, when a dependent drops the
    last reference. If the allocator hands its address out again before the loop
    ends, lasm_task_resolve marks what waits for the new task as ready: that work
    starts early, and waits inside lean_task_get instead. That happens exactly at the
    turns of the loop that `Early` describes. Runs whose allocations avoid the addresses
    being resolved have none. */
module TaskReuse {
  import opened Wrappers
  import opened TaskMachine
  import opened TaskInvariant
  import opened TaskFinish
  import opened TaskReturns
  import opened TaskRuns
  import opened TaskSteps
  import opened TaskTokens
  import TaskNested
  import opened TaskTheorems
  import opened TaskDependents

  // `d` has its value, unless it is gone.
  predicate Valued(s: State, d: Addr) {
    d in s.heap ==> s.heap[d].value.Some?
  }

  // Every closure that lasm_task_execute took finds its source resolved: lean_task_get
  // does not wait in it.
  ghost predicate StartsResolved(s: State) {
    forall t :: t in s.calls && !s.calls[t].called && !s.calls[t].closure.Call? ==> Valued(s, s.calls[t].closure.src)
  }

  predicate ReadyAt(s: State, a: Addr) {
    a in s.queued && s.queued[a].None? && a in s.heap && s.heap[a].Held().Some? ==> Valued(s, s.heap[a].Held().value)
  }

  ghost predicate Prompt(s: State, tidy: bool) {
    && StartsResolved(s)
    && (forall a :: ReadyAt(s, a))
    && (tidy ==> forall d :: Resolving(s, d) ==> Valued(s, d))
  }

  // A turn of the loop of resolve_task acts on a live task that has no value, because the task
  // that was resolved is gone and its address was handed out again.
  predicate Early(s: State, f: Fiber) {
    && Top(s, f).Some? && Top(s, f).value.Resolve?
    && var frame := Top(s, f).value;
    && frame.task in s.heap && s.heap[frame.task].value.None?
    && if frame.deps == [] then exists a :: a in s.queued && s.queued[a] == Some(frame.task) else Hits(s, frame)
  }

  // The address that an action allocates, if any.
  function Allocates(s: State, act: Action): Option<Addr> {
    match act
    case SpawnTask(a, _, _) => Some(a)
    case PureTask(a, _, _) => Some(a)
    case Then(_, a, _, _, src, _, sync, _) => if sync && src in s.heap && s.heap[src].value.Some? then None else Some(a)
    case ReturnValue(f, _, a, _) => if Top(s, f).Some? && Top(s, f).value.FastMap? then Some(a) else None
    case NewPromise(a) => Some(a)
    case _ => None
  }

  // The allocator does not reuse the address of a task whose resolution is in progress.
  ghost predicate Careful(s: State, act: Action) {
    Allocates(s, act).Some? ==> !Resolving(s, Allocates(s, act).value)
  }

  // ---- The pieces of a step ----

  lemma SameStackResolves(s: State, s': State)
    requires s'.stacks == s.stacks
    ensures forall d :: Resolving(s', d) <==> Resolving(s, d)
  {
    forall d
      ensures Resolving(s', d) <==> Resolving(s, d)
    {
      if Resolving(s, d) {
        var g, i :| 0 <= i < |Stack(s, g)| && ResolvesAt(s, g, i, d);
        assert ResolvesAt(s', g, i, d);
      }
      if Resolving(s', d) {
        var g, i :| 0 <= i < |Stack(s', g)| && ResolvesAt(s', g, i, d);
        assert ResolvesAt(s, g, i, d);
      }
    }
  }

  // What is left is as it was.
  ghost predicate Fewer(s: State, s': State) {
    && s'.stacks == s.stacks && s'.calls == s.calls
    && (forall a :: a in s'.heap ==> a in s.heap && s'.heap[a].value == s.heap[a].value && s'.heap[a].Held() == s.heap[a].Held())
    && (forall a :: a in s'.queued ==> a in s.queued && s'.queued[a] == s.queued[a])
  }

  lemma FewerPrompt(s: State, s': State, tidy: bool)
    requires Prompt(s, tidy) && Fewer(s, s')
    ensures Prompt(s', tidy)
  {
    SameStackResolves(s, s');
    hide Resolving;
    forall a
      ensures ReadyAt(s', a)
    {
      assert ReadyAt(s, a);
    }
  }

  lemma FreeFewer(s: State, t: Addr)
    requires t in s.heap
    ensures Fewer(s, Free(Forget(s, t), t))
  {
    assert Free(Forget(s, t), t).heap == FreeTask(s.heap, t);
    hide Free;
  }

  lemma MarkFewer(s: State, t: Addr)
    requires t in s.heap && s.heap[t].Running()
    ensures Fewer(s, Deactivate(s, t))
  {
  }

  lemma {:induction false} DeactivatePrompt(s: State, t: Addr, tidy: bool)
    requires t in s.heap && Prompt(s, tidy)
    ensures Prompt(Deactivate(s, t), tidy)
    decreases |s.heap|, 0
  {
    hide Prompt;
    if s.heap[t].Running() {
      MarkFewer(s, t);
      hide Deactivate, Fewer;
      FewerPrompt(s, Deactivate(s, t), tidy);
    } else {
      FreeFewer(s, t);
      FreeKeys(s, t);
      hide Free, Fewer;
      var s2 := Free(Forget(s, t), t);
      FewerPrompt(s, s2, tidy);
      var d := s.heap[t].Held();
      if d.Some? && d.value in s2.heap {
        CollectPrompt(s2, d.value, tidy);
        assert Deactivate(s, t) == Collect(s2, d.value);
      }
    }
  }

  lemma {:induction false} CollectPrompt(s: State, t: Addr, tidy: bool)
    requires t in s.heap && Prompt(s, tidy)
    ensures Prompt(Collect(s, t), tidy)
    decreases |s.heap|, 1
  {
    hide Prompt;
    if s.heap[t].owners == {} && !s.heap[t].Deleted() {
      DeactivatePrompt(s, t, tidy);
    }
  }

  lemma ReleasePrompt(s: State, t: Addr, o: Owner, tidy: bool)
    requires t in s.heap && Prompt(s, tidy)
    ensures Prompt(Release(s, t, o), tidy)
  {
    assert Fewer(s, RemoveOwner(s, t, o));
    hide Prompt;
    FewerPrompt(s, RemoveOwner(s, t, o), tidy);
    CollectPrompt(RemoveOwner(s, t, o), t, tidy);
  }

  // A frame is pushed or the stack of `f` becomes a prefix: no new resolution but of `d`.
  ghost predicate ResolvesLess(s: State, s': State, d: Option<Addr>) {
    forall e :: Resolving(s', e) ==> Resolving(s, e) || d == Some(e)
  }

  lemma StackResolves(s: State, s': State, f: Fiber, frame: Option<StackFrame>)
    requires forall g :: g != f ==> Stack(s', g) == Stack(s, g)
    requires exists n :: 0 <= n <= |Stack(s, f)| && Stack(s', f) == Stack(s, f)[..n] + (if frame.Some? then [frame.value] else [])
    ensures ResolvesLess(s, s', if frame.Some? && frame.value.Resolve? then Some(frame.value.task) else None)
  {
    var n :| 0 <= n <= |Stack(s, f)| && Stack(s', f) == Stack(s, f)[..n] + (if frame.Some? then [frame.value] else []);
    forall e | Resolving(s', e)
      ensures Resolving(s, e) || (frame.Some? && frame.value.Resolve? && frame.value.task == e)
    {
      var g, i :| 0 <= i < |Stack(s', g)| && ResolvesAt(s', g, i, e);
      if g != f || i < n {
        assert Stack(s', g)[i] == Stack(s, g)[i];
        assert ResolvesAt(s, g, i, e);
      }
    }
  }

  lemma BeginPrompt(s: State, f: Fiber, t: Addr, tidy: bool)
    requires t in s.heap && s.heap[t].Closure().Some? && Prompt(s, tidy)
    requires s.heap[t].Held().Some? ==> Valued(s, s.heap[t].Held().value)
    ensures Prompt(Begin(s, f, t), tidy)
  {
    var s' := Begin(s, f, t);
    var frame := Exec(t, s.heap[t].imp.value.keepAlive, CurrentTask(s, f));
    assert Stack(s', f) == Stack(s, f)[..|Stack(s, f)|] + [frame];
    StackResolves(s, s', f, Some(frame));
    assert forall a :: a in s'.heap <==> a in s.heap;
    assert forall a :: a in s.heap ==> s'.heap[a].value == s.heap[a].value && (a != t ==> s'.heap[a] == s.heap[a]);
    assert s'.heap[t].Held().None?;
    hide Resolving;
    forall a
      ensures ReadyAt(s', a)
    {
      assert ReadyAt(s, a);
    }
  }

  lemma EnqueuePrompt(s: State, f: Fiber, t: Addr, tidy: bool)
    requires t in s.heap && s.heap[t].Closure().Some? && Prompt(s, tidy) && s.heap[t].imp.value.nextDep == s.heap[t].Held()
    ensures Prompt(Enqueue(s, f, t), tidy)
  {
    var d := s.heap[t].Held();
    if s.heap[t].imp.value.sync && !Unresolved(s, d) && !s.heap[t].Running() {
      BeginPrompt(s, f, t, tidy);
      assert Enqueue(s, f, t) == Begin(s, f, t);
    } else {
      hide Begin;
      var s' := Enqueue(s, f, t);
      assert s'.heap == s.heap && s'.stacks == s.stacks && s'.calls == s.calls;
      SameStackResolves(s, s');
      hide Resolving, Enqueue;
      EnqueueReady(s, s', f, t);
    }
  }

  lemma EnqueueReady(s: State, s': State, f: Fiber, t: Addr)
    requires t in s.heap && s.heap[t].Closure().Some? && Prompt(s, false) && s.heap[t].imp.value.nextDep == s.heap[t].Held()
    requires s' == Enqueue(s, f, t) && s'.heap == s.heap
    requires s.heap[t].imp.value.sync ==> Unresolved(s, s.heap[t].Held()) || s.heap[t].Running()
    ensures forall a :: ReadyAt(s', a)
  {
    hide Begin;
    forall a
      ensures ReadyAt(s', a)
    {
      assert ReadyAt(s, a);
    }
  }

  // schedule_task, for a task with a new closure.
  lemma SchedulePrompt(s: State, f: Fiber, t: Addr, d: Option<Addr>, tidy: bool)
    requires t in s.heap && s.heap[t].Closure().Some? && s.heap[t].Held() == d && t !in s.queued && Prompt(s, tidy)
    ensures Prompt(Schedule(s, f, t, d), tidy)
  {
    var s1 := s.(heap := s.heap[t := s.heap[t].KeepScheduled(d)]);
    assert s1.heap[t].Closure() == s.heap[t].Closure() && s1.heap[t].imp.value.nextDep == d && s1.heap[t].value == s.heap[t].value;
    SameStackResolves(s, s1);
    assert Prompt(s1, tidy) by {
      hide Resolving, Task.KeepScheduled, Enqueue;
      forall a
        ensures ReadyAt(s1, a)
      {
        assert ReadyAt(s, a);
      }
    }
    hide Prompt, Enqueue, Resolving;
    EnqueuePrompt(s1, f, t, tidy);
  }

  lemma EndPrompt(s: State, f: Fiber, t: Addr, tidy: bool)
    requires OnTop(s, f, t) && Prompt(s, tidy)
    ensures OnTop(s, f, t) && Prompt(EndPush(s, f, t), tidy) && Prompt(EndCall(s, f, t), tidy)
  {
    var e, i := EndCall(s, f, t), EndPush(s, f, t);
    var n := |Stack(s, f)| - 1;
    assert Stack(e, f) == Stack(s, f)[..n] + [];
    StackResolves(s, e, f, None);
    if Top(s, f).value.keep {
      assert Stack(i, f) == Stack(s, f)[..n] + [Tail(t)];
      StackResolves(s, i, f, Some(Tail(t)));
    } else {
      assert Stack(i, f) == Stack(s, f)[..n] + [];
      StackResolves(s, i, f, None);
    }
    EndTask(s, f, t);
    hide EndCall, EndPush, Resolving;
    forall a
      ensures ReadyAt(e, a) && ReadyAt(i, a)
    {
      assert ReadyAt(s, a);
    }
  }

  lemma EndTask(s: State, f: Fiber, t: Addr)
    requires OnTop(s, f, t)
    ensures forall x | x == EndCall(s, f, t) || x == EndPush(s, f, t) ::
              && x.heap == s.heap[t := s.heap[t].(imp := Some(s.heap[t].imp.value.(running := false)))]
              && x.queued == s.queued && x.calls == s.calls - {t}
  {
  }

  lemma SettlePrompt(s: State, f: Fiber, t: Addr, v: Value, tidy: bool)
    requires t in s.heap && s.heap[t].Closure().None? && Prompt(s, tidy)
    ensures Prompt(Settle(s, f, t, v), tidy)
  {
    var s' := Settle(s, f, t, v);
    var frame := Resolve(t, s.heap[t].uid, Dependents(s, t));
    assert Stack(s', f) == Stack(s, f)[..|Stack(s, f)|] + [frame];
    StackResolves(s, s', f, Some(frame));
    assert s'.heap == s.heap[t := s.heap[t].(value := Some(v), imp := None)] && s'.queued == s.queued && s'.calls == s.calls;
    hide Resolving, Settle;
    forall a
      ensures ReadyAt(s', a)
    {
      assert ReadyAt(s, a);
    }
  }

  lemma FinishValuePrompt(s: State, f: Fiber, t: Addr, v: Value, tidy: bool)
    requires OnTop(s, f, t) && s.heap[t].Closure().None? && s.heap[t].value.None? && Prompt(s, tidy)
    ensures Prompt(Finish(s, f, t, Some(v)), tidy)
  {
    EndPrompt(s, f, t, tidy);
    EndTask(s, f, t);
    var e, i := EndCall(s, f, t), EndPush(s, f, t);
    hide Prompt, EndCall, EndPush;
    if s.heap[t].Deleted() {
      DeactivatePrompt(e, t, tidy);
      hide Deactivate;
    } else {
      FinishSettles(s, f, t, v);
      hide Finish;
      SettlePrompt(i, f, t, v, tidy);
    }
  }

  // The end of a bind that goes on: its closure has been scheduled, or is now.
  lemma FinishBindPrompt(s: State, f: Fiber, t: Addr, tidy: bool)
    requires OnTop(s, f, t) && s.heap[t].Closure().Some? && s.heap[t].imp.value.nextDep == s.heap[t].Held() && Prompt(s, tidy)
    ensures Prompt(Finish(s, f, t, None), tidy)
  {
    EndPrompt(s, f, t, tidy);
    EndTask(s, f, t);
    var e, i := EndCall(s, f, t), EndPush(s, f, t);
    hide Prompt, EndCall;
    if s.heap[t].Deleted() {
      DeactivatePrompt(e, t, tidy);
      hide Deactivate, EndPush;
    } else {
      assert i == LeaveTail(e, f, t, Top(s, f).value.keep);
      hide EndPush;
      EnqueuePrompt(i, f, t, tidy);
      hide Enqueue;
    }
  }

  lemma TakePrompt(s: State, t: Addr, tidy: bool)
    requires t in s.calls && !s.calls[t].closure.Call? && s.calls[t].closure.src in s.heap && Prompt(s, tidy)
    ensures Prompt(TakeSource(s, t), tidy)
  {
    var s' := TakeSource(s, t);
    SameStackResolves(s, s');
    hide Resolving;
    forall a
      ensures ReadyAt(s', a)
    {
      assert ReadyAt(s, a);
    }
  }

  // The history does not matter.
  lemma RecordPrompt(s: State, s': State, tidy: bool)
    requires Prompt(s, tidy) && s'.heap == s.heap && s'.stacks == s.stacks && s'.calls == s.calls && s'.queued == s.queued
    ensures Prompt(s', tidy)
  {
    SameStackResolves(s, s');
    hide Resolving;
    forall a
      ensures ReadyAt(s', a)
    {
      assert ReadyAt(s, a);
    }
  }

  // A running task gets a closure: the heap may lose a task, and `t` is not queued.
  ghost predicate Rebound(s: State, y: State, t: Addr) {
    && t in y.heap && t !in s.queued
    && y.stacks == s.stacks && y.calls == s.calls
    && (forall a :: a in y.heap ==> a in s.heap && y.heap[a].value == s.heap[a].value)
    && (forall a :: a in y.heap && a != t ==> y.heap[a].Held() == s.heap[a].Held())
    && (forall a :: a in y.queued ==> a in s.queued && y.queued[a] == s.queued[a])
  }

  lemma ReboundPrompt(s: State, y: State, t: Addr, tidy: bool)
    requires Prompt(s, tidy) && Rebound(s, y, t)
    ensures Prompt(y, tidy)
  {
    SameStackResolves(s, y);
    hide Resolving;
    forall a
      ensures ReadyAt(y, a)
    {
      assert ReadyAt(s, a);
    }
  }

  // ---- The steps ----

  lemma GetPrompt(s: State, f: Fiber, tidy: bool)
    requires Inv(s, Tight) && Prompt(s, tidy) && Enabled(s, Get(f))
    ensures Prompt(NextGet(s, f), tidy)
  {
    CanGet(s, f);
    CanReturn(s, f);
    hide Inv, Prompt, GetResult, GetArgument;
    var t := Top(s, f).value.task;
    TakePrompt(s, t, tidy);
    if s.calls[t].closure.BindResult? {
      GetResultPrompt(s, f, t, tidy);
    } else {
      GetArgumentPrompt(s, t, tidy);
    }
  }

  lemma GetResultPrompt(s: State, f: Fiber, t: Addr, tidy: bool)
    requires GetsValue(s, f, t) && OnTop(s, f, t) && s.heap[t].value.None? && Prompt(TakeSource(s, t), tidy)
    ensures Prompt(GetResult(s, f, t), tidy)
  {
    hide Prompt, Collect, Finish;
    var d := s.calls[t].closure.src;
    var s1 := TakeSource(s, t);
    CollectOnlyReclaims(s1, d);
    assert StillRuns(s1, Collect(s1, d), t);
    CollectPrompt(s1, d, tidy);
    AfterCollect(s1, d, f, t);
    FinishValuePrompt(Collect(s1, d), f, t, s.heap[d].value.value, tidy);
  }

  lemma GetArgumentPrompt(s: State, t: Addr, tidy: bool)
    requires t in s.calls && (s.calls[t].closure.MapFn? || s.calls[t].closure.BindFn?)
    requires s.calls[t].closure.src in s.heap && s.heap[s.calls[t].closure.src].value.Some? && Prompt(TakeSource(s, t), tidy)
    ensures Prompt(GetArgument(s, t), tidy)
  {
    hide Prompt, Collect;
    var c := s.calls[t].closure;
    var s1 := TakeSource(s, t);
    var s2 := s1.(arg := s.arg[c.fn := s.heap[c.src].value.value], applied := s.applied + [c.fn]);
    RecordPrompt(s1, s2, tidy);
    CollectPrompt(s2, c.src, tidy);
  }

  lemma BindReturnPrompt(s: State, f: Fiber, n: Addr, k: int, tidy: bool)
    requires Inv(s, Tight) && Prompt(s, tidy) && Enabled(s, ReturnTask(f, n, k)) && Top(s, f).value.Exec?
    ensures Prompt(NextReturnTask(s, f, n, k), tidy)
  {
    hide Prompt, Finish, Fuse, Forward, BindValue, Inv;
    CanReturn(s, f);
    var t := Top(s, f).value.task;
    var s1 := BindRecord(s, t, n);
    RecordPrompt(s, s1, tidy);
    RunningUnqueued(s, t);
    if s.heap[n].value.Some? {
      BindValuePrompt(s1, f, t, n, k, tidy);
    } else if CanFuse(s1, t, n) {
      FusePrompt(s, s1, f, t, n, k, tidy);
    } else {
      ForwardPrompt(s1, f, t, n, k, tidy);
    }
  }

  lemma RunningUnqueued(s: State, t: Addr)
    requires Inv(s, Tight) && t in s.heap && s.heap[t].Running()
    ensures t !in s.queued
  {
  }

  lemma BindValuePrompt(s: State, f: Fiber, t: Addr, n: Addr, k: int, tidy: bool)
    requires ReturnsTask(s, f, t, n) && OnTop(s, f, t) && s.heap[t].value.None? && s.calls[t].called
    requires s.heap[n].value.Some? && t != n && Prompt(s, tidy)
    ensures Prompt(BindValue(s, f, t, n, k), tidy)
  {
    hide Prompt, Collect, Finish;
    var s1 := RemoveOwner(s, n, Ext(k));
    CollectOnlyReclaims(s1, n);
    assert StillRuns(s1, Collect(s1, n), t);
    ReleasePrompt(s, n, Ext(k), tidy);
    AfterCollect(s1, n, f, t);
    FinishValuePrompt(Collect(s1, n), f, t, s.heap[n].value.value, tidy);
  }

  lemma ForwardPrompt(s: State, f: Fiber, t: Addr, n: Addr, k: int, tidy: bool)
    requires OnTop(s, f, t) && s.heap[t].Running() && s.heap[t].Closure().None? && n in s.heap && t !in s.queued && Prompt(s, tidy)
    ensures t in Forward(s, f, t, n, Ext(k)).heap && Forward(s, f, t, n, Ext(k)).heap[t].Closure().Some?
    ensures Top(Forward(s, f, t, n, Ext(k)), f) == Top(s, f)
    ensures Prompt(Finish(Forward(s, f, t, n, Ext(k)), f, t, None), tidy)
  {
    var y := TaskNested.Forwarded(s, t, n, Ext(k));
    TaskNested.ForwardIs(s, f, t, n, Ext(k));
    TaskNested.ForwardedRest(s, t, n, Ext(k));
    forall a | a in s.heap
      ensures y.heap[a].value == s.heap[a].value && (a != t ==> y.heap[a].Held() == s.heap[a].Held())
    {
      TaskNested.ForwardedTask(s, t, n, Ext(k), a);
    }
    TaskNested.ForwardedTask(s, t, n, Ext(k), t);
    hide Prompt, Finish, Forward, TaskNested.Forwarded;
    ReboundPrompt(s, y, t, tidy);
    ResumePrompt(y, f, t, tidy);
  }

  lemma FusePrompt(s: State, s1: State, f: Fiber, t: Addr, n: Addr, k: int, tidy: bool)
    requires Inv(s, Tight) && OnTop(s, f, t) && s.heap[t].Running() && s.heap[t].Closure().None? && HasRef(s, n, Ext(k)) && t !in s.queued
    requires t in s.calls && s.calls[t].closure.BindFn? && s1 == BindRecord(s, t, n) && CanFuse(s1, t, n) && Prompt(s1, tidy)
    ensures t != n && t in Fuse(s1, f, t, n).heap && Fuse(s1, f, t, n).heap[t].Closure().Some?
    ensures Top(Fuse(s1, f, t, n), f) == Top(s, f)
    ensures Prompt(Finish(Fuse(s1, f, t, n), f, t, None), tidy)
  {
    hide Inv, Prompt, Finish, Fuse, TaskNested.Fused;
    var y := TaskNested.Fused(s1, t, n);
    TaskNested.FusedIsOurs(s, t, n, k);
    TaskNested.CanBeFused(s, t, n);
    TaskNested.FuseIs(s1, f, t, n);
    TaskNested.FusedRest(s1, t, n);
    forall a
      ensures a in y.heap <==> a in s1.heap && a != n
      ensures a in y.heap ==> y.heap[a].value == s1.heap[a].value && (a != t ==> y.heap[a].Held() == s1.heap[a].Held())
    {
      TaskNested.FusedTask(s1, t, n, a);
    }
    TaskNested.FusedTask(s1, t, n, t);
    ReboundPrompt(s1, y, t, tidy);
    ResumePrompt(y, f, t, tidy);
  }

  lemma ResumePrompt(y: State, f: Fiber, t: Addr, tidy: bool)
    requires Resumes(y, f, t) && OnTop(y, f, t) && y.heap[t].imp.value.nextDep == y.heap[t].Held() && Prompt(y, tidy)
    ensures Scheduling(y, f, t).heap == y.heap && Top(Scheduling(y, f, t), f) == Top(y, f)
    ensures Prompt(Finish(Scheduling(y, f, t), f, t, None), tidy)
  {
    var x := Scheduling(y, f, t);
    hide Prompt, Finish, Begin;
    assert x.heap == y.heap && x.stacks == y.stacks && x.calls == y.calls;
    assert Prompt(x, tidy) by {
      if !y.heap[t].imp.value.sync {
        EnqueuePrompt(y, f, t, tidy);
      }
    }
    hide Scheduling, Enqueue;
    FinishBindPrompt(x, f, t, tidy);
  }

  lemma ReturnValuePrompt(s: State, f: Fiber, v: Value, a: Addr, k: int, tidy: bool)
    requires Inv(s, Tight) && Prompt(s, tidy) && Enabled(s, ReturnValue(f, v, a, k)) && Top(s, f).value.Exec?
    ensures Prompt(NextReturnValue(s, f, v, a, k), tidy)
  {
    hide Inv, Prompt, Finish;
    CanReturn(s, f);
    var t := Top(s, f).value.task;
    var s1 := s.(returned := s.returned[s.calls[t].closure.fn := Val(v)]);
    RecordPrompt(s, s1, tidy);
    FinishValuePrompt(s1, f, t, v, tidy);
  }

  // The top frame of `f`, not a resolution, goes.
  lemma PopPrompt(s: State, f: Fiber, tidy: bool)
    requires Stack(s, f) != [] && Prompt(s, tidy)
    ensures Prompt(Pop(s, f), tidy)
  {
    var n := |Stack(s, f)| - 1;
    assert Stack(Pop(s, f), f) == Stack(s, f)[..n] + [];
    StackResolves(s, Pop(s, f), f, None);
    hide Resolving;
    forall a
      ensures ReadyAt(Pop(s, f), a)
    {
      assert ReadyAt(s, a);
    }
  }

  lemma PushPrompt(s: State, f: Fiber, frame: StackFrame, tidy: bool)
    requires Prompt(s, tidy) && (tidy && frame.Resolve? ==> Valued(s, frame.task))
    ensures Prompt(Push(s, f, frame), tidy)
  {
    assert Stack(Push(s, f, frame), f) == Stack(s, f)[..|Stack(s, f)|] + [frame];
    StackResolves(s, Push(s, f, frame), f, Some(frame));
    hide Resolving;
    forall a
      ensures ReadyAt(Push(s, f, frame), a)
    {
      assert ReadyAt(s, a);
    }
  }

  lemma TopResolves(s: State, f: Fiber)
    requires Top(s, f).Some? && Top(s, f).value.Resolve? && Prompt(s, true)
    ensures Valued(s, Top(s, f).value.task)
  {
    assert ResolvesAt(s, f, |Stack(s, f)| - 1, Top(s, f).value.task);
  }

  lemma LoopPrompt(s: State, f: Fiber, tidy: bool)
    requires Inv(s, Tight) && Prompt(s, tidy) && Top(s, f).Some? && Top(s, f).value.Resolve? && (tidy || !Early(s, f))
    requires forall n :: n in s.syncRegistered ==> n in s.heap && s.heap[n].Closure().Some?
    ensures Prompt(LoopTurn(s, f), tidy)
  {
    var frame := Top(s, f).value;
    if tidy {
      TopResolves(s, f);
    }
    assert Valued(s, frame.task) || !Early(s, f);
    hide Prompt, Begin, Skip, Pop, Early;
    PopPrompt(s, f, tidy);
    if frame.deps == [] {
      WokenPrompt(s, f, tidy);
    } else {
      SkipPrompt(s, f, frame, tidy);
      if Hits(s, frame) {
        var n := frame.deps[0];
        var s3 := Skip(s, f, frame).(syncRegistered := s.syncRegistered - {n});
        RecordPrompt(Skip(s, f, frame), s3, tidy);
        RegisteredHolds(s, n);
        SkipSame(s, f, frame);
        HitValued(s, f);
        hide Inv;
        BeginPrompt(s3, f, n, tidy);
      }
    }
  }

  lemma HitValued(s: State, f: Fiber)
    requires Top(s, f).Some? && Hits(s, Top(s, f).value) && (Valued(s, Top(s, f).value.task) || !Early(s, f))
    ensures Valued(s, Top(s, f).value.task)
  {
  }

  lemma RegisteredHolds(s: State, n: Addr)
    requires Inv(s, Tight) && n in s.syncRegistered
    ensures n in s.heap && s.heap[n].Held() == Some(s.syncRegistered[n])
  {
  }

  lemma SkipSame(s: State, f: Fiber, frame: StackFrame)
    requires frame.Resolve? && frame.deps != [] && Stack(s, f) != []
    ensures Skip(s, f, frame).heap == s.heap && Skip(s, f, frame).syncRegistered == s.syncRegistered
  {
  }

  lemma SkipPrompt(s: State, f: Fiber, frame: StackFrame, tidy: bool)
    requires Top(s, f) == Some(frame) && frame.Resolve? && frame.deps != [] && Prompt(Pop(s, f), tidy)
    requires tidy ==> Valued(s, frame.task)
    ensures Prompt(Skip(s, f, frame), tidy)
  {
    hide Prompt;
    PushPrompt(Pop(s, f), f, frame.(deps := frame.deps[1..]), tidy);
  }

  lemma WokenPrompt(s: State, f: Fiber, tidy: bool)
    requires Inv(s, Tight) && Top(s, f).Some? && Top(s, f).value.Resolve? && Top(s, f).value.deps == []
    requires Prompt(Pop(s, f), tidy) && (Valued(s, Top(s, f).value.task) || !Early(s, f))
    ensures Prompt(Pop(s, f).(queued := Woken(s.queued, Top(s, f).value.task)), tidy)
  {
    var t := Top(s, f).value.task;
    var s1 := Pop(s, f);
    var s' := s1.(queued := Woken(s.queued, t));
    SameStackResolves(s1, s');
    hide StacksOk, HistoryOk, MeaningOk, ProgressOk, KeepOk, HeldOk, Shape, Resolving;
    forall a
      ensures ReadyAt(s', a)
    {
      assert ReadyAt(s1, a);
    }
  }

  // A new task at a free address, and the owners of the task it holds.
  ghost predicate NewAt(s: State, s': State, a: Addr) {
    && a !in s.heap && s'.stacks == s.stacks && s'.calls == s.calls && s'.queued == s.queued
    && (forall b :: b in s'.heap <==> b == a || b in s.heap)
    && (forall b :: b in s.heap ==> s'.heap[b].value == s.heap[b].value && s'.heap[b].Held() == s.heap[b].Held())
  }

  lemma NewPrompt(s: State, s': State, a: Addr, tidy: bool)
    requires Inv(s, Tight) && Prompt(s, tidy) && NewAt(s, s', a) && (tidy ==> !Resolving(s, a))
    ensures Prompt(s', tidy)
  {
    SameStackResolves(s, s');
    hide StacksOk, HistoryOk, MeaningOk, ProgressOk, KeepOk, Resolving;
    forall b | b in s.heap
      ensures ShapeAt(s, {}, b)
    {
    }
    forall b
      ensures ReadyAt(s', b)
    {
      assert ReadyAt(s, b);
      assert b in s.queued ==> Holds(s, b) == s.heap[b].Held();
    }
    forall t | t in s'.calls && !s'.calls[t].called && !s'.calls[t].closure.Call?
      ensures Valued(s', s'.calls[t].closure.src)
    {
      assert Holds(s, t) == Some(s.calls[t].closure.src);
    }
  }

  lemma FreeUnqueued(s: State, a: Addr)
    requires Inv(s, Tight) && a !in s.heap
    ensures a !in s.queued
  {
  }

  lemma SpawnPrompt(s: State, a: Addr, k: int, keepAlive: bool, tidy: bool)
    requires Inv(s, Tight) && Prompt(s, tidy) && a !in s.heap && (tidy ==> !Resolving(s, a))
    ensures Prompt(SpawnStep(s, a, k, keepAlive), tidy)
  {
    var s1 := s.(heap := s.heap[a := Pending(s.next, Some(Call(s.next)), keepAlive, false, Ext(k))],
                 next := s.next + 1, origin := s.origin[s.next := Spawn]);
    hide Inv, Prompt, Schedule;
    FreeUnqueued(s, a);
    assert NewAt(s, s1, a);
    hide NewAt;
    NewPrompt(s, s1, a, tidy);
    hide Resolving;
    SchedulePrompt(s1, 0, a, None, tidy);
  }

  lemma ThenTaskNew(s: State, s1: State, a: Addr, k: Task, o: Origin, src: Addr, token: Owner)
    requires a !in s.heap && src in s.heap
    requires s1 == s.(heap := s.heap[a := k][src := s.heap[src].Remove(token).Add(HeldBy(a))],
                      next := s.next + 1, origin := s.origin[s.next := o])
    ensures NewAt(s, s1, a) && s1.heap[a] == k
  {
  }

  lemma ThenTaskPrompt(s: State, f: Fiber, a: Addr, k: Task, o: Origin, src: Addr, token: Owner, tidy: bool)
    requires Inv(s, Tight) && Prompt(s, tidy) && a !in s.heap && src in s.heap && (tidy ==> !Resolving(s, a))
    requires k.Closure().Some? && k.Held() == Some(src)
    ensures Prompt(ThenTask(s, f, a, k, o, src, token), tidy)
  {
    hide Inv, Prompt, Schedule, NewAt, Resolving;
    FreeUnqueued(s, a);
    var h := s.heap[a := k][src := s.heap[src].Remove(token).Add(HeldBy(a))];
    var s1 := s.(heap := h, next := s.next + 1, origin := s.origin[s.next := o]);
    ThenTaskNew(s, s1, a, k, o, src, token);
    NewPrompt(s, s1, a, tidy);
    SchedulePrompt(s1, f, a, Some(src), tidy);
  }

  lemma ThenSlowPrompt(s: State, f: Fiber, a: Addr, k': int, bind: bool, src: Addr, k: int, sync: bool, keepAlive: bool, tidy: bool)
    requires Inv(s, Tight) && Prompt(s, tidy) && a !in s.heap && src in s.heap && (tidy ==> !Resolving(s, a))
    ensures Prompt(ThenSlow(s, f, a, k', bind, src, k, sync, keepAlive), tidy)
  {
    hide Inv, Prompt, Resolving, ThenTask;
    var task := Pending(s.next, Some(DependentClosure(bind, s.next, src)), keepAlive, sync, Ext(k'));
    assert task.Held() == Some(src);
    ThenTaskPrompt(s, f, a, task, DependentOrigin(bind, s.heap[src].uid), src, Ext(k), tidy);
  }

  lemma ThenFastPrompt(s: State, f: Fiber, bind: bool, src: Addr, k: int, tidy: bool)
    requires Prompt(s, tidy) && src in s.heap && s.heap[src].value.Some?
    ensures Prompt(ThenFast(s, f, bind, src, k), tidy)
  {
    hide Prompt, Release;
    ReleasePrompt(s, src, Ext(k), tidy);
    var of, v := s.heap[src].uid, s.heap[src].value.value;
    PushPrompt(Release(s, src, Ext(k)), f, if bind then FastBind(of, v) else FastMap(of, v), tidy);
  }

  // Only owners or what a task stands for change.
  ghost predicate OwnersOnly(s: State, s': State) {
    && s'.stacks == s.stacks && s'.calls == s.calls && s'.queued == s.queued && s'.heap.Keys == s.heap.Keys
    && (forall a :: a in s'.heap ==> s'.heap[a].value == s.heap[a].value && s'.heap[a].Held() == s.heap[a].Held())
  }

  lemma OwnersPrompt(s: State, s': State, tidy: bool)
    requires Prompt(s, tidy) && OwnersOnly(s, s')
    ensures Prompt(s', tidy)
  {
    FewerPrompt(s, s', tidy);
  }

  lemma ResolvePrompt(s: State, f: Fiber, p: Addr, v: Value, tidy: bool)
    requires p in s.heap && s.heap[p].Closure().None? && Prompt(s, tidy)
    ensures Prompt(ResolvePromiseStep(s, f, p, v), tidy)
  {
    hide Prompt, Settle;
    var s1 := s.(returned := s.returned[s.heap[p].uid := Val(v)]);
    RecordPrompt(s, s1, tidy);
    SettlePrompt(s1, f, p, v, tidy);
  }

  lemma DropPrompt(s: State, f: Fiber, p: Addr, v: Value, tidy: bool)
    requires p in s.heap && s.heap[p].Closure().None? && Prompt(s, tidy)
    ensures Prompt(DropPromiseStep(s, f, p, v), tidy)
  {
    var s1 := s.(heap := s.heap[p := s.heap[p].Remove(Promise).Add(Frame(f, |Stack(s, f)|))]);
    assert OwnersOnly(s, s1);
    hide Prompt, ResolvePromiseStep;
    OwnersPrompt(s, s1, tidy);
    PushPrompt(s1, f, Tail(p), tidy);
    ResolvePrompt(Push(s1, f, Tail(p)), f, p, v, tidy);
  }

  lemma FastMapPrompt(s: State, f: Fiber, v: Value, a: Addr, k: int, tidy: bool)
    requires Inv(s, Tight) && Prompt(s, tidy) && Top(s, f).Some? && Top(s, f).value.FastMap? && a !in s.heap && (tidy ==> !Resolving(s, a))
    ensures Prompt(FastMapStep(s, f, v, a, k), tidy)
  {
    hide Inv, Prompt, Resolving;
    PopFast(s, f);
    PopPrompt(s, f, tidy);
    assert Stack(Pop(s, f), f) == Stack(s, f)[..|Stack(s, f)| - 1] + [];
    StackResolves(s, Pop(s, f), f, None);
    assert NewAt(Pop(s, f), FastMapStep(s, f, v, a, k), a);
    NewPrompt(Pop(s, f), FastMapStep(s, f, v, a, k), a, tidy);
  }

  lemma FastBindPrompt(s: State, f: Fiber, n: Addr, tidy: bool)
    requires Prompt(s, tidy) && Top(s, f).Some? && Top(s, f).value.FastBind? && n in s.heap
    ensures Prompt(FastBindStep(s, f, n), tidy)
  {
    assert OwnersOnly(Pop(s, f), FastBindStep(s, f, n));
    hide Prompt;
    PopPrompt(s, f, tidy);
    OwnersPrompt(Pop(s, f), FastBindStep(s, f, n), tidy);
  }

  lemma TailPrompt(s: State, f: Fiber, tidy: bool)
    requires Prompt(s, tidy) && Top(s, f).Some? && Top(s, f).value.Tail? && Top(s, f).value.task in s.heap
    ensures Prompt(TailTurn(s, f), tidy)
  {
    hide Prompt, Release;
    PopPrompt(s, f, tidy);
    ReleasePrompt(Pop(s, f), Top(s, f).value.task, Frame(f, |Stack(s, f)| - 1), tidy);
  }

  lemma StartPrompt(s: State, f: Fiber, t: Addr, tidy: bool)
    requires Prompt(s, tidy) && Enabled(s, Start(f, t)) && t in s.heap && s.heap[t].Closure().Some?
    ensures Prompt(StartStep(s, f, t), tidy)
  {
    var s1 := s.(queued := s.queued - {t});
    assert Fewer(s, s1);
    assert ReadyAt(s, t);
    hide Prompt, Begin;
    FewerPrompt(s, s1, tidy);
    BeginPrompt(s1, f, t, tidy);
  }

  lemma PlainNew(s: State, a: Addr, k: int, v: Value)
    requires a !in s.heap
    ensures NewAt(s, PureStep(s, a, k, v), a) && NewAt(s, PromiseStep(s, a), a)
  {
  }

  lemma OneMoreOwner(s: State, t: Addr, o: Owner)
    requires t in s.heap
    ensures OwnersOnly(s, AddOwner(s, t, o))
  {
  }

  lemma UserPrompt(s: State, act: Action, tidy: bool)
    requires Inv(s, Tight) && Prompt(s, tidy) && Enabled(s, act) && (tidy ==> Careful(s, act))
    ensures Prompt(NextUser(s, act), tidy)
  {
    hide Inv, Prompt, Resolving, NewAt, OwnersOnly, SpawnStep, PureStep, PromiseStep, AddOwner;
    hide ThenSlow, ThenFast, Release, ResolvePromiseStep, DropPromiseStep;
    match act
    case SpawnTask(a, k, keepAlive) => SpawnPrompt(s, a, k, keepAlive, tidy);
    case PureTask(a, k, v) => PlainNew(s, a, k, v); NewPrompt(s, PureStep(s, a, k, v), a, tidy);
    case Then(f, a, k', bind, src, k, sync, keepAlive) =>
      if sync && s.heap[src].value.Some? {
        ThenFastPrompt(s, f, bind, src, k, tidy);
      } else {
        ThenSlowPrompt(s, f, a, k', bind, src, k, sync, keepAlive, tidy);
      }
    case NewPromise(a) => PlainNew(s, a, 0, 0); NewPrompt(s, PromiseStep(s, a), a, tidy);
    case PromiseTask(p, k) => OneMoreOwner(s, p, Ext(k)); OwnersPrompt(s, AddOwner(s, p, Ext(k)), tidy);
    case ResolvePromise(f, p, v) => PromiseIdle(s, p); ResolvePrompt(s, f, p, v, tidy);
    case DropPromise(f, p, v) => PromiseIdle(s, p); DropPrompt(s, f, p, v, tidy);
    case Dup(t, j, k) => OneMoreOwner(s, t, Ext(k)); OwnersPrompt(s, AddOwner(s, t, Ext(k)), tidy);
    case Drop(t, k) => ReleasePrompt(s, t, Ext(k), tidy);
    case _ =>
  }

  lemma StepPrompt(s: State, act: Action, tidy: bool)
    requires Inv(s, Tight) && Prompt(s, tidy) && Enabled(s, act) && (if tidy then Careful(s, act) else !(act.LoopStep? && Early(s, act.f)))
    ensures Prompt(Next(s, act), tidy)
  {
    hide Inv, Prompt, Resolving, NextGet, NextReturnTask, FastMapStep, FastBindStep, ReturnValueStep, StartStep, LoopTurn, TailTurn, NextUser;
    match act
    case Get(f) => GetPrompt(s, f, tidy);
    case ReturnValue(f, v, a, k) =>
      if Top(s, f).value.FastMap? {
        FastMapPrompt(s, f, v, a, k, tidy);
      } else {
        ReturnValuePrompt(s, f, v, a, k, tidy);
      }
    case ReturnTask(f, n, k) => ReturnTaskPrompt(s, f, n, k, tidy);
    case Start(f, t) => CanTurn(s, f); StartPrompt(s, f, t, tidy);
    case LoopStep(f) => CanTurn(s, f); LoopPrompt(s, f, tidy);
    case TailStep(f) => CanTurn(s, f); TailPrompt(s, f, tidy);
    case _ => UserPrompt(s, act, tidy);
  }

  lemma ReturnTaskPrompt(s: State, f: Fiber, n: Addr, k: int, tidy: bool)
    requires Inv(s, Tight) && Prompt(s, tidy) && Enabled(s, ReturnTask(f, n, k))
    ensures Prompt(NextReturnTask(s, f, n, k), tidy)
  {
    hide Inv, Prompt, BindReturn, FastBindStep;
    if Top(s, f).value.FastBind? {
      FastBindPrompt(s, f, n, tidy);
    } else {
      BindReturnPrompt(s, f, n, k, tidy);
    }
  }

  // ---- Runs ----

  // A run whose allocations never reuse the address of a task being resolved.
  ghost predicate CarefulRun(acts: seq<Action>)
  {
    acts != [] ==>
      && CarefulRun(acts[..|acts| - 1])
      && (After(acts[..|acts| - 1]).Some? ==> Careful(After(acts[..|acts| - 1]).value, acts[|acts| - 1]))
  }

  // In such a run every task starts only when its dependency has its value.
  lemma {:induction false} CarefulRunsStartResolved(acts: seq<Action>, s: State)
    requires CarefulRun(acts) && After(acts) == Some(s)
    ensures Prompt(s, true) && StartsResolved(s)
  {
    hide Inv, Resolving;
    if acts == [] {
      assert s == Init;
    } else {
      var before := After(acts[..|acts| - 1]);
      hide Next, Enabled;
      CarefulRunsStartResolved(acts[..|acts| - 1], before.value);
      StepPrompt(before.value, acts[|acts| - 1], true);
    }
  }

  // ---- Exactly when ----

  // An early turn executes a task, or marks one as ready, whose source has no value.
  lemma EarlyBreaks(s: State, f: Fiber)
    requires Inv(s, Tight) && Early(s, f)
    requires forall n :: n in s.syncRegistered ==> n in s.heap && s.heap[n].Closure().Some?
    ensures !Prompt(LoopTurn(s, f), false)
  {
    var frame := Top(s, f).value;
    if frame.deps == [] {
      var a :| a in s.queued && s.queued[a] == Some(frame.task);
      QueuedHolds(s, a);
      hide Inv;
      WokenEarly(s, f, a);
    } else {
      RegisteredHolds(s, frame.deps[0]);
      hide Inv;
      ExecutedEarly(s, f);
    }
  }

  lemma QueuedHolds(s: State, a: Addr)
    requires Inv(s, Tight) && a in s.queued
    ensures a in s.heap && (s.queued[a].Some? ==> s.heap[a].Held() == s.queued[a])
  {
  }

  lemma WokenEarly(s: State, f: Fiber, a: Addr)
    requires Early(s, f) && Top(s, f).value.deps == []
    requires a in s.queued && s.queued[a] == Some(Top(s, f).value.task) && a in s.heap && s.heap[a].Held() == s.queued[a]
    requires forall n :: n in s.syncRegistered ==> n in s.heap && s.heap[n].Closure().Some?
    ensures !Prompt(LoopTurn(s, f), false)
  {
    hide Begin;
    assert !ReadyAt(LoopTurn(s, f), a);
  }

  lemma ExecutedEarly(s: State, f: Fiber)
    requires forall n :: n in s.syncRegistered ==> n in s.heap && s.heap[n].Closure().Some?
    requires Early(s, f) && Top(s, f).value.deps != [] && Top(s, f).value.deps[0] in s.heap
    requires s.heap[Top(s, f).value.deps[0]].Held() == Some(Top(s, f).value.task)
    ensures !Prompt(LoopTurn(s, f), false)
  {
    var frame := Top(s, f).value;
    var n := frame.deps[0];
    var s1 := Skip(s, f, frame).(syncRegistered := s.syncRegistered - {n});
    SkipSame(s, f, frame);
    hide Skip;
    BeginCalls(s1, f, n);
    hide Begin;
    assert !Valued(LoopTurn(s, f), frame.task);
  }

  lemma BeginCalls(s: State, f: Fiber, n: Addr)
    requires n in s.heap && s.heap[n].Closure().Some?
    ensures var s' := Begin(s, f, n); var c := s.heap[n].Closure().value;
            && n in s'.calls && s'.calls[n].closure == c && s'.calls[n].called == c.Call?
            && s'.heap.Keys == s.heap.Keys && forall a :: a in s.heap ==> s'.heap[a].value == s.heap[a].value
  {
  }

  /** Started and ready tasks have resolved sources after a step exactly if it was no early turn. */
  lemma StepsEarlyExactly(s: State, act: Action)
    requires Inv(s, Tight) && Prompt(s, false) && Enabled(s, act)
    ensures Prompt(Next(s, act), false) <==> !(act.LoopStep? && Early(s, act.f))
  {
    if act.LoopStep? && Early(s, act.f) {
      CanTurn(s, act.f);
      EarlyBreaks(s, act.f);
      hide Inv, Prompt, LoopTurn;
      assert Next(s, act) == LoopTurn(s, act.f);
    } else {
      hide Inv, Prompt, Early, Next, Enabled;
      StepPrompt(s, act, false);
    }
  }

  // Some turn of the run is early.
  ghost predicate HasEarlyTurn(acts: seq<Action>)
    requires After(acts).Some?
  {
    exists i :: 0 <= i < |acts| && EarlyTurn(At(acts, i), acts[i])
  }

  predicate EarlyTurn(s: State, act: Action) { act.LoopStep? && Early(s, act.f) }

  ghost predicate AlwaysPrompt(acts: seq<Action>)
    requires After(acts).Some?
  {
    forall i :: 0 <= i <= |acts| ==> Prompt(At(acts, i), false)
  }

  lemma PromptMeans(s: State)
    ensures Prompt(s, false) <==>
              && (forall t :: t in s.calls && !s.calls[t].called && !s.calls[t].closure.Call? && s.calls[t].closure.src in s.heap ==>
                    s.heap[s.calls[t].closure.src].value.Some?)
              && (forall a :: a in s.queued && s.queued[a] == None && a in s.heap && s.heap[a].imp.Some? && s.heap[a].imp.value.closure.Some? ==>
                    var c := s.heap[a].imp.value.closure.value;
                    !c.Call? && c.src in s.heap ==> s.heap[c.src].value.Some?)
  {
    assert forall a :: ReadyAt(s, a) || (a in s.queued && s.queued[a] == None && a in s.heap && s.heap[a].Held().Some?);
  }

  lemma EarlyMeans(s: State, f: Fiber)
    ensures Early(s, f) <==>
              && |Stack(s, f)| > 0
              && var top := Stack(s, f)[|Stack(s, f)| - 1];
              && top.Resolve? && top.task in s.heap && s.heap[top.task].value.None?
              && if top.deps == [] then exists a :: a in s.queued && s.queued[a] == Some(top.task)
                 else top.deps[0] in s.syncRegistered && s.syncRegistered[top.deps[0]] == top.task
  {
  }

  /** In a run, every task that is started or marked as ready at any point has a resolved source
      exactly if no turn of a loop of resolve_task finds its task live and without a value while
      the next entry is registered with it or, at the end, something is queued behind it. */
  lemma RunsStartEarlyExactly(acts: seq<Action>)
    requires After(acts).Some?
    ensures (forall i :: 0 <= i <= |acts| ==>
               var s := At(acts, i);
               && (forall t :: t in s.calls && !s.calls[t].called && !s.calls[t].closure.Call? && s.calls[t].closure.src in s.heap ==>
                     s.heap[s.calls[t].closure.src].value.Some?)
               && (forall a :: a in s.queued && s.queued[a] == None && a in s.heap && s.heap[a].imp.Some? && s.heap[a].imp.value.closure.Some? ==>
                     var c := s.heap[a].imp.value.closure.value;
                     !c.Call? && c.src in s.heap ==> s.heap[c.src].value.Some?))
            <==>
            !(exists i :: 0 <= i < |acts| && acts[i].LoopStep? &&
                var s, f := At(acts, i), acts[i].f;
                && |Stack(s, f)| > 0
                && var top := Stack(s, f)[|Stack(s, f)| - 1];
                && top.Resolve? && top.task in s.heap && s.heap[top.task].value.None?
                && if top.deps == [] then exists a :: a in s.queued && s.queued[a] == Some(top.task)
                   else top.deps[0] in s.syncRegistered && s.syncRegistered[top.deps[0]] == top.task)
  {
    hide Prompt, Early, After, At, Stack;
    RunsPrompt(acts);
    forall i | 0 <= i <= |acts| {
      PromptMeans(At(acts, i));
    }
    forall i | 0 <= i < |acts| && acts[i].LoopStep? {
      EarlyMeans(At(acts, i), acts[i].f);
    }
  }

  lemma RunsPrompt(acts: seq<Action>)
    requires After(acts).Some?
    ensures AlwaysPrompt(acts) <==> !HasEarlyTurn(acts)
  {
    hide Prompt, Inv, Enabled, Next, After, At, Early;
    if HasEarlyTurn(acts) {
      var i :| 0 <= i < |acts| && EarlyTurn(At(acts, i), acts[i]);
      AtNext(acts, i);
      if AlwaysPrompt(acts) {
        assert Prompt(At(acts, i), false) && Prompt(At(acts, i + 1), false);
        StepsEarlyExactly(At(acts, i), acts[i]);
      }
    } else {
      forall i | 0 <= i <= |acts|
        ensures Prompt(At(acts, i), false)
      {
        PromptUpTo(acts, i);
      }
    }
  }

  lemma {:induction false} PromptUpTo(acts: seq<Action>, i: nat)
    requires After(acts).Some? && i <= |acts| && !HasEarlyTurn(acts)
    ensures Prompt(At(acts, i), false)
  {
    hide Inv, Enabled, Next, Early;
    if i == 0 {
      assert acts[..0] == [];
      InitPrompt(At(acts, 0));
    } else {
      hide Prompt, After, At;
      PromptUpTo(acts, i - 1);
      AtNext(acts, i - 1);
      assert !EarlyTurn(At(acts, i - 1), acts[i - 1]);
      StepsEarlyExactly(At(acts, i - 1), acts[i - 1]);
    }
  }

  lemma InitPrompt(s: State)
    requires s == Init
    ensures Prompt(s, false)
  {
  }
}
