/** What a step leaves as it is: a task that is live before and after keeps its identity and
    its value, and one that waits keeps what it waits for unless the step executes it. What
    identities ended with stays. */
module TaskSteady {
  import opened Wrappers
  import opened TaskMachine
  import opened TaskInvariant
  import opened TaskFrames
  import opened TaskFinish
  import opened TaskReturns
  import opened TaskNested
  import opened TaskRuns

  predicate KeptTask(k: Task, k': Task, executed: bool) {
    && k'.uid == k.uid && k.standsFor <= k'.standsFor
    && (k.value.Some? ==> k'.value == k.value)
    && (!executed && k.Closure().Some? && !k.Running() ==> k'.imp == k.imp)
    && (k.imp.None? ==> k'.imp.None?)
    && (k'.imp.Some? && k.imp.Some? ==> k'.imp.value.keepAlive == k.imp.value.keepAlive && k'.imp.value.sync == k.imp.value.sync)
  }

  // How the tasks came to be is not forgotten.
  ghost predicate OriginKept(s: State, s': State) {
    forall u: Uid :: u in s.origin ==> u in s'.origin && s'.origin[u] == s.origin[u]
  }

  // Nothing is allocated, and only `t` may be executed.
  ghost predicate Steady(s: State, s': State, t: Option<Addr>) {
    FinalKept(s, s') && s'.origin == s.origin && forall a :: a in s'.heap ==> a in s.heap && KeptTask(s.heap[a], s'.heap[a], t == Some(a))
  }

  // The same, but new tasks may be there.
  ghost predicate Lasts(s: State, s': State, t: Option<Addr>) {
    FinalKept(s, s') && OriginKept(s, s') && forall a :: a in s.heap && a in s'.heap ==> KeptTask(s.heap[a], s'.heap[a], t == Some(a))
  }

  // Tasks are reclaimed, nothing else.
  ghost predicate Reclaims(s: State, s': State) {
    && s'.final == s.final && s'.origin == s.origin
    && forall a :: a in s'.heap ==>
         a in s.heap && KeptTask(s.heap[a], s'.heap[a], false) && s'.heap[a].standsFor == s.heap[a].standsFor
  }

  // Nothing that `t` stands for has ended.
  predicate Open(s: State, t: Addr)
    requires t in s.heap
  {
    s.heap[t].value.None? && forall u :: u in s.heap[t].standsFor ==> u !in s.final
  }

  lemma OpenTask(s: State, x: Slack, t: Addr)
    requires Inv(s, x) && t in s.heap && s.heap[t].value.None?
    ensures Open(s, t)
  {
    hide Shape, HeldOk, KeepOk, StacksOk, WaitsOk, ProgressOk, HistoryOk;
    forall u | u in s.heap[t].standsFor
      ensures u !in s.final
    {
      assert MeansAt(s, x.loose, t, u);
    }
  }

  lemma SteadyTrans(s: State, s1: State, s2: State, t: Option<Addr>)
    requires Steady(s, s1, t) && Steady(s1, s2, t)
    ensures Steady(s, s2, t)
  {
  }

  lemma ReclaimsSteady(s: State, s': State, t: Option<Addr>)
    requires Reclaims(s, s')
    ensures Steady(s, s', t)
  {
  }

  lemma SteadyLasts(s: State, s': State, t: Addr)
    requires Steady(s, s', Some(t)) && t in s.heap && (s.heap[t].Running() || s.heap[t].Closure().None?)
    ensures Lasts(s, s', None)
  {
  }

  lemma SameSteady(s: State, s': State, t: Option<Addr>)
    requires s'.heap == s.heap && s'.origin == s.origin && FinalKept(s, s')
    ensures Steady(s, s', t) && Lasts(s, s', t)
  {
  }

  // ---- Reclaiming ----

  lemma FreeReclaims(s: State, t: Addr)
    requires t in s.heap
    ensures Reclaims(s, Free(Forget(s, t), t))
    ensures |Free(Forget(s, t), t).heap| < |s.heap|
  {
    FreeShrinks(Forget(s, t), t);
    assert Free(Forget(s, t), t).heap == FreeTask(s.heap, t);
  }

  lemma MarkReclaims(s: State, t: Addr)
    requires t in s.heap && s.heap[t].Running()
    ensures Reclaims(s, Deactivate(s, t))
  {
  }

  lemma ReclaimsOn(s: State, s1: State, s2: State)
    requires Reclaims(s, s1) && Reclaims(s1, s2)
    ensures Reclaims(s, s2)
  {
  }

  lemma {:induction false} DeactivateReclaims(s: State, t: Addr)
    requires t in s.heap
    ensures Reclaims(s, Deactivate(s, t))
    decreases |s.heap|, 0
  {
    if s.heap[t].Running() {
      MarkReclaims(s, t);
    } else {
      var s2 := Free(Forget(s, t), t);
      FreeReclaims(s, t);
      hide Free, Reclaims;
      var d := s.heap[t].Held();
      if d.Some? && d.value in s2.heap {
        CollectReclaims(s2, d.value);
        ReclaimsOn(s, s2, Collect(s2, d.value));
        assert Deactivate(s, t) == Collect(s2, d.value);
      }
    }
  }

  lemma {:induction false} CollectReclaims(s: State, t: Addr)
    requires t in s.heap
    ensures Reclaims(s, Collect(s, t))
    decreases |s.heap|, 1
  {
    if s.heap[t].owners == {} && !s.heap[t].Deleted() {
      DeactivateReclaims(s, t);
      hide Deactivate;
    }
  }

  lemma ReleaseReclaims(s: State, t: Addr, o: Owner)
    requires t in s.heap
    ensures Reclaims(s, Release(s, t, o))
  {
    var s1 := RemoveOwner(s, t, o);
    CollectReclaims(s1, t);
    hide Collect;
    assert Reclaims(s, s1);
    ReclaimsOn(s, s1, Collect(s1, t));
  }

  // ---- Executing ----

  lemma BeginSteady(s: State, f: Fiber, t: Addr)
    requires t in s.heap && s.heap[t].Closure().Some?
    ensures Steady(s, Begin(s, f, t), Some(t))
  {
  }

  lemma EnqueueSteady(s: State, f: Fiber, t: Addr)
    requires t in s.heap && s.heap[t].Closure().Some?
    ensures Steady(s, Enqueue(s, f, t), Some(t))
  {
    BeginSteady(s, f, t);
    hide Steady, Begin, Enqueue;
    if Begins(s, t) {
      EnqueueBegins(s, f, t);
    } else {
      EnqueueWaits(s, f, t);
      SameSteady(s, Enqueue(s, f, t), Some(t));
    }
  }

  // A synchronous task that is enqueued now is executed at once.
  predicate Begins(s: State, t: Addr)
    requires t in s.heap && s.heap[t].Closure().Some?
  {
    s.heap[t].imp.value.sync && !Unresolved(s, s.heap[t].imp.value.nextDep) && !s.heap[t].imp.value.running
  }

  lemma EnqueueBegins(s: State, f: Fiber, t: Addr)
    requires t in s.heap && s.heap[t].Closure().Some? && Begins(s, t)
    ensures Enqueue(s, f, t) == Begin(s, f, t)
  {
    hide Begin;
  }

  lemma EnqueueWaits(s: State, f: Fiber, t: Addr)
    requires t in s.heap && s.heap[t].Closure().Some? && !Begins(s, t)
    ensures Enqueue(s, f, t).heap == s.heap && Enqueue(s, f, t).final == s.final && Enqueue(s, f, t).origin == s.origin
  {
    if s.heap[t].imp.value.sync {
      SyncWaits(s, f, t);
    }
  }

  lemma SyncWaits(s: State, f: Fiber, t: Addr)
    requires t in s.heap && s.heap[t].Closure().Some? && (Unresolved(s, s.heap[t].imp.value.nextDep) || s.heap[t].imp.value.running)
    ensures EnqueueSync(s, f, t).heap == s.heap && EnqueueSync(s, f, t).final == s.final && EnqueueSync(s, f, t).origin == s.origin
  {
    hide Begin;
  }

  lemma ScheduleSteady(s: State, f: Fiber, t: Addr, d: Option<Addr>)
    requires t in s.heap && s.heap[t].Closure().Some?
    ensures Steady(s, Schedule(s, f, t, d), Some(t))
  {
    var s1 := s.(heap := s.heap[t := s.heap[t].KeepScheduled(d)]);
    assert Steady(s, s1, Some(t));
    EnqueueSteady(s1, f, t);
    hide Enqueue, Steady;
    if !s.heap[t].imp.value.running || !s.heap[t].imp.value.sync {
      SteadyTrans(s, s1, Enqueue(s1, f, t), Some(t));
    }
  }

  lemma SettleSteady(s: State, f: Fiber, t: Addr, v: Value)
    requires t in s.heap && Open(s, t)
    ensures Steady(s, Settle(s, f, t, v), Some(t))
  {
  }

  lemma EndSteady(s: State, f: Fiber, t: Addr)
    requires OnTop(s, f, t)
    ensures Steady(s, EndCall(s, f, t), Some(t)) && Steady(s, EndPush(s, f, t), Some(t))
    ensures t in EndPush(s, f, t).heap && EndPush(s, f, t).heap[t].standsFor == s.heap[t].standsFor
    ensures EndPush(s, f, t).heap[t].value == s.heap[t].value && EndPush(s, f, t).final == s.final
    ensures t in EndCall(s, f, t).heap
  {
  }

  lemma FinishValueSteady(s: State, f: Fiber, t: Addr, v: Value)
    requires OnTop(s, f, t) && Open(s, t)
    ensures Steady(s, Finish(s, f, t, Some(v)), Some(t))
  {
    var e, i := EndCall(s, f, t), EndPush(s, f, t);
    EndSteady(s, f, t);
    hide Steady, EndPush, Settle;
    if s.heap[t].Deleted() {
      DeactivateReclaims(e, t);
      ReclaimsSteady(e, Deactivate(e, t), Some(t));
      hide EndCall, Deactivate;
      SteadyTrans(s, e, Deactivate(e, t), Some(t));
    } else {
      FinishSettles(s, f, t, v);
      hide Finish, EndCall;
      SettleSteady(i, f, t, v);
      SteadyTrans(s, i, Settle(i, f, t, v), Some(t));
    }
  }

  lemma FinishBindSteady(s: State, f: Fiber, t: Addr)
    requires OnTop(s, f, t) && s.heap[t].Closure().Some?
    ensures Steady(s, Finish(s, f, t, None), Some(t))
  {
    var e, i := EndCall(s, f, t), EndPush(s, f, t);
    EndSteady(s, f, t);
    EndTask(s, f, t, t);
    hide Steady;
    if s.heap[t].Deleted() {
      DeactivateReclaims(e, t);
      ReclaimsSteady(e, Deactivate(e, t), Some(t));
      hide EndCall, EndPush, Deactivate;
      SteadyTrans(s, e, Deactivate(e, t), Some(t));
    } else {
      assert i == LeaveTail(e, f, t, Top(s, f).value.keep);
      hide EndCall, EndPush, LeaveTail;
      EnqueueSteady(i, f, t);
      hide Enqueue;
      SteadyTrans(s, i, Enqueue(i, f, t), Some(t));
    }
  }

  // ---- The steps of a running task ----

  lemma TakeReclaims(s: State, t: Addr)
    requires t in s.calls && !s.calls[t].closure.Call? && s.calls[t].closure.src in s.heap
    ensures Reclaims(s, TakeSource(s, t))
  {
  }

  lemma GetResultSteady(s: State, f: Fiber, t: Addr)
    requires GetsValue(s, f, t) && OnTop(s, f, t) && Open(s, t)
    ensures Steady(s, GetResult(s, f, t), Some(t))
  {
    var d := s.calls[t].closure.src;
    var s1 := TakeSource(s, t);
    TakeReclaims(s, t);
    CollectOnlyReclaims(s1, d);
    assert StillRuns(s1, Collect(s1, d), t);
    CollectReclaims(s1, d);
    ReclaimsOn(s, s1, Collect(s1, d));
    AfterCollect(s1, d, f, t);
    assert Open(Collect(s1, d), t);
    hide Collect, Finish, Open, TakeSource;
    ReclaimsSteady(s, Collect(s1, d), Some(t));
    FinishValueSteady(Collect(s1, d), f, t, s.heap[d].value.value);
    hide Steady, Reclaims;
    SteadyTrans(s, Collect(s1, d), GetResult(s, f, t), Some(t));
  }

  lemma GetArgumentReclaims(s: State, t: Addr)
    requires t in s.calls && (s.calls[t].closure.MapFn? || s.calls[t].closure.BindFn?)
    requires s.calls[t].closure.src in s.heap && s.heap[s.calls[t].closure.src].value.Some?
    ensures Reclaims(s, GetArgument(s, t))
  {
    var c := s.calls[t].closure;
    var s1 := TakeSource(s, t);
    var s2 := s1.(arg := s.arg[c.fn := s.heap[c.src].value.value], applied := s.applied + [c.fn]);
    TakeReclaims(s, t);
    assert Reclaims(s, s2);
    CollectReclaims(s2, c.src);
    hide Collect, Reclaims;
    ReclaimsOn(s, s2, Collect(s2, c.src));
  }

  lemma BindValueSteady(s: State, f: Fiber, t: Addr, n: Addr, k: int)
    requires ReturnsTask(s, f, t, n) && OnTop(s, f, t) && s.calls[t].called && Open(s, t)
    requires s.heap[n].value.Some? && t != n
    ensures Steady(s, BindValue(s, f, t, n, k), Some(t))
  {
    var s1 := RemoveOwner(s, n, Ext(k));
    CollectOnlyReclaims(s1, n);
    assert StillRuns(s1, Collect(s1, n), t);
    ReleaseReclaims(s, n, Ext(k));
    AfterCollect(s1, n, f, t);
    assert Open(Collect(s1, n), t);
    hide Collect, Finish, Open;
    ReclaimsSteady(s, Collect(s1, n), Some(t));
    FinishValueSteady(Collect(s1, n), f, t, s.heap[n].value.value);
    hide Steady, Reclaims;
    SteadyTrans(s, Collect(s1, n), BindValue(s, f, t, n, k), Some(t));
  }

  lemma SchedulingSteady(y: State, f: Fiber, t: Addr)
    requires t in y.heap && y.heap[t].Closure().Some?
    ensures Steady(y, Scheduling(y, f, t), Some(t))
  {
    EnqueueSteady(y, f, t);
    hide Enqueue;
  }

  lemma ForwardSteady(s: State, f: Fiber, t: Addr, n: Addr, k: int)
    requires t in s.heap && s.heap[t].Running() && n in s.heap
    ensures Steady(s, Forward(s, f, t, n, Ext(k)), Some(t))
  {
    var y := Forwarded(s, t, n, Ext(k));
    ForwardIs(s, f, t, n, Ext(k));
    ForwardedRest(s, t, n, Ext(k));
    hide Forward, Forwarded;
    forall a | a in y.heap
      ensures a in s.heap && KeptTask(s.heap[a], y.heap[a], t == a)
    {
      ForwardedTask(s, t, n, Ext(k), a);
    }
    SchedulingSteady(y, f, t);
    assert Steady(s, y, Some(t));
    hide Steady, Scheduling;
    SteadyTrans(s, y, Scheduling(y, f, t), Some(t));
  }

  lemma FuseSteady(s: State, f: Fiber, t: Addr, n: Addr)
    requires t in s.heap && s.heap[t].Running() && Fusable(s, t, n)
    ensures Steady(s, Fuse(s, f, t, n), Some(t))
  {
    var y := Fused(s, t, n);
    FuseIs(s, f, t, n);
    FusedRest(s, t, n);
    hide Fuse, Fused;
    forall a | a in y.heap
      ensures a in s.heap && KeptTask(s.heap[a], y.heap[a], t == a)
    {
      FusedTask(s, t, n, a);
    }
    SchedulingSteady(y, f, t);
    assert Steady(s, y, Some(t));
    hide Steady, Scheduling;
    SteadyTrans(s, y, Scheduling(y, f, t), Some(t));
  }

  // ---- The steps ----

  // The waiting task that a step executes, if any.
  function Started(s: State, act: Action): Option<Addr> {
    match act
    case Start(_, t) => Some(t)
    case LoopStep(f) =>
      if Top(s, f).Some? && Hits(s, Top(s, f).value) then Some(Top(s, f).value.deps[0]) else None
    case _ => None
  }

  lemma SkipUntouched(s: State, f: Fiber, frame: StackFrame)
    requires Stack(s, f) != []
    ensures Pop(s, f).heap == s.heap && Pop(s, f).final == s.final && Pop(s, f).origin == s.origin
    ensures frame.Resolve? && frame.deps != [] ==>
              && Skip(s, f, frame).heap == s.heap && Skip(s, f, frame).final == s.final && Skip(s, f, frame).origin == s.origin
  {
  }

  lemma LoopLasts(s: State, f: Fiber)
    requires Top(s, f).Some? && Top(s, f).value.Resolve?
    requires forall n :: n in s.syncRegistered ==> n in s.heap && s.heap[n].Closure().Some?
    ensures Lasts(s, LoopTurn(s, f), Started(s, LoopStep(f)))
  {
    hide Begin, Skip, Woken, Pop, Steady, Lasts;
    var frame := Top(s, f).value;
    SkipUntouched(s, f, frame);
    if Hits(s, frame) {
      var n := frame.deps[0];
      var s1 := Skip(s, f, frame).(syncRegistered := s.syncRegistered - {n});
      BeginSteady(s1, f, n);
      SameHeapLasts(s, s1, Begin(s1, f, n), n);
    } else {
      SameSteady(s, LoopTurn(s, f), None);
    }
  }

  lemma SameHeapLasts(s: State, s1: State, s2: State, t: Addr)
    requires s1.heap == s.heap && s1.final == s.final && s1.origin == s.origin && Steady(s1, s2, Some(t))
    ensures Lasts(s, s2, Some(t))
  {
  }

  lemma TailLasts(s: State, f: Fiber)
    requires Top(s, f).Some? && Top(s, f).value.Tail? && Top(s, f).value.task in s.heap
    ensures Lasts(s, TailTurn(s, f), None)
  {
    ReleaseReclaims(Pop(s, f), Top(s, f).value.task, Frame(f, |Stack(s, f)| - 1));
    hide Release;
  }

  lemma TurnLasts(s: State, act: Action)
    requires Inv(s, Tight) && Enabled(s, act) && (act.Start? || act.LoopStep? || act.TailStep?)
    ensures Lasts(s, NextTurn(s, act), Started(s, act))
  {
    CanTurn(s, act.f);
    hide Inv, TailTurn, LoopTurn, Begin, Lasts, Steady;
    match act
    case Start(f, t) =>
      BeginSteady(s.(queued := s.queued - {t}), f, t);
      SameHeapLasts(s, s.(queued := s.queued - {t}), StartStep(s, f, t), t);
    case LoopStep(f) => LoopLasts(s, f);
    case TailStep(f) => TailLasts(s, f);
  }

  lemma GetLasts(s: State, f: Fiber)
    requires Inv(s, Tight) && Enabled(s, Get(f))
    ensures Lasts(s, NextGet(s, f), None)
  {
    CanGet(s, f);
    CanReturn(s, f);
    var t := Top(s, f).value.task;
    OpenTask(s, Tight, t);
    hide Inv, GetResult, GetArgument, Open, Lasts, Steady;
    if s.calls[t].closure.BindResult? {
      GetResultSteady(s, f, t);
    } else {
      GetArgumentReclaims(s, t);
      ReclaimsSteady(s, GetArgument(s, t), Some(t));
    }
    SteadyLasts(s, NextGet(s, f), t);
  }

  lemma ReturnValueLasts(s: State, f: Fiber, v: Value, a: Addr, k: int)
    requires Inv(s, Tight) && Enabled(s, ReturnValue(f, v, a, k))
    ensures Lasts(s, NextReturnValue(s, f, v, a, k), None)
  {
    if Top(s, f).value.FastMap? {
      assert s.next !in s.final && s.next !in s.origin;
      hide Inv, FastMapStep, Lasts;
      FastMapLasts(s, f, v, a, k);
    } else {
      CanReturn(s, f);
      var t := Top(s, f).value.task;
      OpenTask(s, Tight, t);
      hide Inv, Finish, Steady, Lasts;
      var s1 := s.(returned := s.returned[s.calls[t].closure.fn := Val(v)]);
      FinishValueSteady(s1, f, t, v);
      SameSteady(s, s1, Some(t));
      SteadyTrans(s, s1, Finish(s1, f, t, Some(v)), Some(t));
      SteadyLasts(s, Finish(s1, f, t, Some(v)), t);
    }
  }

  lemma FastMapLasts(s: State, f: Fiber, v: Value, a: Addr, k: int)
    requires Top(s, f).Some? && Top(s, f).value.FastMap? && a !in s.heap && s.next !in s.final && s.next !in s.origin
    ensures Lasts(s, FastMapStep(s, f, v, a, k), None)
  {
  }

  lemma FastBindLasts(s: State, f: Fiber, n: Addr)
    requires Top(s, f).Some? && Top(s, f).value.FastBind? && n in s.heap && s.next !in s.final && s.next !in s.origin
    ensures Lasts(s, FastBindStep(s, f, n), None)
  {
  }

  lemma ReturnTaskLasts(s: State, f: Fiber, n: Addr, k: int)
    requires Inv(s, Tight) && Enabled(s, ReturnTask(f, n, k))
    ensures Lasts(s, NextReturnTask(s, f, n, k), None)
  {
    if Top(s, f).value.FastBind? {
      assert s.next !in s.final && s.next !in s.origin;
      hide Inv, FastBindStep;
      FastBindLasts(s, f, n);
    } else {
      CanReturn(s, f);
      var t := Top(s, f).value.task;
      OpenTask(s, Tight, t);
      if CanFuse(s, t, n) {
        FusedIsOurs(s, t, n, k);
        CanBeFused(s, t, n);
      }
      hide Inv, BindReturn;
      BindReturnLasts(s, f, t, n, k);
    }
  }

  lemma BindReturnLasts(s: State, f: Fiber, t: Addr, n: Addr, k: int)
    requires ReturnsTask(s, f, t, n) && OnTop(s, f, t) && s.calls[t].called && Open(s, t) && (s.heap[n].value.Some? ==> t != n)
    requires CanFuse(s, t, n) ==> Fusable(s, t, n)
    ensures Lasts(s, BindReturn(s, f, t, n, k), None)
  {
    hide Finish, Fuse, Forward, BindValue, Steady, Lasts, Fused, Forwarded;
    var s1 := BindRecord(s, t, n);
    SameSteady(s, s1, Some(t));
    if s.heap[n].value.Some? {
      BindValueSteady(s1, f, t, n, k);
      SteadyTrans(s, s1, BindValue(s1, f, t, n, k), Some(t));
    } else if CanFuse(s1, t, n) {
      FuseSteady(s1, f, t, n);
      FuseOnTop(s1, f, t, n);
      FinishBindSteady(Fuse(s1, f, t, n), f, t);
      SteadyTrans(s, s1, Fuse(s1, f, t, n), Some(t));
      SteadyTrans(s, Fuse(s1, f, t, n), BindReturn(s, f, t, n, k), Some(t));
    } else {
      ForwardSteady(s1, f, t, n, k);
      ForwardOnTop(s1, f, t, n, k);
      FinishBindSteady(Forward(s1, f, t, n, Ext(k)), f, t);
      SteadyTrans(s, s1, Forward(s1, f, t, n, Ext(k)), Some(t));
      SteadyTrans(s, Forward(s1, f, t, n, Ext(k)), BindReturn(s, f, t, n, k), Some(t));
    }
    SteadyLasts(s, BindReturn(s, f, t, n, k), t);
  }

  lemma FuseOnTop(s: State, f: Fiber, t: Addr, n: Addr)
    requires OnTop(s, f, t) && s.heap[t].Running() && Fusable(s, t, n)
    ensures OnTop(Fuse(s, f, t, n), f, t) && Fuse(s, f, t, n).heap[t].Closure().Some?
  {
    FuseIs(s, f, t, n);
    FusedTask(s, t, n, t);
    FusedRest(s, t, n);
    hide Fuse, Fused, Begin;
  }

  lemma ForwardOnTop(s: State, f: Fiber, t: Addr, n: Addr, k: int)
    requires OnTop(s, f, t) && s.heap[t].Running() && n in s.heap
    ensures OnTop(Forward(s, f, t, n, Ext(k)), f, t) && Forward(s, f, t, n, Ext(k)).heap[t].Closure().Some?
  {
    ForwardIs(s, f, t, n, Ext(k));
    ForwardedTask(s, t, n, Ext(k), t);
    ForwardedRest(s, t, n, Ext(k));
    hide Forward, Forwarded, Begin;
  }

  // A new task, and what is done with it.
  lemma NewLasts(s: State, s1: State, s2: State, a: Addr)
    requires a !in s.heap && Lasts(s, s1, None) && Steady(s1, s2, Some(a))
    requires forall b :: b in s1.heap && b != a ==> b in s.heap
    requires forall b :: b in s.heap ==> b in s1.heap && s1.heap[b].imp == s.heap[b].imp
    ensures Lasts(s, s2, None)
  {
  }

  lemma SpawnLasts(s: State, a: Addr, k: int, keepAlive: bool)
    requires a !in s.heap && s.next !in s.origin
    ensures Lasts(s, SpawnStep(s, a, k, keepAlive), None)
  {
    var s1 := s.(heap := s.heap[a := Pending(s.next, Some(Call(s.next)), keepAlive, false, Ext(k))],
                 next := s.next + 1, origin := s.origin[s.next := Spawn]);
    ScheduleSteady(s1, 0, a, None);
    hide Schedule;
    assert Lasts(s, s1, None);
    hide Lasts, Steady;
    NewLasts(s, s1, SpawnStep(s, a, k, keepAlive), a);
  }

  lemma MadeLasts(s: State, s1: State, a: Addr, k: Task, o: Origin, src: Addr, token: Owner)
    requires src in s.heap && a !in s.heap && s.next !in s.origin
    requires s1 == s.(heap := s.heap[a := k][src := s.heap[src].Remove(token).Add(HeldBy(a))],
                      next := s.next + 1, origin := s.origin[s.next := o])
    ensures Lasts(s, s1, None) && a in s1.heap && s1.heap[a] == k
    ensures forall b :: b in s1.heap && b != a ==> b in s.heap
    ensures forall b :: b in s.heap ==> b in s1.heap && s1.heap[b].imp == s.heap[b].imp
  {
  }

  lemma ThenTaskLasts(s: State, f: Fiber, a: Addr, k: Task, o: Origin, src: Addr, token: Owner)
    requires src in s.heap && a !in s.heap && k.Closure().Some? && s.next !in s.origin
    ensures Lasts(s, ThenTask(s, f, a, k, o, src, token), None)
  {
    hide Schedule, Lasts, Steady, Task.Remove, Task.Add;
    var h := s.heap[a := k][src := s.heap[src].Remove(token).Add(HeldBy(a))];
    var s1 := s.(heap := h, next := s.next + 1, origin := s.origin[s.next := o]);
    MadeLasts(s, s1, a, k, o, src, token);
    ScheduleSteady(s1, f, a, Some(src));
    NewLasts(s, s1, ThenTask(s, f, a, k, o, src, token), a);
  }

  lemma ThenSlowLasts(s: State, f: Fiber, a: Addr, k': int, bind: bool, src: Addr, k: int, sync: bool, keepAlive: bool)
    requires src in s.heap && a !in s.heap && s.next !in s.origin
    ensures Lasts(s, ThenSlow(s, f, a, k', bind, src, k, sync, keepAlive), None)
  {
    hide ThenTask, Lasts;
    var task := Pending(s.next, Some(DependentClosure(bind, s.next, src)), keepAlive, sync, Ext(k'));
    ThenTaskLasts(s, f, a, task, DependentOrigin(bind, s.heap[src].uid), src, Ext(k));
  }

  lemma ThenFastLasts(s: State, f: Fiber, bind: bool, src: Addr, k: int)
    requires src in s.heap && s.heap[src].value.Some?
    ensures Lasts(s, ThenFast(s, f, bind, src, k), None)
  {
    ReleaseReclaims(s, src, Ext(k));
    hide Release;
  }

  lemma ResolveLasts(s: State, f: Fiber, p: Addr, v: Value)
    requires p in s.heap && s.heap[p].Closure().None? && (s.heap[p].value.None? ==> Open(s, p))
    ensures Lasts(s, ResolvePromiseStep(s, f, p, v), None)
  {
    if s.heap[p].value.None? {
      var s1 := s.(returned := s.returned[s.heap[p].uid := Val(v)]);
      SettleSteady(s1, f, p, v);
      hide Settle, Open;
      assert Steady(s1, ResolvePromiseStep(s, f, p, v), Some(p));
      SteadyLasts(s1, ResolvePromiseStep(s, f, p, v), p);
    }
  }

  lemma DropPromiseLasts(s: State, f: Fiber, p: Addr, v: Value)
    requires p in s.heap && s.heap[p].Closure().None? && (s.heap[p].value.None? ==> Open(s, p))
    ensures Lasts(s, DropPromiseStep(s, f, p, v), None)
  {
    var s1 := s.(heap := s.heap[p := s.heap[p].Remove(Promise).Add(Frame(f, |Stack(s, f)|))]);
    var s2 := Push(s1, f, Tail(p));
    ResolveLasts(s2, f, p, v);
    hide ResolvePromiseStep;
  }

  lemma DropLasts(s: State, t: Addr, o: Owner)
    requires t in s.heap
    ensures Lasts(s, Release(s, t, o), None)
  {
    ReleaseReclaims(s, t, o);
    hide Release;
  }

  lemma PlainLasts(s: State, a: Addr, k: int, v: Value)
    requires a !in s.heap && s.next !in s.final && s.next !in s.origin
    ensures Lasts(s, PureStep(s, a, k, v), None) && Lasts(s, PromiseStep(s, a), None)
  {
  }

  lemma OwnerLasts(s: State, t: Addr, o: Owner)
    requires t in s.heap
    ensures Lasts(s, AddOwner(s, t, o), None)
  {
  }

  lemma UserLasts(s: State, act: Action)
    requires Inv(s, Tight) && Enabled(s, act)
    requires !act.Start? && !act.LoopStep? && !act.TailStep? && !act.Get? && !act.ReturnValue? && !act.ReturnTask?
    ensures Lasts(s, NextUser(s, act), None)
  {
    assert s.next !in s.final && s.next !in s.origin;
    if act.ResolvePromise? || act.DropPromise? {
      PromiseIdle(s, act.p);
      if s.heap[act.p].value.None? {
        OpenTask(s, Tight, act.p);
      }
    }
    hide Inv, Open, Lasts, SpawnStep, PureStep, PromiseStep, AddOwner, ThenSlow, ThenFast, Release, ResolvePromiseStep, DropPromiseStep;
    match act
    case SpawnTask(a, k, keepAlive) => SpawnLasts(s, a, k, keepAlive);
    case Then(f, a, k', bind, src, k, sync, keepAlive) =>
      if sync && s.heap[src].value.Some? {
        ThenFastLasts(s, f, bind, src, k);
      } else {
        ThenSlowLasts(s, f, a, k', bind, src, k, sync, keepAlive);
      }
    case ResolvePromise(f, p, v) => ResolveLasts(s, f, p, v);
    case DropPromise(f, p, v) => DropPromiseLasts(s, f, p, v);
    case Drop(t, k) => DropLasts(s, t, Ext(k));
    case PureTask(a, k, v) => PlainLasts(s, a, k, v);
    case NewPromise(a) => PlainLasts(s, a, 0, 0);
    case PromiseTask(p, k) => OwnerLasts(s, p, Ext(k));
    case Dup(t, _, k) => OwnerLasts(s, t, Ext(k));
  }

  /** One step of any kind: what ended stays, live tasks keep their values and identities, and
      only the task that the step executes stops waiting. */
  lemma StepLasts(s: State, act: Action)
    requires Inv(s, Tight) && Enabled(s, act)
    ensures Lasts(s, Next(s, act), Started(s, act))
  {
    hide Inv, NextUser, NextTurn, NextGet, NextReturnValue, NextReturnTask, Lasts;
    match act
    case Get(f) => GetLasts(s, f);
    case ReturnTask(f, n, k) => ReturnTaskLasts(s, f, n, k);
    case ReturnValue(f, v, a, k) => ReturnValueLasts(s, f, v, a, k);
    case Start(_, _) => TurnLasts(s, act);
    case LoopStep(_) => TurnLasts(s, act);
    case TailStep(_) => TurnLasts(s, act);
    case _ => UserLasts(s, act);
  }
}
