/** What each call into the runtime makes of its own arguments: the tasks, flags, values and
    identities that the theorems about runs speak of. */
module TaskMade {
  import opened Wrappers
  import opened TaskMachine
  import opened TaskInvariant
  import opened TaskFrames
  import opened TaskFinish
  import opened TaskReturns
  import opened TaskRuns
  import opened TaskSteady
  import opened TaskTheorems
  import opened TaskDependents
  import opened TaskKept

  // ---- New tasks ----

  // A new task with a closure, held by its maker and, if it keeps itself alive, by the schedule.
  predicate IsNew(s: State, s': State, a: Addr, k: int, c: Closure, keepAlive: bool, sync: bool) {
    && s'.next == s.next + 1 && s'.calls == s.calls && s'.stacks == s.stacks && s'.final == s.final && s'.returned == s.returned
    && a in s'.heap
    && s'.heap[a].uid == s.next && s'.heap[a].standsFor == {s.next} && s'.heap[a].value == None
    && s'.heap[a].owners == (if keepAlive then {Ext(k), Scheduled} else {Ext(k)})
    && s'.heap[a].imp.Some?
    && s'.heap[a].imp.value.closure == Some(c) && s'.heap[a].imp.value.keepAlive == keepAlive && s'.heap[a].imp.value.sync == sync
    && !s'.heap[a].imp.value.running && !s'.heap[a].imp.value.deleted
  }

  lemma Fresh(s: State)
    requires Inv(s, Tight)
    ensures s.next !in s.origin && s.next !in s.final && s.next !in s.returned && s.next !in s.applied
  {
    hide Shape, HeldOk, KeepOk, StacksOk, WaitsOk, ProgressOk, MeaningOk;
  }

  /** A spawned task: ready at once, with the flag it was given. */
  lemma SpawnMakes(s: State, a: Addr, k: int, keepAlive: bool)
    requires Inv(s, Tight) && a !in s.heap
    ensures Enabled(s, SpawnTask(a, k, keepAlive))
    ensures var s' := Next(s, SpawnTask(a, k, keepAlive));
            && IsNew(s, s', a, k, Call(s.next), keepAlive, false)
            && s'.origin == s.origin[s.next := Spawn]
            && a in s'.queued && s'.queued[a] == None
            && forall b :: b in s.heap ==> b in s'.heap && s'.heap[b] == s.heap[b]
  {
    hide Inv;
    SpawnIs(s, a, k, keepAlive);
  }

  lemma SpawnIs(s: State, a: Addr, k: int, keepAlive: bool)
    requires a !in s.heap
    ensures var s' := SpawnStep(s, a, k, keepAlive);
            && s'.heap == s.heap[a := Pending(s.next, Some(Call(s.next)), keepAlive, false, Ext(k)).KeepScheduled(None)]
            && s'.queued == s.queued[a := None] && s'.origin == s.origin[s.next := Spawn]
            && s'.next == s.next + 1 && s'.calls == s.calls && s'.stacks == s.stacks && s'.final == s.final && s'.returned == s.returned
  {
    hide EnqueueSync;
  }

  /** A map or a bind of a task, unless it is synchronous and the task has its value: a task with
      the flags it was given, which owns its source; it is ready, or waits for the source in the
      scheduler or among the source's synchronous dependents. */
  lemma ThenMakes(s: State, f: Fiber, a: Addr, k': int, bind: bool, src: Addr, k: int, sync: bool, keepAlive: bool)
    requires Inv(s, Tight) && InUserCode(s, f) && a !in s.heap && src in s.heap && Ext(k) in s.heap[src].owners
    requires !sync || s.heap[src].value.None?
    ensures Enabled(s, Then(f, a, k', bind, src, k, sync, keepAlive))
    ensures var s' := Next(s, Then(f, a, k', bind, src, k, sync, keepAlive));
            && IsNew(s, s', a, k', if bind then BindFn(s.next, src) else MapFn(s.next, src), keepAlive, sync)
            && s'.origin == s.origin[s.next := if bind then Bind(s.heap[src].uid) else Map(s.heap[src].uid)]
            && src in s'.heap && s'.heap[src] == s.heap[src].(owners := s.heap[src].owners - {Ext(k)} + {HeldBy(a)})
            && (!sync ==> a in s'.queued && s'.queued[a] == if s.heap[src].value.None? then Some(src) else None)
            && (sync ==> a in s'.syncRegistered && s'.syncRegistered[a] == src
                         && src in s'.syncDependents && a in s'.syncDependents[src])
            && forall b :: b in s.heap && b != src ==> b in s'.heap && s'.heap[b] == s.heap[b]
  {
    ThenNext(s, f, a, k', bind, src, k, sync, keepAlive);
    hide *;
    ThenIs(s, f, a, k', bind, src, k, sync, keepAlive);
    ThenNew(s, ThenSlow(s, f, a, k', bind, src, k, sync, keepAlive), a, k', bind, src, k, sync, keepAlive);
    ThenTables(s, ThenSlow(s, f, a, k', bind, src, k, sync, keepAlive), a, k', bind, src, k, sync, keepAlive);
  }

  lemma ThenNext(s: State, f: Fiber, a: Addr, k': int, bind: bool, src: Addr, k: int, sync: bool, keepAlive: bool)
    requires Inv(s, Tight) && InUserCode(s, f) && a !in s.heap && src in s.heap && Ext(k) in s.heap[src].owners
    requires !sync || s.heap[src].value.None?
    ensures Enabled(s, Then(f, a, k', bind, src, k, sync, keepAlive))
    ensures Next(s, Then(f, a, k', bind, src, k, sync, keepAlive)) == ThenSlow(s, f, a, k', bind, src, k, sync, keepAlive)
  {
    hide Inv, ThenFast, ThenSlow;
  }

  lemma ThenNew(s: State, s': State, a: Addr, k': int, bind: bool, src: Addr, k: int, sync: bool, keepAlive: bool)
    requires a !in s.heap && src in s.heap && ThenFrom(s, s', a, k', bind, src, k, sync, keepAlive)
    ensures IsNew(s, s', a, k', if bind then BindFn(s.next, src) else MapFn(s.next, src), keepAlive, sync)
  {
  }

  lemma ThenTables(s: State, s': State, a: Addr, k': int, bind: bool, src: Addr, k: int, sync: bool, keepAlive: bool)
    requires a !in s.heap && src in s.heap && ThenFrom(s, s', a, k', bind, src, k, sync, keepAlive)
    ensures s'.origin == s.origin[s.next := if bind then Bind(s.heap[src].uid) else Map(s.heap[src].uid)]
    ensures src in s'.heap && s'.heap[src] == s.heap[src].(owners := s.heap[src].owners - {Ext(k)} + {HeldBy(a)})
    ensures !sync ==> a in s'.queued && s'.queued[a] == if s.heap[src].value.None? then Some(src) else None
    ensures sync ==> a in s'.syncRegistered && s'.syncRegistered[a] == src && src in s'.syncDependents && a in s'.syncDependents[src]
    ensures forall b :: b in s.heap && b != src ==> b in s'.heap && s'.heap[b] == s.heap[b]
  {
    hide Task.KeepScheduled, Pending;
  }

  // The tables after a map or a bind was made.
  ghost predicate ThenFrom(s: State, s': State, a: Addr, k': int, bind: bool, src: Addr, k: int, sync: bool, keepAlive: bool)
    requires src in s.heap
  {
    var c := if bind then BindFn(s.next, src) else MapFn(s.next, src);
    && s'.heap == s.heap[a := Pending(s.next, Some(c), keepAlive, sync, Ext(k'))][src := s.heap[src].Remove(Ext(k)).Add(HeldBy(a))]
                        [a := Pending(s.next, Some(c), keepAlive, sync, Ext(k')).KeepScheduled(Some(src))]
    && (!sync ==> s'.queued == s.queued[a := if s.heap[src].value.None? then Some(src) else None])
    && (sync ==> s'.syncRegistered == s.syncRegistered[a := src]
                 && s'.syncDependents == s.syncDependents[src := Dependents(s, src) + [a]])
    && s'.origin == s.origin[s.next := if bind then Bind(s.heap[src].uid) else Map(s.heap[src].uid)]
    && s'.next == s.next + 1 && s'.calls == s.calls && s'.stacks == s.stacks && s'.final == s.final && s'.returned == s.returned
  }

  lemma ThenIs(s: State, f: Fiber, a: Addr, k': int, bind: bool, src: Addr, k: int, sync: bool, keepAlive: bool)
    requires a !in s.heap && src in s.heap && (!sync || s.heap[src].value.None?)
    ensures ThenFrom(s, ThenSlow(s, f, a, k', bind, src, k, sync, keepAlive), a, k', bind, src, k, sync, keepAlive)
  {
    hide Begin;
    if sync {
    } else {
    }
  }

  /** A synchronous map or bind of a task with a value: the function is applied to that value in
      the caller. */
  lemma ThenApplies(s: State, f: Fiber, a: Addr, k': int, bind: bool, src: Addr, k: int, keepAlive: bool)
    requires Inv(s, Tight) && InUserCode(s, f) && a !in s.heap && src in s.heap && Ext(k) in s.heap[src].owners
    requires s.heap[src].value.Some?
    ensures Enabled(s, Then(f, a, k', bind, src, k, true, keepAlive))
    ensures var s' := Next(s, Then(f, a, k', bind, src, k, true, keepAlive)); var of, v := s.heap[src].uid, s.heap[src].value.value;
            && Stack(s', f) == Stack(s, f) + [if bind then FastBind(of, v) else FastMap(of, v)]
            && s'.next == s.next && s'.origin == s.origin && s'.calls == s.calls && s'.final == s.final
  {
    hide Inv, ThenSlow;
    CollectOnlyReclaims(RemoveOwner(s, src, Ext(k)), src);
    hide Collect;
  }

  /** A pure task has its value; a promise's task has none. */
  lemma PlainMakes(s: State, a: Addr, k: int, v: Value)
    requires Inv(s, Tight) && a !in s.heap
    ensures Enabled(s, PureTask(a, k, v)) && Enabled(s, NewPromise(a))
    ensures var s' := Next(s, PureTask(a, k, v));
            && s'.heap == s.heap[a := Task(s.next, {s.next}, Some(v), None, {Ext(k)})] && s'.next == s.next + 1
            && s'.origin == s.origin[s.next := Pure(v)] && s'.final == s.final[s.next := v]
    ensures var s' := Next(s, NewPromise(a));
            && s'.heap == s.heap[a := Task(s.next, {s.next}, None, Some(Imp(None, false, false, false, None, false)), {Promise})]
            && s'.next == s.next + 1 && s'.origin == s.origin[s.next := PromiseResult] && s'.final == s.final
  {
    hide Inv;
  }

  // ---- Executions ----

  /** The scheduler may execute a ready task on an idle fiber; then it runs, with its closure. */
  lemma StartExecutes(s: State, f: Fiber, t: Addr)
    requires Inv(s, Tight) && Stack(s, f) == [] && t in s.queued && s.queued[t] == None
    ensures Enabled(s, Start(f, t)) && t in s.heap && s.heap[t].Closure().Some?
    ensures var s' := Next(s, Start(f, t)); var c := s.heap[t].Closure().value;
            && t !in s'.queued && t in s'.heap && s'.heap[t].Running() && s'.heap[t].Closure() == None
            && t in s'.calls && s'.calls[t] == Invocation(f, 0, c, c.Call?)
            && Stack(s', f) == [Exec(t, s.heap[t].imp.value.keepAlive, CurrentTask(s, f))]
            && s'.applied == if c.Call? then s.applied + [c.fn] else s.applied
  {
    CanTurn(s, f);
    hide Inv;
  }

  /** The function of a running map or bind is applied to the value of its source. */
  lemma GetApplies(s: State, f: Fiber, t: Addr)
    requires Inv(s, Tight) && Top(s, f).Some? && Top(s, f).value.Exec? && Top(s, f).value.task == t
    requires t in s.calls && !s.calls[t].called && (s.calls[t].closure.MapFn? || s.calls[t].closure.BindFn?)
    requires s.calls[t].closure.src in s.heap && s.heap[s.calls[t].closure.src].value.Some?
    ensures Enabled(s, Get(f))
    ensures var s' := Next(s, Get(f)); var c := s.calls[t].closure;
            && s'.arg == s.arg[c.fn := s.heap[c.src].value.value] && s'.applied == s.applied + [c.fn]
            && t in s'.calls && s'.calls[t] == s.calls[t].(called := true) && s'.returned == s.returned
  {
    NextGetIs(s, f, t);
    ArgumentIs(s, t);
    hide Inv, Next, GetArgument;
  }

  lemma NextGetIs(s: State, f: Fiber, t: Addr)
    requires Inv(s, Tight) && Enabled(s, Get(f)) && Top(s, f).value.task == t && !s.calls[t].closure.BindResult?
    ensures Next(s, Get(f)) == GetArgument(s, t)
  {
    CanGet(s, f);
    hide Inv, GetResult, GetArgument;
  }

  lemma ArgumentIs(s: State, t: Addr)
    requires t in s.calls && (s.calls[t].closure.MapFn? || s.calls[t].closure.BindFn?)
    requires s.calls[t].closure.src in s.heap && s.heap[s.calls[t].closure.src].value.Some?
    ensures var s' := GetArgument(s, t); var c := s.calls[t].closure;
            && s'.arg == s.arg[c.fn := s.heap[c.src].value.value] && s'.applied == s.applied + [c.fn]
            && s'.calls == s.calls[t := s.calls[t].(called := true)] && s'.returned == s.returned
  {
    var c := s.calls[t].closure;
    var s2 := TakeSource(s, t).(arg := s.arg[c.fn := s.heap[c.src].value.value], applied := s.applied + [c.fn]);
    CollectOnlyReclaims(s2, c.src);
    hide Collect;
  }

  /** A turn of the loop of resolve_task: the next entry is executed if it is registered with the
      loop's task, and only then; at the end, what is queued behind that task becomes ready. */
  lemma LoopTurns(s: State, f: Fiber)
    requires Inv(s, Tight) && |Stack(s, f)| > 0 && Stack(s, f)[|Stack(s, f)| - 1].Resolve?
    ensures Enabled(s, LoopStep(f))
    ensures var s' := Next(s, LoopStep(f)); var below, top := Stack(s, f)[..|Stack(s, f)| - 1], Stack(s, f)[|Stack(s, f)| - 1];
            if top.deps == [] then
              && Stack(s', f) == below && s'.heap == s.heap && s'.syncRegistered == s.syncRegistered && s'.queued.Keys == s.queued.Keys
              && forall a :: a in s.queued ==> s'.queued[a] == if s.queued[a] == Some(top.task) then None else s.queued[a]
            else
              var d, rest := top.deps[0], below + [top.(deps := top.deps[1..])];
              if d in s.syncRegistered && s.syncRegistered[d] == top.task then
                && d in s.heap && s.heap[d].Closure().Some?
                && s'.syncRegistered == s.syncRegistered - {d} && s'.queued == s.queued
                && Stack(s', f) == rest + [Exec(d, s.heap[d].imp.value.keepAlive, CurrentTask(s, f))]
                && d in s'.calls && s'.calls[d].closure == s.heap[d].Closure().value
              else s' == s.(stacks := s.stacks[f := rest])
  {
    CanTurn(s, f);
    hide Inv, LoopTurn;
    assert Next(s, LoopStep(f)) == LoopTurn(s, f);
    if Top(s, f).value.deps == [] {
      LoopEnds(s, f);
    } else if Hits(s, Top(s, f).value) {
      LoopHits(s, f);
    } else {
      LoopMisses(s, f);
    }
  }

  lemma LoopEnds(s: State, f: Fiber)
    requires Top(s, f).Some? && Top(s, f).value.Resolve? && Top(s, f).value.deps == []
    requires forall n :: n in s.syncRegistered ==> n in s.heap && s.heap[n].Closure().Some?
    ensures var s' := LoopTurn(s, f);
            && Stack(s', f) == Stack(s, f)[..|Stack(s, f)| - 1] && s'.heap == s.heap && s'.syncRegistered == s.syncRegistered
            && s'.queued.Keys == s.queued.Keys
            && forall a :: a in s.queued ==> s'.queued[a] == if s.queued[a] == Some(Top(s, f).value.task) then None else s.queued[a]
  {
  }

  lemma LoopHits(s: State, f: Fiber)
    requires Top(s, f).Some? && Top(s, f).value.Resolve? && Top(s, f).value.deps != [] && Hits(s, Top(s, f).value)
    requires forall n :: n in s.syncRegistered ==> n in s.heap && s.heap[n].Closure().Some?
    ensures var s' := LoopTurn(s, f); var top := Top(s, f).value; var d := top.deps[0];
            && s'.syncRegistered == s.syncRegistered - {d} && s'.queued == s.queued
            && Stack(s', f) == Stack(s, f)[..|Stack(s, f)| - 1] + [top.(deps := top.deps[1..])] + [Exec(d, s.heap[d].imp.value.keepAlive, CurrentTask(s, f))]
            && d in s'.calls && s'.calls[d].closure == s.heap[d].Closure().value
  {
  }

  lemma LoopMisses(s: State, f: Fiber)
    requires Top(s, f).Some? && Top(s, f).value.Resolve? && Top(s, f).value.deps != [] && !Hits(s, Top(s, f).value)
    requires forall n :: n in s.syncRegistered ==> n in s.heap && s.heap[n].Closure().Some?
    ensures var top := Top(s, f).value;
            LoopTurn(s, f) == s.(stacks := s.stacks[f := Stack(s, f)[..|Stack(s, f)| - 1] + [top.(deps := top.deps[1..])]])
  {
  }

  /** The end of an execution gives up the reference that kept the task alive meanwhile; the task
      goes if it was the last one. */
  lemma TailReleases(s: State, f: Fiber)
    requires Inv(s, Tight) && |Stack(s, f)| > 0 && Stack(s, f)[|Stack(s, f)| - 1].Tail?
    ensures Enabled(s, TailStep(f))
    ensures var s' := Next(s, TailStep(f)); var n := |Stack(s, f)| - 1; var t, o := Stack(s, f)[n].task, Frame(f, n);
            && t in s.heap && o in s.heap[t].owners
            && (t in s'.heap <==> s.heap[t].owners != {o} || s.heap[t].Running() || s.heap[t].Deleted())
            && (s.heap[t].owners != {o} ==>
                  s' == s.(stacks := s.stacks[f := Stack(s, f)[..n]], heap := s.heap[t := s.heap[t].(owners := s.heap[t].owners - {o})]))
  {
    CanTurn(s, f);
    TailOwner(s, f);
    hide Inv, Release;
    var n := |Stack(s, f)| - 1;
    ReleaseIs(Pop(s, f), Stack(s, f)[n].task, Frame(f, n));
  }

  lemma TailOwner(s: State, f: Fiber)
    requires Inv(s, Tight) && Top(s, f).Some? && Top(s, f).value.Tail?
    ensures var t := Top(s, f).value.task; t in s.heap && Frame(f, |Stack(s, f)| - 1) in s.heap[t].owners
  {
    hide ProgressOk, HistoryOk, MeaningOk, WaitsOk;
    assert Keeps(s, f, |Stack(s, f)| - 1, Top(s, f).value.task);
  }

  /** What the function of a task returns is recorded as its own result; the task, unless it was
      deleted meanwhile, has that value, and everything it stands for ends with it. */
  lemma ReturnGives(s: State, f: Fiber, t: Addr, v: Value, a: Addr, k: int)
    requires Inv(s, Tight) && Top(s, f).Some? && Top(s, f).value.Exec? && Top(s, f).value.task == t
    requires t in s.calls && s.calls[t].called && (s.calls[t].closure.Call? || s.calls[t].closure.MapFn?)
    ensures Enabled(s, ReturnValue(f, v, a, k)) && t in s.heap
    ensures var s' := Next(s, ReturnValue(f, v, a, k));
            && s'.returned == s.returned[s.calls[t].closure.fn := Val(v)]
            && (!s.heap[t].Deleted() ==>
                  && t in s'.heap && s'.heap[t].value == Some(v)
                  && forall u :: u in s.heap[t].standsFor ==> u in s'.final && s'.final[u] == v)
  {
    ReturnEnabled(s, f, t, v, a, k);
    CanReturn(s, f);
    hide *;
    NextReturnIs(s, f, t, v, a, k);
    ReturnStepGives(s, f, t, v);
  }

  lemma ReturnEnabled(s: State, f: Fiber, t: Addr, v: Value, a: Addr, k: int)
    requires Top(s, f).Some? && Top(s, f).value.Exec? && Top(s, f).value.task == t
    requires t in s.calls && s.calls[t].called && (s.calls[t].closure.Call? || s.calls[t].closure.MapFn?)
    ensures Enabled(s, ReturnValue(f, v, a, k))
  {
    hide InUserCode, HasRef;
  }

  lemma ReturnStepGives(s: State, f: Fiber, t: Addr, v: Value)
    requires OnTop(s, f, t) && s.heap[t].value.None? && !s.calls[t].closure.BindResult?
    ensures var s' := Finish(s.(returned := s.returned[s.calls[t].closure.fn := Val(v)]), f, t, Some(v));
            && s'.returned == s.returned[s.calls[t].closure.fn := Val(v)]
            && (!s.heap[t].Deleted() ==>
                  && t in s'.heap && s'.heap[t].value == Some(v)
                  && forall u :: u in s.heap[t].standsFor ==> u in s'.final && s'.final[u] == v)
  {
    var s1 := s.(returned := s.returned[s.calls[t].closure.fn := Val(v)]);
    assert OnTop(s1, f, t) && s1.heap == s.heap;
    hide Finish;
    FinishGives(s1, f, t, v);
  }

  lemma NextReturnIs(s: State, f: Fiber, t: Addr, v: Value, a: Addr, k: int)
    requires Inv(s, Tight) && Enabled(s, ReturnValue(f, v, a, k)) && OnTop(s, f, t) && !s.calls[t].closure.BindResult?
    ensures Next(s, ReturnValue(f, v, a, k)) == Finish(s.(returned := s.returned[s.calls[t].closure.fn := Val(v)]), f, t, Some(v))
  {
    hide Inv, Finish, FastMapStep, Enabled, NextUser, NextTurn, NextGet, NextReturnTask;
  }

  lemma FinishGives(s: State, f: Fiber, t: Addr, v: Value)
    requires OnTop(s, f, t) && s.heap[t].value.None?
    ensures var s' := Finish(s, f, t, Some(v));
            && s'.returned == s.returned
            && (!s.heap[t].Deleted() ==>
                  && t in s'.heap && s'.heap[t].value == Some(v)
                  && forall u :: u in s.heap[t].standsFor ==> u in s'.final && s'.final[u] == v)
  {
    var e, i := EndCall(s, f, t), EndPush(s, f, t);
    EndSteady(s, f, t);
    EndReturned(s, f, t);
    if s.heap[t].Deleted() {
      DeactivateOnlyReclaims(e, t);
      hide Deactivate, EndCall;
    } else {
      FinishSettles(s, f, t, v);
      hide Finish, EndCall, EndPush;
    }
  }

  lemma EndReturned(s: State, f: Fiber, t: Addr)
    requires OnTop(s, f, t)
    ensures EndCall(s, f, t).returned == s.returned && EndPush(s, f, t).returned == s.returned
  {
  }

  /** The function of a synchronous map returns in its caller: a task with that value is made. */
  lemma FastMapMakes(s: State, f: Fiber, v: Value, a: Addr, k: int)
    requires Inv(s, Tight) && Top(s, f).Some? && Top(s, f).value.FastMap? && a !in s.heap
    ensures Enabled(s, ReturnValue(f, v, a, k))
    ensures var s' := Next(s, ReturnValue(f, v, a, k)); var frame := Top(s, f).value;
            && s'.heap == s.heap[a := Task(s.next, {s.next}, Some(v), None, {Ext(k)})] && s'.next == s.next + 1
            && s'.origin == s.origin[s.next := Map(frame.of)] && s'.arg == s.arg[s.next := frame.arg]
            && s'.returned == s.returned[s.next := Val(v)] && s'.final == s.final[s.next := v] && s'.applied == s.applied + [s.next]
            && Stack(s', f) == Stack(s, f)[..|Stack(s, f)| - 1]
  {
    hide Inv;
  }

  /** The task that the function of a bind returns is recorded; in a caller it is the result itself. */
  lemma ReturnFollows(s: State, f: Fiber, n: Addr, k: int)
    requires Inv(s, Tight) && Enabled(s, ReturnTask(f, n, k))
    ensures var s' := Next(s, ReturnTask(f, n, k)); var frame := Top(s, f).value;
            && (frame.Exec? ==> frame.task in s.calls && s'.returned == s.returned[s.calls[frame.task].closure.fn := Tsk(s.heap[n].uid)])
            && (frame.FastBind? ==>
                  && s'.returned == s.returned[s.next := Tsk(s.heap[n].uid)] && s'.arg == s.arg[s.next := frame.arg]
                  && s'.origin == s.origin[s.next := Bind(frame.of)] && s'.next == s.next + 1
                  && n in s'.heap && s'.heap[n] == s.heap[n].(standsFor := s.heap[n].standsFor + {s.next}))
  {
    if Top(s, f).value.FastBind? {
      hide Inv, BindReturn;
    } else {
      CanReturn(s, f);
      var t := Top(s, f).value.task;
      OpenTask(s, Tight, t);
      if CanFuse(s, t, n) {
        TaskNested.FusedIsOurs(s, t, n, k);
        TaskNested.CanBeFused(s, t, n);
      }
      hide Inv, BindReturn;
      BindReturned(s, f, t, n, k);
    }
  }

  lemma BindReturned(s: State, f: Fiber, t: Addr, n: Addr, k: int)
    requires ReturnsTask(s, f, t, n) && OnTop(s, f, t) && s.calls[t].called && s.heap[t].value.None? && (s.heap[n].value.Some? ==> t != n)
    requires CanFuse(s, t, n) ==> TaskNested.Fusable(s, t, n)
    ensures BindReturn(s, f, t, n, k).returned == s.returned[s.calls[t].closure.fn := Tsk(s.heap[n].uid)]
  {
    var s1 := BindRecord(s, t, n);
    hide Finish, Fuse, Forward, BindValue;
    if s.heap[n].value.Some? {
      BindValueReturned(s1, f, t, n, k);
    } else if CanFuse(s1, t, n) {
      FuseOnTop(s1, f, t, n);
      FuseReturned(s1, f, t, n);
      RebindReturned(Fuse(s1, f, t, n), f, t);
    } else {
      ForwardOnTop(s1, f, t, n, k);
      ForwardReturned(s1, f, t, n, k);
      RebindReturned(Forward(s1, f, t, n, Ext(k)), f, t);
    }
  }

  lemma BindValueReturned(s: State, f: Fiber, t: Addr, n: Addr, k: int)
    requires ReturnsTask(s, f, t, n) && OnTop(s, f, t) && s.calls[t].called && s.heap[t].value.None? && s.heap[n].value.Some? && t != n
    ensures BindValue(s, f, t, n, k).returned == s.returned
  {
    var s1 := RemoveOwner(s, n, Ext(k));
    CollectOnlyReclaims(s1, n);
    assert StillRuns(s1, Collect(s1, n), t);
    AfterCollect(s1, n, f, t);
    hide Collect, Finish;
    FinishGives(Collect(s1, n), f, t, s.heap[n].value.value);
  }

  lemma EnqueueReturned(s: State, f: Fiber, t: Addr)
    requires t in s.heap && s.heap[t].Closure().Some?
    ensures Enqueue(s, f, t).returned == s.returned
  {
    if s.heap[t].imp.value.sync {
      SyncReturned(s, f, t);
    }
    hide EnqueueSync;
  }

  lemma SyncReturned(s: State, f: Fiber, t: Addr)
    requires t in s.heap && s.heap[t].Closure().Some?
    ensures EnqueueSync(s, f, t).returned == s.returned
  {
    if Unresolved(s, s.heap[t].imp.value.nextDep) {
      hide Begin;
    } else if !s.heap[t].imp.value.running {
    }
  }

  lemma RebindReturned(s: State, f: Fiber, t: Addr)
    requires OnTop(s, f, t) && s.heap[t].Closure().Some?
    ensures Finish(s, f, t, None).returned == s.returned
  {
    var e, i := EndCall(s, f, t), EndPush(s, f, t);
    EndSteady(s, f, t);
    EndReturned(s, f, t);
    TaskNested.EndTask(s, f, t, t);
    if s.heap[t].Deleted() {
      DeactivateOnlyReclaims(e, t);
      hide Deactivate, EndCall, EndPush;
    } else {
      assert i == LeaveTail(e, f, t, Top(s, f).value.keep);
      hide EndCall, EndPush, LeaveTail;
      EnqueueReturned(i, f, t);
      hide Enqueue;
    }
  }

  lemma FuseReturned(s: State, f: Fiber, t: Addr, n: Addr)
    requires t in s.heap && s.heap[t].Running() && TaskNested.Fusable(s, t, n)
    ensures Fuse(s, f, t, n).returned == s.returned
  {
    var y := TaskNested.Fused(s, t, n);
    TaskNested.FuseIs(s, f, t, n);
    TaskNested.FusedRest(s, t, n);
    hide Fuse, TaskNested.Fused;
    EnqueueReturned(y, f, t);
    hide Enqueue;
  }

  lemma ForwardReturned(s: State, f: Fiber, t: Addr, n: Addr, k: int)
    requires t in s.heap && s.heap[t].Running() && n in s.heap
    ensures Forward(s, f, t, n, Ext(k)).returned == s.returned
  {
    var y := TaskNested.Forwarded(s, t, n, Ext(k));
    TaskNested.ForwardIs(s, f, t, n, Ext(k));
    TaskNested.ForwardedRest(s, t, n, Ext(k));
    hide Forward, TaskNested.Forwarded;
    EnqueueReturned(y, f, t);
    hide Enqueue;
  }

  /** How a running task goes on with an unresolved task `n` that its function returned, unless it
      was deleted meanwhile: it takes over what `n` stands for, and `n` is gone, exactly when `n` has a
      closure, does not run, has no reference but ours and its keep-alive one, and keeps itself
      alive only if the running task does; otherwise it owns `n` and follows it. */
  lemma ReturnContinues(s: State, f: Fiber, t: Addr, n: Addr, k: int)
    requires Inv(s, Tight) && Enabled(s, ReturnTask(f, n, k)) && Top(s, f).value.Exec? && Top(s, f).value.task == t
    requires s.heap[n].value.None? && t in s.heap && !s.heap[t].Deleted()
    ensures var s' := Next(s, ReturnTask(f, n, k)); var kn := s.heap[n];
            if kn.imp.Some? && kn.imp.value.closure.Some? && !kn.imp.value.running
               && |kn.owners| == (if kn.imp.value.keepAlive then 2 else 1)
               && s.heap[t].imp.Some? && (s.heap[t].imp.value.keepAlive || !kn.imp.value.keepAlive)
            then n !in s'.heap && (t in s'.heap ==> kn.standsFor <= s'.heap[t].standsFor)
            else n in s'.heap && HeldBy(t) in s'.heap[n].owners && (t != n ==> Ext(k) !in s'.heap[n].owners)
  {
    CanReturn(s, f);
    if CanFuse(s, t, n) {
      TaskNested.FusedIsOurs(s, t, n, k);
      TaskNested.CanBeFused(s, t, n);
    }
    NextBindIs(s, f, t, n, k);
    hide Inv, BindReturn, Next;
    if CanFuse(s, t, n) {
      FuseContinues(s, f, t, n, k);
    } else {
      ForwardContinues(s, f, t, n, k);
    }
  }

  lemma NextBindIs(s: State, f: Fiber, t: Addr, n: Addr, k: int)
    requires Inv(s, Tight) && Enabled(s, ReturnTask(f, n, k)) && Top(s, f).value.Exec? && Top(s, f).value.task == t
    requires s.heap[n].value.None?
    ensures ReturnsTask(s, f, t, n) && Next(s, ReturnTask(f, n, k)) == BindReturn(s, f, t, n, k)
  {
    CanReturn(s, f);
    hide Inv, BindReturn;
  }

  lemma FuseContinues(s: State, f: Fiber, t: Addr, n: Addr, k: int)
    requires ReturnsTask(s, f, t, n) && OnTop(s, f, t) && s.calls[t].called && s.heap[t].value.None? && s.heap[n].value.None?
    requires CanFuse(s, t, n) && TaskNested.Fusable(s, t, n)
    ensures var s' := BindReturn(s, f, t, n, k); n !in s'.heap && (t in s'.heap ==> s.heap[n].standsFor <= s'.heap[t].standsFor)
  {
    hide Finish, Fuse, Steady;
    var s1 := BindRecord(s, t, n);
    FuseOnTop(s1, f, t, n);
    FuseOpen(s1, f, t, n);
    FusedGone(s1, f, t, n);
    FinishBindSteady(Fuse(s1, f, t, n), f, t);
    SteadyMeans(Fuse(s1, f, t, n), BindReturn(s, f, t, n, k), t, n);
  }

  lemma SteadyMeans(s: State, s': State, t: Addr, n: Addr)
    requires Steady(s, s', Some(t)) && t in s.heap && n !in s.heap
    ensures n !in s'.heap && (t in s'.heap ==> s.heap[t].standsFor <= s'.heap[t].standsFor)
  {
  }

  lemma FusedGone(s: State, f: Fiber, t: Addr, n: Addr)
    requires t in s.heap && s.heap[t].Running() && TaskNested.Fusable(s, t, n)
    ensures n !in Fuse(s, f, t, n).heap
  {
    TaskNested.FuseIs(s, f, t, n);
    TaskNested.FusedTask(s, t, n, n);
    TaskNested.FusedTask(s, t, n, t);
    hide Fuse, TaskNested.Fused;
    RunningEnqueued(TaskNested.Fused(s, t, n), f, t);
  }

  lemma ForwardContinues(s: State, f: Fiber, t: Addr, n: Addr, k: int)
    requires ReturnsTask(s, f, t, n) && OnTop(s, f, t) && s.calls[t].called && s.heap[t].value.None? && s.heap[n].value.None?
    requires !CanFuse(s, t, n) && !s.heap[t].Deleted()
    ensures var s' := BindReturn(s, f, t, n, k);
            n in s'.heap && HeldBy(t) in s'.heap[n].owners && (t != n ==> Ext(k) !in s'.heap[n].owners)
  {
    hide Finish, Forward, Fuse;
    var s1 := BindRecord(s, t, n);
    var s2 := Forward(s1, f, t, n, Ext(k));
    ForwardOnTop(s1, f, t, n, k);
    ForwardHeap(s1, f, t, n, k);
    FollowHeap(s2, f, t, n);
  }

  lemma ForwardHeap(s: State, f: Fiber, t: Addr, n: Addr, k: int)
    requires t in s.heap && s.heap[t].Running() && n in s.heap
    ensures var s2 := Forward(s, f, t, n, Ext(k));
            && n in s2.heap && t in s2.heap && HeldBy(t) in s2.heap[n].owners && (t != n ==> Ext(k) !in s2.heap[n].owners)
            && s2.heap[n].value == s.heap[n].value && s2.heap[t].Deleted() == s.heap[t].Deleted()
            && s2.heap[t].imp.Some? && s2.heap[t].imp.value.nextDep == Some(n)
  {
    TaskNested.ForwardIs(s, f, t, n, Ext(k));
    TaskNested.ForwardedTask(s, t, n, Ext(k), n);
    TaskNested.ForwardedTask(s, t, n, Ext(k), t);
    hide Forward, TaskNested.Forwarded;
    RunningEnqueued(TaskNested.Forwarded(s, t, n, Ext(k)), f, t);
  }

  lemma FollowHeap(s: State, f: Fiber, t: Addr, n: Addr)
    requires OnTop(s, f, t) && s.heap[t].Closure().Some? && !s.heap[t].Deleted()
    requires n in s.heap && s.heap[n].value.None? && s.heap[t].imp.value.nextDep == Some(n)
    ensures var s' := Finish(s, f, t, None); n in s'.heap && s'.heap[n].owners == s.heap[n].owners
  {
    var e, i := EndCall(s, f, t), EndPush(s, f, t);
    EndSteady(s, f, t);
    TaskNested.EndTask(s, f, t, t);
    TaskNested.EndTask(s, f, t, n);
    assert i == LeaveTail(e, f, t, Top(s, f).value.keep);
    hide EndCall, EndPush, LeaveTail;
    EnqueueWaits(i, f, t);
    hide Enqueue;
  }

  // ---- Promises ----

  /** Resolving a promise gives its task that value, unless it has one already. */
  lemma ResolveGives(s: State, f: Fiber, p: Addr, v: Value)
    requires Inv(s, Tight) && InUserCode(s, f) && p in s.heap && Promise in s.heap[p].owners
    ensures Enabled(s, ResolvePromise(f, p, v)) && Enabled(s, DropPromise(f, p, v))
    ensures var s' := Next(s, ResolvePromise(f, p, v));
            if s.heap[p].value.Some? then s' == s
            else && p in s'.heap && s'.heap[p].value == Some(v) && s'.returned == s.returned[s.heap[p].uid := Val(v)]
                 && (forall u :: u in s.heap[p].standsFor ==> u in s'.final && s'.final[u] == v)
    ensures var s' := Next(s, DropPromise(f, p, v));
            && p in s'.heap && s'.heap[p].value == (if s.heap[p].value.Some? then s.heap[p].value else Some(v))
            && Promise !in s'.heap[p].owners
            && (s.heap[p].value.None? ==> s'.returned == s.returned[s.heap[p].uid := Val(v)])
  {
    hide Inv;
    SettleGives(s, f, p, v);
    DropGives(s, f, p, v);
  }

  lemma SettleGives(s: State, f: Fiber, p: Addr, v: Value)
    requires p in s.heap
    ensures var s' := ResolvePromiseStep(s, f, p, v);
            if s.heap[p].value.Some? then s' == s
            else && s'.heap == s.heap[p := s.heap[p].(value := Some(v), imp := None)] && s'.returned == s.returned[s.heap[p].uid := Val(v)]
                 && (forall u :: u in s.heap[p].standsFor ==> u in s'.final && s'.final[u] == v)
  {
  }

  lemma DropGives(s: State, f: Fiber, p: Addr, v: Value)
    requires p in s.heap
    ensures var s' := DropPromiseStep(s, f, p, v);
            && p in s'.heap && s'.heap[p].value == (if s.heap[p].value.Some? then s.heap[p].value else Some(v))
            && Promise !in s'.heap[p].owners
            && (s.heap[p].value.None? ==> s'.returned == s.returned[s.heap[p].uid := Val(v)])
  {
    var s1 := s.(heap := s.heap[p := s.heap[p].Remove(Promise).Add(Frame(f, |Stack(s, f)|))]);
    SettleGives(Push(s1, f, Tail(p)), f, p, v);
    hide ResolvePromiseStep;
  }

  // ---- References of user code ----

  /** One more reference. */
  lemma DupAdds(s: State, t: Addr, j: int, k: int)
    requires Inv(s, Tight) && t in s.heap && Ext(j) in s.heap[t].owners && Ext(k) !in s.heap[t].owners
    ensures Enabled(s, Dup(t, j, k))
    ensures Next(s, Dup(t, j, k)) == s.(heap := s.heap[t := s.heap[t].(owners := s.heap[t].owners + {Ext(k)})])
  {
    hide Inv;
  }

  /** A reference to the task of a promise. */
  lemma PromiseTaskAdds(s: State, p: Addr, k: int)
    requires Inv(s, Tight) && p in s.heap && Promise in s.heap[p].owners && Ext(k) !in s.heap[p].owners
    ensures Enabled(s, PromiseTask(p, k))
    ensures Next(s, PromiseTask(p, k)) == s.(heap := s.heap[p := s.heap[p].(owners := s.heap[p].owners + {Ext(k)})])
  {
    hide Inv;
  }

  /** One reference less; a task goes with its last one, unless it runs. */
  lemma DropTakes(s: State, t: Addr, k: int)
    requires Inv(s, Tight) && t in s.heap && Ext(k) in s.heap[t].owners
    ensures Enabled(s, Drop(t, k))
    ensures t in Next(s, Drop(t, k)).heap <==> s.heap[t].owners != {Ext(k)} || s.heap[t].Running() || s.heap[t].Deleted()
    ensures s.heap[t].owners != {Ext(k)} ==>
              Next(s, Drop(t, k)) == s.(heap := s.heap[t := s.heap[t].(owners := s.heap[t].owners - {Ext(k)})])
  {
    hide Inv, Release;
    ReleaseIs(s, t, Ext(k));
  }

  lemma ReleaseIs(s: State, t: Addr, o: Owner)
    requires t in s.heap && o in s.heap[t].owners
    ensures t in Release(s, t, o).heap <==> s.heap[t].owners != {o} || s.heap[t].Running() || s.heap[t].Deleted()
    ensures s.heap[t].owners != {o} ==> Release(s, t, o) == s.(heap := s.heap[t := s.heap[t].(owners := s.heap[t].owners - {o})])
  {
    var s1 := RemoveOwner(s, t, o);
    assert s.heap[t].owners == s1.heap[t].owners + {o};
    DeactivateShrinks(s1, t);
    if s1.heap[t].owners == {} && s1.heap[t].Running() {
      Marks(s1, t);
    }
    hide Deactivate;
  }

  lemma Marks(s: State, t: Addr)
    requires t in s.heap && s.heap[t].Running()
    ensures t in Deactivate(s, t).heap
  {
  }

  // ---- Runs ----

  lemma {:induction false} KeptOn(acts: seq<Action>, i: nat, j: nat, u: Uid)
    requires After(acts).Some? && i <= j <= |acts| && Kept(At(acts, i), u)
    ensures Kept(At(acts, j), u)
    decreases j - i
  {
    hide Kept, After, Inv;
    if i < j {
      AtNext(acts, i);
      StepKeeps(At(acts, i), acts[i], u);
      hide At, Next;
      KeptOn(acts, i + 1, j, u);
    }
  }

  // A task with the identity `u`, or one it was fused into, is scheduled or runs, and keeps itself alive.
  ghost predicate Alive(s: State, u: Uid) {
    exists t :: t in s.heap && u in s.heap[t].standsFor && s.heap[t].imp.Some? && s.heap[t].imp.value.keepAlive
                && (s.heap[t].Closure().Some? || s.heap[t].Running())
  }

  lemma KeptLives(s: State, u: Uid)
    requires Inv(s, Tight) && Kept(s, u)
    ensures u in s.final || Alive(s, u)
  {
    if u !in s.final {
      var t :| Keeper(s, t, u);
      KeeperWorks(s, t, u);
      assert ShapeAt(s, {}, t);
    }
  }

  lemma MadeKept(s: State, act: Action)
    requires Inv(s, Tight) && Enabled(s, act)
    requires (act.SpawnTask? && act.keepAlive) || (act.Then? && act.keepAlive && !(act.sync && s.heap[act.src].value.Some?))
    ensures Kept(Next(s, act), s.next)
  {
    hide Inv, Next;
    match act
    case SpawnTask(a, k, keepAlive) =>
      SpawnMakes(s, a, k, true);
      assert Keeper(Next(s, act), a, s.next);
    case Then(f, a, k', bind, src, k, sync, keepAlive) =>
      ThenMakes(s, f, a, k', bind, src, k, sync, true);
      assert Keeper(Next(s, act), a, s.next);
  }

  /** A task that was made to keep itself alive is not lost, whatever becomes of the references to
      it: at every later point of the run its identity has ended with a value, or a live task that
      is scheduled or runs, and keeps itself alive, stands for it. */
  lemma KeepAliveEnds(acts: seq<Action>, i: nat, j: nat)
    requires After(acts).Some? && i < j <= |acts|
    requires var s, act := At(acts, i), acts[i];
             || (act.SpawnTask? && act.keepAlive)
             || (act.Then? && act.keepAlive && !(act.sync && act.src in s.heap && s.heap[act.src].value.Some?))
    ensures At(acts, i).next in At(acts, j).final || Alive(At(acts, j), At(acts, i).next)
  {
    AtNext(acts, i);
    hide Kept, Inv, After, Next;
    MadeKept(At(acts, i), acts[i]);
    AtInv(acts, j);
    KeptOn(acts, i + 1, j, At(acts, i).next);
    KeptLives(At(acts, j), At(acts, i).next);
  }
}
