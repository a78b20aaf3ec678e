/** The runtime's functions on its own global tables and task objects, changed in place in the
    order of the program. A task object has a reference counter, which alone decides when it is
    freed and when it may be fused; `Valid` says that it counts the holders that the machine
    names. Each function makes the step that the machine specifies, so what holds in every run
    of the machine holds of the tables after any sequence of calls. */
module TaskRuntime {
  import opened Wrappers
  import M = TaskMachine
  import opened TaskCounts
  import opened TaskInvariant
  import opened TaskRuns
  import TaskNested
  import TaskSteps

  // The function a closure applies when it is called.
  function Calling(c: M.Closure): seq<M.Uid> {
    if c.Call? then [c.fn] else []
  }

  // The keep-alive reference of the schedule can become the reference of a frame at `depth`.
  ghost predicate Handover(k: M.Task, f: M.Fiber, depth: int) {
    k.imp.Some? && k.imp.value.keepAlive ==> M.Scheduled in k.owners && M.Frame(f, depth) !in k.owners
  }

  // A task that is scheduled anew.
  ghost predicate Unscheduled(k: M.Task, f: M.Fiber, depth: int) {
    k.imp.Some? && k.imp.value.keepAlive ==> M.Scheduled !in k.owners && M.Frame(f, depth) !in k.owners
  }

  class Runtime {
    var cells: map<M.Addr, Cell>
    var syncDependents: map<M.Addr, seq<M.Addr>>
    var syncRegistered: map<M.Addr, M.Addr>
    var queued: map<M.Addr, Option<M.Addr>>
    var active: map<M.Fiber, M.Addr>
    var stacks: map<M.Fiber, seq<M.StackFrame>>
    var calls: map<M.Addr, M.Invocation>
    // Names new tasks; nothing else depends on it.
    var next: M.Uid
    // The holders of each task's references, and what it stands for.
    ghost var heap: map<M.Addr, M.Task>
    ghost var origin: map<M.Uid, M.Origin>
    ghost var arg: map<M.Uid, M.Value>
    ghost var returned: map<M.Uid, M.Outcome>
    ghost var final: map<M.Uid, M.Value>
    ghost var applied: seq<M.Uid>

    ghost function Now(): M.State
      reads this
    {
      M.State(heap, syncDependents, syncRegistered, queued, active, stacks, calls, next, origin, arg, returned, final, applied)
    }

    ghost predicate Valid()
      reads this
    {
      Mirrors(cells, heap)
    }

    constructor ()
      ensures Valid() && Now() == M.Init
    {
      cells, syncDependents, syncRegistered, queued, active, stacks, calls := map[], map[], map[], map[], map[], map[], map[];
      heap, next, origin, arg, returned, final, applied := map[], 0, map[], map[], map[], map[], [];
    }

    function Stack(f: M.Fiber): (r: seq<M.StackFrame>)
      reads this
      ensures r == M.Stack(Now(), f)
    {
      if f in stacks then stacks[f] else []
    }

    function TopFrame(f: M.Fiber): (r: Option<M.StackFrame>)
      reads this
      ensures r == M.Top(Now(), f)
    {
      if Stack(f) == [] then None else Some(Stack(f)[|Stack(f)| - 1])
    }

    function Current(f: M.Fiber): (r: Option<M.Addr>)
      reads this
      ensures r == M.CurrentTask(Now(), f)
    {
      if f in active then Some(active[f]) else None
    }

    // ---- References ----

    // lean_inc_ref
    method Keep(t: M.Addr, ghost o: M.Owner)
      requires Valid() && t in heap && o !in heap[t].owners
      modifies this`cells, this`heap
      ensures Valid() && Now() == M.AddOwner(old(Now()), t, o)
    {
      hide Mirrors, CellOf;
      CellAt(cells, heap, t);
      Gains(heap[t], o);
      MirrorsPut(cells, heap, t, cells[t].(count := cells[t].count + 1), heap[t].Add(o));
      cells := cells[t := cells[t].(count := cells[t].count + 1)];
      heap := heap[t := heap[t].Add(o)];
    }

    // A reference changes hands: the counter stays.
    ghost method Pass(t: M.Addr, o: M.Owner, o': M.Owner)
      requires Valid() && t in heap && o in heap[t].owners && o' !in heap[t].owners
      modifies this`heap
      ensures Valid() && heap == old(heap)[t := old(heap)[t].Remove(o).Add(o')]
    {
      hide Mirrors;
      ReholdMirrors(cells, heap, Some(t), o, o');
      heap := heap[t := heap[t].Remove(o).Add(o')];
    }

    // lasm_task_drop, and out of both tables.
    method Forget(t: M.Addr)
      modifies this`queued, this`syncRegistered, this`syncDependents
      ensures Now() == M.Forget(old(Now()), t)
    {
      queued := queued - {t};
      syncRegistered := syncRegistered - {t};
      syncDependents := syncDependents - {t};
    }

    // The storage goes, and the reference that the closure had.
    method FreeStorage(t: M.Addr) returns (held: Option<M.Addr>)
      requires Valid() && Owned(heap) && t in heap
      modifies this`cells, this`heap
      ensures Valid() && Owned(heap) && Now() == M.Free(old(Now()), t) && held == old(heap)[t].Held()
    {
      hide Mirrors, Owned, CellOf;
      CellAt(cells, heap, t);
      FreeMirrors(cells, heap, t);
      FreeOwned(heap, t);
      ghost var after := M.FreeTask(heap, t);
      held := cells[t].Held();
      cells := cells - {t};
      if held.Some? && held.value in cells {
        cells := cells[held.value := cells[held.value].(count := cells[held.value].count - 1)];
      }
      heap := after;
    }

    // deactivate_task: a running task is only marked, another is freed.
    method Deactivate(t: M.Addr)
      requires Valid() && Owned(heap) && t in heap
      modifies this`cells, this`heap, this`queued, this`syncRegistered, this`syncDependents
      ensures Valid() && Owned(heap) && Now() == M.Deactivate(old(Now()), t)
      decreases |heap|, 0
    {
      hide M.Forget, M.Free, Mirrors, Owned, CellOf;
      ghost var s := Now();
      ForgetKeepsHeap(s, t);
      DeactivateIs(s, t);
      Forget(t);
      CellAt(cells, heap, t);
      if cells[t].Running() {
        Mark(t);
        return;
      }
      M.FreeShrinks(Now(), t);
      var held := FreeStorage(t);
      if held.Some? {
        CellAt(cells, heap, held.value);
      }
      if held.Some? && held.value in cells {
        Collect(held.value);
      }
    }

    method Mark(t: M.Addr)
      requires Valid() && Owned(heap) && t in heap && heap[t].Running()
      modifies this`cells, this`heap
      ensures Valid() && Owned(heap) && heap == old(heap)[t := old(heap)[t].(imp := Some(old(heap)[t].imp.value.(deleted := true)))]
    {
      hide Mirrors, Owned;
      CellAt(cells, heap, t);
      ghost var k := heap[t].(imp := Some(heap[t].imp.value.(deleted := true)));
      var c := cells[t].(imp := Some(cells[t].imp.value.(deleted := true)));
      MirrorsPut(cells, heap, t, c, k);
      SameOwned(heap, t, k);
      cells, heap := cells[t := c], heap[t := k];
    }

    // The end of lean_dec_ref: the counter is tested.
    method Collect(t: M.Addr)
      requires Valid() && Owned(heap) && t in heap
      modifies this`cells, this`heap, this`queued, this`syncRegistered, this`syncDependents
      ensures Valid() && Owned(heap) && Now() == M.Collect(old(Now()), t)
      decreases |heap|, 1
    {
      hide M.Deactivate, Mirrors, Owned, CellOf;
      CellAt(cells, heap, t);
      NoneLeft(heap[t]);
      if cells[t].count == 0 && !cells[t].Deleted() {
        Deactivate(t);
      }
    }

    // lean_dec_ref: one reference fewer, and the task is freed when it was the last.
    method Release(t: M.Addr, ghost o: M.Owner)
      requires Valid() && Owned(heap) && t in heap && o in heap[t].owners
      requires o.HeldBy? && o.task in heap ==> heap[o.task].Held() != Some(t)
      modifies this`cells, this`heap, this`queued, this`syncRegistered, this`syncDependents
      ensures Valid() && Owned(heap) && Now() == M.Release(old(Now()), t, o)
      ensures t in old(cells) && (t in cells <==> old(cells)[t].count > 1 || old(cells)[t].Running() || old(cells)[t].Deleted())
    {
      hide M.Collect, M.Release, Mirrors, Owned, CellOf;
      CellAt(cells, heap, t);
      ReleaseFrees(Now(), t, o);
      ReleaseIs(Now(), t, o);
      Loses(heap[t], o);
      MirrorsPut(cells, heap, t, cells[t].(count := cells[t].count - 1), heap[t].Remove(o));
      RemoveOwned(heap, t, o);
      cells := cells[t := cells[t].(count := cells[t].count - 1)];
      heap := heap[t := heap[t].Remove(o)];
      Collect(t);
      CellAt(cells, heap, t);
    }

    // ---- Executing and scheduling ----

    // The closure is taken out of the task, which is running now; the keep-alive reference of
    // the schedule becomes this frame's.
    method MarkRunning(f: M.Fiber, t: M.Addr, depth: nat)
      requires Valid() && t in heap && heap[t].Closure().Some? && Handover(heap[t], f, depth)
      modifies this`cells, this`heap
      ensures Valid() && heap == old(heap)[t := old(heap)[t].Begun(f, depth)]
    {
      hide Mirrors, M.Task.Begun;
      CellAt(cells, heap, t);
      BegunCell(heap[t], f, depth);
      var c := cells[t];
      c := c.(imp := Some(c.imp.value.(nextDep := None)));
      c := c.(imp := Some(c.imp.value.(running := true)));
      c := c.(imp := Some(c.imp.value.(closure := None)));
      MirrorsPut(cells, heap, t, c, heap[t].Begun(f, depth));
      cells, heap := cells[t := c], heap[t := heap[t].Begun(f, depth)];
    }

    // lasm_task_execute up to the call of the closure.
    method Begin(f: M.Fiber, t: M.Addr)
      requires Valid() && t in heap && heap[t].Closure().Some? && Handover(heap[t], f, |Stack(f)|)
      modifies this
      ensures Valid() && Now() == M.Begin(old(Now()), f, t)
    {
      hide M.Task.Begun, M.Stack, M.CurrentTask, Current, Stack, Mirrors, CellOf, Handover;
      CellAt(cells, heap, t);
      var previous := Current(f);
      var stack := Stack(f);
      var depth := |stack|;
      active := active[f := t];
      var keepAlive := cells[t].imp.value.keepAlive;
      var closure := cells[t].imp.value.closure.value;
      MarkRunning(f, t, depth);
      stacks := stacks[f := stack + [M.Exec(t, keepAlive, previous)]];
      calls := calls[t := M.Invocation(f, depth, closure, closure.Call?)];
      applied := applied + Calling(closure);
    }

    // enqueue_task
    method Enqueue(f: M.Fiber, t: M.Addr)
      requires Valid() && t in heap && heap[t].Closure().Some? && Handover(heap[t], f, |Stack(f)|)
      modifies this
      ensures Valid() && Now() == M.Enqueue(old(Now()), f, t)
    {
      hide Mirrors, CellOf, Handover, M.Begin, Stack;
      CellAt(cells, heap, t);
      var dependency := cells[t].imp.value.nextDep;
      if dependency.Some? {
        CellAt(cells, heap, dependency.value);
      }
      var unresolved := dependency.Some? && dependency.value in cells && cells[dependency.value].value.None?;
      if cells[t].imp.value.sync {
        if unresolved {
          syncRegistered := syncRegistered[t := dependency.value];
          var waiting := if dependency.value in syncDependents then syncDependents[dependency.value] else [];
          syncDependents := syncDependents[dependency.value := waiting + [t]];
        } else if !cells[t].imp.value.running {
          Begin(f, t);
        }
      } else {
        queued := queued[t := if unresolved then dependency else None];
      }
    }

    // schedule_task
    method Schedule(f: M.Fiber, t: M.Addr, dependency: Option<M.Addr>)
      requires Valid() && t in heap && heap[t].Closure().Some? && Unscheduled(heap[t], f, |Stack(f)|)
      modifies this
      ensures Valid() && Now() == M.Schedule(old(Now()), f, t, dependency)
    {
      hide Mirrors, CellOf, M.Enqueue, M.Task.KeepScheduled;
      CellAt(cells, heap, t);
      ScheduledCell(heap[t], dependency);
      KeepHandover(heap[t], f, |Stack(f)|, dependency);
      var c := cells[t];
      var running, sync := c.imp.value.running, c.imp.value.sync;
      if c.imp.value.keepAlive {
        c := c.(count := c.count + 1);
      }
      c := c.(imp := Some(c.imp.value.(nextDep := dependency)));
      assert c == CellOf(heap[t].KeepScheduled(dependency));
      MirrorsPut(cells, heap, t, c, heap[t].KeepScheduled(dependency));
      cells, heap := cells[t := c], heap[t := heap[t].KeepScheduled(dependency)];
      if !running || !sync {
        Enqueue(f, t);
      }
    }

    // resolve_task: the value is there before any dependent runs; the loop over the
    // dependents is the machine's frame on the fiber.
    method Resolve(f: M.Fiber, t: M.Addr, value: M.Value)
      requires Valid() && t in heap
      modifies this
      ensures Valid() && Now() == M.ResolveTask(old(Now()), f, t, value)
    {
      CellAt(cells, heap, t);
      if cells[t].value.Some? {
        return;
      }
      ghost var k := heap[t];
      SetValue(t, value);
      hide Mirrors, CellOf;
      var dependents := [];
      if t in syncDependents {
        dependents := syncDependents[t];
      }
      syncDependents := syncDependents - {t};
      stacks := stacks[f := Stack(f) + [M.Resolve(t, cells[t].uid, dependents)]];
      final := final + (map u | u in k.standsFor :: value);
    }

    method SetValue(t: M.Addr, value: M.Value)
      requires Valid() && t in heap
      modifies this`cells, this`heap
      ensures Valid() && heap == old(heap)[t := old(heap)[t].(value := Some(value), imp := None)]
      ensures t in cells && cells[t].uid == old(heap)[t].uid
    {
      hide Mirrors;
      CellAt(cells, heap, t);
      var c := cells[t].(value := Some(value), imp := None);
      MirrorsPut(cells, heap, t, c, heap[t].(value := Some(value), imp := None));
      cells, heap := cells[t := c], heap[t := heap[t].(value := Some(value), imp := None)];
    }

    // One turn of that loop: a registered dependent runs now, a stale entry is skipped.
    method LoopTurn(f: M.Fiber)
      requires Valid() && Stack(f) != [] && Stack(f)[|Stack(f)| - 1].Resolve?
      requires forall n :: n in syncRegistered ==> n in heap && heap[n].Closure().Some? && Handover(heap[n], f, |Stack(f)|)
      modifies this
      ensures Valid() && Now() == M.LoopTurn(old(Now()), f)
    {
      hide M.Begin, Mirrors, CellOf, Handover;
      var stack := Stack(f);
      var frame := stack[|stack| - 1];
      var below := stack[..|stack| - 1];
      if frame.deps == [] {
        stacks := stacks[f := below];
        // lasm_task_resolve
        queued := map a | a in queued :: if queued[a] == Some(frame.task) then None else queued[a];
        return;
      }
      var waiting := frame.deps[0];
      stacks := stacks[f := below + [frame.(deps := frame.deps[1..])]];
      assert stacks == M.Skip(old(Now()), f, frame).stacks;
      assert |Stack(f)| == |stack|;
      if waiting in syncRegistered && syncRegistered[waiting] == frame.task {
        syncRegistered := syncRegistered - {waiting};
        Begin(f, waiting);
      }
    }

    // The running bit is cleared and current_task() is again what it was before.
    method EndCall(f: M.Fiber, t: M.Addr)
      requires Valid() && t in heap && heap[t].imp.Some? && Stack(f) != [] && Stack(f)[|Stack(f)| - 1].Exec?
      modifies this
      ensures Valid() && Now() == M.EndCall(old(Now()), f, t)
    {
      hide Mirrors, CellOf;
      var frame := Stack(f)[|Stack(f)| - 1];
      ClearRunning(t);
      if frame.previous.Some? {
        active := active[f := frame.previous.value];
      } else {
        active := active - {f};
      }
      stacks := stacks[f := Stack(f)[..|Stack(f)| - 1]];
      calls := calls - {t};
    }

    method ClearRunning(t: M.Addr)
      requires Valid() && t in heap && heap[t].imp.Some?
      modifies this`cells, this`heap
      ensures Valid() && heap == old(heap)[t := old(heap)[t].(imp := Some(old(heap)[t].imp.value.(running := false)))]
    {
      hide Mirrors;
      CellAt(cells, heap, t);
      var c := cells[t].(imp := Some(cells[t].imp.value.(running := false)));
      MirrorsPut(cells, heap, t, c, heap[t].(imp := Some(heap[t].imp.value.(running := false))));
      cells, heap := cells[t := c], heap[t := heap[t].(imp := Some(heap[t].imp.value.(running := false)))];
    }

    // lasm_task_execute after the closure has returned; no value means that the closure was
    // replaced and the task goes on.
    method Finish(f: M.Fiber, t: M.Addr, value: Option<M.Value>)
      requires Valid() && Owned(heap) && t in heap && heap[t].imp.Some? && Stack(f) != [] && Stack(f)[|Stack(f)| - 1].Exec?
      requires value.None? ==>
                 && heap[t].Closure().Some? && heap[t].imp.value.keepAlive == Stack(f)[|Stack(f)| - 1].keep
                 && Handover(heap[t], f, |Stack(f)|)
      modifies this
      ensures Valid() && Now() == M.Finish(old(Now()), f, t, value)
    {
      hide M.EndCall, M.Deactivate, M.Enqueue, M.ResolveTask, Mirrors, CellOf, Owned, Handover;
      ghost var s := Now();
      EndCallKeeps(s, f, t);
      EndCallOwned(s, f, t);
      EndCallHandover(s, f, t);
      var keep := Stack(f)[|Stack(f)| - 1].keep;
      EndCall(f, t);
      CellAt(cells, heap, t);
      if cells[t].Deleted() {
        Deactivate(t);
        return;
      }
      // The reference of a kept-alive task is released when what follows has returned.
      stacks := stacks[f := M.Below(Stack(f), keep, t)];
      assert Now() == M.LeaveTail(M.EndCall(s, f, t), f, t, keep);
      if value.Some? {
        Resolve(f, t, value.value);
      } else if cells[t].imp.value.sync {
        Enqueue(f, t);
      }
    }

    // ---- task_bind_fn ----

    // The closure of the nested task, and what it owns, goes over to the running task.
    method MoveClosure(t: M.Addr, n: M.Addr)
      requires Valid() && t in heap && heap[t].imp.Some? && n in heap && heap[n].Closure().Some? && t != n
      requires heap[n].Held().Some? && heap[n].Held().value in heap ==>
                 M.HeldBy(n) in heap[heap[n].Held().value].owners && M.HeldBy(t) !in heap[heap[n].Held().value].owners
      modifies this`cells, this`heap
      ensures Valid() && Now() == M.MoveClosure(old(Now()), t, n)
    {
      hide Mirrors;
      CellAt(cells, heap, t);
      CellAt(cells, heap, n);
      ghost var s := Now();
      ghost var kt := heap[t].WithClosure(heap[n].Closure()).Standing(heap[n].standsFor);
      ghost var kn := heap[n].WithClosure(None);
      var ct := cells[t].(imp := Some(cells[t].imp.value.(closure := cells[n].imp.value.closure)));
      var cn := cells[n].(imp := Some(cells[n].imp.value.(closure := None)));
      MirrorsPut(cells, heap, t, ct, kt);
      MirrorsPut(cells[t := ct], heap[t := kt], n, cn, kn);
      ReholdMirrors(cells[t := ct][n := cn], heap[t := kt][n := kn], heap[n].Held(), M.HeldBy(n), M.HeldBy(t));
      cells := cells[t := ct][n := cn];
      heap := M.Rehold(heap[t := kt][n := kn], heap[n].Held(), M.HeldBy(n), M.HeldBy(t));
    }

    // A uniquely owned nested task continues in the running one; dropping our references to it
    // frees it.
    method Fuse(f: M.Fiber, t: M.Addr, n: M.Addr, ghost k: int)
      requires Valid() && Refs(Now()) && Fuses(Now(), t, n, k) && Stack(f) != []
      modifies this
      ensures Valid() && Now() == M.Fuse(old(Now()), f, t, n)
      ensures Owned(heap) && Goes(old(Now()), Now(), f, t)
    {
      hide Mirrors, CellOf, Owned, Refs, M.MoveClosure, M.Schedule, M.Release, Unscheduled, Handover;
      ghost var s := Now();
      FuseFacts(s, f, t, n, k);
      CellAt(cells, heap, n);
      var held := cells[n].imp.value.keepAlive;
      var dependency := cells[n].imp.value.nextDep;
      MoveClosure(t, n);
      MovedFacts(s, f, t, n, k);
      queued := queued - {n};
      syncRegistered := syncRegistered - {n};
      ghost var s1 := Now();
      FuseReleases(s1, n, k, held);
      if held {
        Release(n, M.Scheduled);
      }
      Release(n, M.Ext(k));
      FusedIs(s, t, n);
      ScheduleGoes(Now(), f, t, dependency);
      Schedule(f, t, dependency);
    }

    // The running task follows the returned one.
    method Forward(f: M.Fiber, t: M.Addr, n: M.Addr, ghost k: int)
      requires Valid() && Refs(Now()) && t in heap && heap[t].Running() && heap[t].Closure().None? && n in heap
      requires M.Ext(k) in heap[n].owners && M.HeldBy(t) !in heap[n].owners && Stack(f) != []
      modifies this
      ensures Valid() && Now() == M.Forward(old(Now()), f, t, n, M.Ext(k))
      ensures Owned(heap) && Goes(old(Now()), Now(), f, t)
    {
      hide Mirrors, M.Schedule, Unscheduled, Handover;
      ghost var s := Now();
      ForwardFacts(s, f, t, n, k);
      CellAt(cells, heap, t);
      hide Refs, Owned;
      var c := cells[t].(imp := Some(cells[t].imp.value.(closure := Some(M.BindResult(n)))));
      assert c == CellOf(heap[t].WithClosure(Some(M.BindResult(n))));
      MirrorsPut(cells, heap, t, c, heap[t].WithClosure(Some(M.BindResult(n))));
      ReholdMirrors(cells[t := c], heap[t := heap[t].WithClosure(Some(M.BindResult(n)))], Some(n), M.Ext(k), M.HeldBy(t));
      cells := cells[t := c];
      heap := M.Rehold(heap[t := heap[t].WithClosure(Some(M.BindResult(n)))], Some(n), M.Ext(k), M.HeldBy(t));
      ScheduleGoes(Now(), f, t, Some(n));
      Schedule(f, t, Some(n));
    }

    // task_bind_fn from the return of the user's function, and the end of the execution: the
    // counter says whether the nested task is uniquely ours.
    method ReturnTask(f: M.Fiber, t: M.Addr, n: M.Addr, ghost k: int)
      requires Valid() && M.ReturnsTask(Now(), f, t, n) && (heap[n].value.Some? ==> t != n) && Returning(Now(), f, t, n, k)
      modifies this
      ensures Valid() && Now() == M.BindReturn(old(Now()), f, t, n, k)
    {
      ghost var s := Now();
      ghost var s1 := s.(returned := s.returned[s.calls[t].closure.fn := M.Tsk(s.heap[n].uid)]);
      ReturnReady(s, s1, f, t, n, k);
      hide Mirrors, CellOf, Refs, Owned, Fuses, Returning;
      hide M.BindReturn, M.BindRecord, M.BindValue, M.CanFuse, M.Fuse, M.Forward, M.Finish;
      returned := returned[calls[t].closure.fn := M.Tsk(heap[n].uid)];
      assert Now() == s1;
      CellAt(cells, heap, n);
      if cells[n].value.Some? {
        ReturnResolved(f, t, n, k);
      } else {
        ReturnUnresolved(f, t, n, k);
      }
    }

    method ReturnUnresolved(f: M.Fiber, t: M.Addr, n: M.Addr, ghost k: int)
      requires Valid() && M.ReturnsTask(Now(), f, t, n) && heap[n].value.None? && Returning(Now(), f, t, n, k)
      modifies this
      ensures Valid()
      ensures M.CanFuse(old(Now()), t, n) ==>
                var s1 := M.Fuse(old(Now()), f, t, n);
                && t in s1.heap && s1.heap[t].Closure().Some? && M.Top(s1, f) == M.Top(old(Now()), f)
                && Now() == M.Finish(s1, f, t, None)
      ensures !M.CanFuse(old(Now()), t, n) ==>
                var s1 := M.Forward(old(Now()), f, t, n, M.Ext(k));
                && t in s1.heap && s1.heap[t].Closure().Some? && M.Top(s1, f) == M.Top(old(Now()), f)
                && Now() == M.Finish(s1, f, t, None)
    {
      hide Mirrors, CellOf, Refs, Owned, Handover, M.Fuse, M.Forward, M.Finish, Fuses;
      CellAt(cells, heap, t);
      CellAt(cells, heap, n);
      FusesMeans(Now(), t, n, k);
      var imp := cells[n].imp;
      if imp.Some? && imp.value.closure.Some? && !imp.value.running
         && cells[n].count == (if imp.value.keepAlive then 2 else 1)
         && (cells[t].imp.value.keepAlive || !imp.value.keepAlive) {
        assert M.CanFuse(Now(), t, n);
        Fuse(f, t, n, k);
      } else {
        assert !M.CanFuse(Now(), t, n);
        Forward(f, t, n, k);
      }
      Finish(f, t, None);
    }

    // The returned task has its value already.
    method ReturnResolved(f: M.Fiber, t: M.Addr, n: M.Addr, ghost k: int)
      requires Valid() && M.ReturnsTask(Now(), f, t, n) && heap[n].value.Some? && t != n && Returning(Now(), f, t, n, k)
      modifies this
      ensures Valid() && Now() == M.BindValue(old(Now()), f, t, n, k)
    {
      hide Mirrors, CellOf, Refs, Owned, M.Collect, M.Finish, Handover;
      ghost var s1 := M.RemoveOwner(Now(), n, M.Ext(k));
      RefsOwned(Now());
      M.CollectOnlyReclaims(s1, n);
      assert M.StillRuns(s1, M.Collect(s1, n), t);
      CellAt(cells, heap, n);
      var value := cells[n].value;
      Release(n, M.Ext(k));
      Finish(f, t, value);
    }

    // ---- The exported functions ----

    // lean_task_spawn_core
    method Spawn(a: M.Addr, ghost k: int, keepAlive: bool)
      requires Valid() && a !in heap
      modifies this
      ensures Valid() && Now() == M.SpawnStep(old(Now()), a, k, keepAlive)
    {
      hide M.Schedule, Mirrors;
      NewTask(a, Some(M.Call(next)), keepAlive, false, M.Ext(k));
      origin := origin[next := M.Spawn];
      next := next + 1;
      Schedule(0, a, None);
    }

    // pending_task: one reference, its maker's.
    method NewTask(a: M.Addr, closure: Option<M.Closure>, keepAlive: bool, sync: bool, ghost o: M.Owner)
      requires Valid() && a !in heap
      modifies this`cells, this`heap
      ensures Valid() && heap == old(heap)[a := M.Pending(next, closure, keepAlive, sync, o)]
    {
      hide Mirrors;
      var c := Cell(next, 1, None, Some(M.Imp(closure, keepAlive, false, sync, None, false)));
      MirrorsPut(cells, heap, a, c, M.Pending(next, closure, keepAlive, sync, o));
      cells, heap := cells[a := c], heap[a := M.Pending(next, closure, keepAlive, sync, o)];
    }

    // lean_task_pure
    method Pure(a: M.Addr, ghost k: int, value: M.Value)
      requires Valid() && a !in heap
      modifies this
      ensures Valid() && Now() == M.PureStep(old(Now()), a, k, value)
    {
      NewValue(a, k, value);
      hide Mirrors;
      origin, final := origin[next := M.Pure(value)], final[next := value];
      next := next + 1;
    }

    // alloc_task with a value.
    method NewValue(a: M.Addr, ghost k: int, value: M.Value)
      requires Valid() && a !in heap
      modifies this`cells, this`heap
      ensures Valid() && heap == old(heap)[a := M.Task(next, {next}, Some(value), None, {M.Ext(k)})]
    {
      hide Mirrors;
      ghost var k' := M.Task(next, {next}, Some(value), None, {M.Ext(k)});
      MirrorsPut(cells, heap, a, Cell(next, 1, Some(value), None), k');
      cells, heap := cells[a := Cell(next, 1, Some(value), None)], heap[a := k'];
    }

    // lean_task_map_core and lean_task_bind_core
    method Then(f: M.Fiber, a: M.Addr, ghost k': int, bind: bool, src: M.Addr, ghost k: int, sync: bool, keepAlive: bool)
      requires Valid() && Owned(heap) && src in heap && a !in heap && M.Ext(k) in heap[src].owners && M.HeldBy(a) !in heap[src].owners
      modifies this
      ensures Valid()
      ensures Now() == if sync && old(heap)[src].value.Some? then M.ThenFast(old(Now()), f, bind, src, k)
                       else M.ThenSlow(old(Now()), f, a, k', bind, src, k, sync, keepAlive)
    {
      hide Mirrors, CellOf, Owned, M.ThenFast, M.ThenSlow;
      CellAt(cells, heap, src);
      if sync && cells[src].value.Some? {
        ApplyNow(f, bind, src, k);
      } else {
        MakeDependent(f, a, k', bind, src, k, sync, keepAlive);
      }
    }

    // The value is taken and the source dropped; then the function runs in the caller.
    method ApplyNow(f: M.Fiber, bind: bool, src: M.Addr, ghost k: int)
      requires Valid() && Owned(heap) && src in heap && heap[src].value.Some? && M.Ext(k) in heap[src].owners
      modifies this
      ensures Valid() && Now() == M.ThenFast(old(Now()), f, bind, src, k)
    {
      hide M.Release, M.Stack, Stack, Mirrors, CellOf, Owned;
      CellAt(cells, heap, src);
      var of, value := cells[src].uid, cells[src].value.value;
      Release(src, M.Ext(k));
      var stack := Stack(f);
      stacks := stacks[f := stack + [if bind then M.FastBind(of, value) else M.FastMap(of, value)]];
    }

    method MakeDependent(f: M.Fiber, a: M.Addr, ghost k': int, bind: bool, src: M.Addr, ghost k: int, sync: bool, keepAlive: bool)
      requires Valid() && src in heap && a !in heap && M.Ext(k) in heap[src].owners && M.HeldBy(a) !in heap[src].owners
      modifies this
      ensures Valid() && Now() == M.ThenSlow(old(Now()), f, a, k', bind, src, k, sync, keepAlive)
    {
      hide M.Schedule, Mirrors;
      var closure := M.DependentClosure(bind, next, src);
      NewTask(a, Some(closure), keepAlive, sync, M.Ext(k'));
      // The closure owns the source.
      Pass(src, M.Ext(k), M.HeldBy(a));
      origin := origin[next := M.DependentOrigin(bind, heap[src].uid)];
      next := next + 1;
      Schedule(f, a, Some(src));
    }

    // lean_task_get_own in the closure of a running task, whose source has its value.
    method GetOwn(f: M.Fiber, t: M.Addr)
      requires Valid() && Refs(Now()) && M.GetsValue(Now(), f, t) && !calls[t].called
      modifies this
      ensures Valid() && Now() == M.GetStep(old(Now()), f, t)
    {
      hide Mirrors, CellOf, Refs, M.GetArgument, M.GetResult;
      if calls[t].closure.BindResult? {
        GetForResult(f, t);
      } else {
        GetForFunction(f, t);
      }
    }

    // The running task's reference to its source is dropped.
    method DropSource(f: M.Fiber, t: M.Addr, src: M.Addr)
      requires Valid() && Refs(Now()) && M.GetsValue(Now(), f, t) && !calls[t].called && src == calls[t].closure.src
      modifies this`cells, this`heap, this`queued, this`syncRegistered, this`syncDependents, this`calls
      ensures Valid() && Owned(heap) && Now() == M.Collect(M.TakeSource(old(Now()), t), src)
    {
      hide Mirrors, CellOf, Owned, M.Collect;
      RefsOwned(Now());
      assert M.Holds(Now(), t) == Some(src);
      hide Refs;
      calls := calls[t := calls[t].(called := true)];
      Release(src, M.HeldBy(t));
    }

    // task_map_fn and task_bind_fn apply the user's function to the value.
    method GetForFunction(f: M.Fiber, t: M.Addr)
      requires Valid() && Refs(Now()) && M.GetsValue(Now(), f, t) && !calls[t].called && !calls[t].closure.BindResult?
      modifies this
      ensures Valid() && Now() == M.GetArgument(old(Now()), t)
    {
      hide M.Collect, Mirrors, CellOf, Owned;
      var closure := calls[t].closure;
      arg := arg[closure.fn := heap[closure.src].value.value];
      applied := applied + [closure.fn];
      RecordRefs(old(Now()), Now());
      hide Refs;
      DropSource(f, t, closure.src);
    }

    // task_bind_result returns it.
    method GetForResult(f: M.Fiber, t: M.Addr)
      requires Valid() && Refs(Now()) && M.GetsValue(Now(), f, t) && !calls[t].called && calls[t].closure.BindResult?
      modifies this
      ensures Valid() && Now() == M.GetResult(old(Now()), f, t)
    {
      hide M.Collect, M.Finish, Mirrors, CellOf, Owned, Refs;
      ghost var s1 := M.TakeSource(Now(), t);
      var src := calls[t].closure.src;
      CellAt(cells, heap, src);
      var value := cells[src].value;
      M.CollectOnlyReclaims(s1, src);
      assert M.StillRuns(s1, M.Collect(s1, src), t);
      DropSource(f, t, src);
      Finish(f, t, value);
    }

    // lean_promise_new
    method NewPromise(a: M.Addr)
      requires Valid() && a !in heap
      modifies this
      ensures Valid() && Now() == M.PromiseStep(old(Now()), a)
    {
      hide Mirrors;
      NewTask(a, None, false, false, M.Promise);
      origin := origin[next := M.PromiseResult];
      next := next + 1;
    }

    // lean_promise_resolve: a promise that has a value keeps it.
    method ResolvePromise(f: M.Fiber, p: M.Addr, value: M.Value)
      requires Valid() && p in heap
      modifies this
      ensures Valid() && Now() == M.ResolvePromiseStep(old(Now()), f, p, value)
    {
      hide Mirrors, CellOf;
      ghost var s := Now();
      CellAt(cells, heap, p);
      if cells[p].value.Some? {
        return;
      }
      returned := returned[cells[p].uid := M.Val(value)];
      assert Now() == s.(returned := s.returned[s.heap[p].uid := M.Val(value)]);
      Resolve(f, p, value);
    }

    // deactivate_promise: resolved without a value, if it has none, and released by this frame.
    method DropPromise(f: M.Fiber, p: M.Addr, none: M.Value)
      requires Valid() && p in heap && M.Promise in heap[p].owners && M.Frame(f, |Stack(f)|) !in heap[p].owners
      modifies this
      ensures Valid() && Now() == M.DropPromiseStep(old(Now()), f, p, none)
    {
      hide M.ResolvePromiseStep, Mirrors;
      var stack := Stack(f);
      Pass(p, M.Promise, M.Frame(f, |stack|));
      stacks := stacks[f := stack + [M.Tail(p)]];
      ResolvePromise(f, p, none);
    }

    // The scheduler calls lasm_task_execute for a ready task.
    method Start(f: M.Fiber, t: M.Addr)
      requires Valid() && t in heap && heap[t].Closure().Some? && Handover(heap[t], f, |Stack(f)|)
      modifies this
      ensures Valid() && Now() == M.StartStep(old(Now()), f, t)
    {
      hide M.Begin, Mirrors, Handover;
      queued := queued - {t};
      Begin(f, t);
    }

    // A frame ends and releases its reference.
    method LeaveFrame(f: M.Fiber)
      requires Valid() && Owned(heap) && Stack(f) != [] && Stack(f)[|Stack(f)| - 1].Tail? && Stack(f)[|Stack(f)| - 1].task in heap
      requires M.Frame(f, |Stack(f)| - 1) in heap[Stack(f)[|Stack(f)| - 1].task].owners
      modifies this
      ensures Valid() && Now() == M.TailTurn(old(Now()), f)
    {
      hide M.Release, Mirrors, Owned;
      var stack := Stack(f);
      stacks := stacks[f := stack[..|stack| - 1]];
      Release(stack[|stack| - 1].task, M.Frame(f, |stack| - 1));
    }

    // The function of a task returns a value.
    method ReturnValue(f: M.Fiber, t: M.Addr, value: M.Value)
      requires Valid() && Owned(heap) && t in heap && heap[t].imp.Some? && t in calls && !calls[t].closure.BindResult?
      requires Stack(f) != [] && Stack(f)[|Stack(f)| - 1].Exec?
      modifies this
      ensures Valid() && Now() == M.ReturnValueStep(old(Now()), f, t, value)
    {
      hide M.Finish, Mirrors, Owned, Handover;
      returned := returned[calls[t].closure.fn := M.Val(value)];
      Finish(f, t, Some(value));
    }

    method PopFrame(f: M.Fiber)
      requires Stack(f) != []
      modifies this`stacks
      ensures Now() == M.Pop(old(Now()), f)
    {
      stacks := stacks[f := Stack(f)[..|Stack(f)| - 1]];
    }

    // A function was applied in its caller: a new identity, with its history.
    method Note(ghost o: M.Origin, ghost x: M.Value, ghost result: M.Outcome, ghost end: Option<M.Value>)
      modifies this`origin, this`arg, this`returned, this`final, this`applied, this`next
      ensures Now() == Noted(old(Now()), o, x, result, end)
    {
      origin, arg, returned := origin[next := o], arg[next := x], returned[next := result];
      final := if end.Some? then final[next := end.value] else final;
      applied := applied + [next];
      next := next + 1;
    }

    // The function of a synchronous map returns in its caller: lean_task_pure of the value.
    method ReturnMapped(f: M.Fiber, value: M.Value, a: M.Addr, ghost k: int)
      requires Valid() && a !in heap && Stack(f) != [] && Stack(f)[|Stack(f)| - 1].FastMap?
      modifies this
      ensures Valid() && Now() == M.FastMapStep(old(Now()), f, value, a, k)
    {
      FastMapIs(Now(), f, value, a, k);
      hide M.FastMapStep, M.Pop, Noted, Mirrors;
      var frame := Stack(f)[|Stack(f)| - 1];
      PopFrame(f);
      NewValue(a, k, value);
      Note(M.Map(frame.of), frame.arg, M.Val(value), Some(value));
    }

    // The function of a synchronous bind returns in its caller: its task is the result.
    method ReturnBound(f: M.Fiber, n: M.Addr)
      requires Valid() && Stack(f) != [] && Stack(f)[|Stack(f)| - 1].FastBind? && n in heap
      modifies this
      ensures Valid() && Now() == M.FastBindStep(old(Now()), f, n)
    {
      FastBindIs(Now(), f, n);
      MirrorsStand(cells, heap, n, next);
      hide M.FastBindStep, M.Pop, Noted, Mirrors;
      var frame := Stack(f)[|Stack(f)| - 1];
      ghost var k := heap[n];
      PopFrame(f);
      heap := heap[n := k.Standing({next})];
      Note(M.Bind(frame.of), frame.arg, M.Tsk(k.uid), k.value);
    }

    // ---- Every step of the machine is one of these calls ----

    /** Whatever the scheduler and user code call in turn, the tables and the counters stay what
        the machine says, and so every theorem about its runs holds of them. */
    method Perform(act: M.Action)
      requires Valid() && Inv(Now(), Tight) && M.Enabled(Now(), act)
      modifies this
      ensures Valid() && Now() == Next(old(Now()), act) && Inv(Now(), Tight)
    {
      hide Inv, M.Enabled, NextTurn, NextGet, NextReturnValue, NextReturnTask, NextUser, Next, Mirrors;
      StepInv(Now(), act);
      NextIs(Now(), act);
      match act
      case Start(f, t) => PerformTurn(act);
      case LoopStep(f) => PerformTurn(act);
      case TailStep(f) => PerformTurn(act);
      case Get(f) => PerformGet(f);
      case ReturnValue(f, v, a, k) => PerformReturnValue(f, v, a, k);
      case ReturnTask(f, n, k) => PerformReturnTask(f, n, k);
      case _ => PerformUser(act);
    }

    method PerformTurn(act: M.Action)
      requires Valid() && Inv(Now(), Tight) && M.Enabled(Now(), act) && (act.Start? || act.LoopStep? || act.TailStep?)
      modifies this
      ensures Valid() && Now() == NextTurn(old(Now()), act)
    {
      CanTurn(Now(), act.f);
      InvRefs(Now());
      RefsOwned(Now());
      RefsHandover(Now(), act.f);
      if act.TailStep? {
        TailRefs(Now(), act.f);
      }
      hide Inv, M.StartStep, M.LoopTurn, M.TailTurn, Mirrors, Refs, Owned, Handover;
      match act
      case Start(f, t) => Start(f, t);
      case LoopStep(f) => LoopTurn(f);
      case TailStep(f) => LeaveFrame(f);
    }

    method PerformGet(f: M.Fiber)
      requires Valid() && Inv(Now(), Tight) && M.Enabled(Now(), M.Get(f))
      modifies this
      ensures Valid() && Now() == NextGet(old(Now()), f)
    {
      CanGet(Now(), f);
      InvRefs(Now());
      hide Inv, M.GetStep, Mirrors, Refs;
      GetOwn(f, TopFrame(f).value.task);
    }

    method PerformReturnValue(f: M.Fiber, v: M.Value, a: M.Addr, ghost k: int)
      requires Valid() && Inv(Now(), Tight) && M.Enabled(Now(), M.ReturnValue(f, v, a, k))
      modifies this
      ensures Valid() && Now() == NextReturnValue(old(Now()), f, v, a, k)
    {
      hide Inv, M.FastMapStep, M.ReturnValueStep, Mirrors, Refs, Owned;
      if TopFrame(f).value.FastMap? {
        ReturnMapped(f, v, a, k);
      } else {
        InvRefs(Now());
        RefsOwned(Now());
        CanReturn(Now(), f);
        ReturnValue(f, TopFrame(f).value.task, v);
      }
    }

    method PerformReturnTask(f: M.Fiber, n: M.Addr, ghost k: int)
      requires Valid() && Inv(Now(), Tight) && M.Enabled(Now(), M.ReturnTask(f, n, k))
      modifies this
      ensures Valid() && Now() == NextReturnTask(old(Now()), f, n, k)
    {
      hide Inv, M.FastBindStep, M.BindReturn, Mirrors;
      if TopFrame(f).value.FastBind? {
        ReturnBound(f, n);
      } else {
        ReturnFacts(Now(), f, n, k);
        CanReturn(Now(), f);
        hide Returning;
        ReturnTask(f, TopFrame(f).value.task, n, k);
      }
    }

    method PerformUser(act: M.Action)
      requires Valid() && Inv(Now(), Tight) && M.Enabled(Now(), act)
      requires !act.Start? && !act.LoopStep? && !act.TailStep? && !act.Get? && !act.ReturnValue? && !act.ReturnTask?
      modifies this
      ensures Valid() && Now() == NextUser(old(Now()), act)
    {
      InvRefs(Now());
      RefsOwned(Now());
      UserFacts(Now(), act);
      hide Inv, Mirrors, Refs, Owned;
      hide M.SpawnStep, M.PureStep, M.ThenFast, M.ThenSlow, M.PromiseStep;
      hide M.ResolvePromiseStep, M.DropPromiseStep, M.Release, M.AddOwner;
      match act
      case SpawnTask(a, k, keepAlive) => Spawn(a, k, keepAlive);
      case PureTask(a, k, v) => Pure(a, k, v);
      case Then(f, a, k', bind, src, k, sync, keepAlive) => Then(f, a, k', bind, src, k, sync, keepAlive);
      case NewPromise(a) => NewPromise(a);
      case PromiseTask(p, k) => Keep(p, M.Ext(k));
      case ResolvePromise(f, p, v) => ResolvePromise(f, p, v);
      case DropPromise(f, p, v) => DropPromise(f, p, v);
      case Dup(t, j, k) => Keep(t, M.Ext(k));
      case Drop(t, k) => Release(t, M.Ext(k));
    }
  }

  // ---- What the functions find ----

  // The nested task is ours alone: our reference, and its keep-alive one.
  ghost predicate Fuses(s: M.State, t: M.Addr, n: M.Addr, k: int) {
    && t in s.heap && s.heap[t].Running() && s.heap[t].Closure().None? && t in s.calls && s.calls[t].called
    && n in s.heap && s.heap[n].Closure().Some? && !s.heap[n].Running() && !s.heap[n].Deleted() && t != n && s.heap[n].Held() != Some(n)
    && s.heap[n].owners == {M.Ext(k)} + if s.heap[n].imp.value.keepAlive then {M.Scheduled} else {}
  }

  // The running task goes on with a closure, scheduled, on the same stack.
  ghost predicate Goes(s: M.State, s': M.State, f: M.Fiber, t: M.Addr) {
    && M.Stack(s', f) == M.Stack(s, f) && t in s.heap && s.heap[t].imp.Some? && t in s'.heap && s'.heap[t].Closure().Some?
    && s'.heap[t].imp.value.keepAlive == s.heap[t].imp.value.keepAlive && Handover(s'.heap[t], f, |M.Stack(s, f)|)
  }

  lemma KeepHandover(k: M.Task, f: M.Fiber, depth: int, d: Option<M.Addr>)
    requires k.imp.Some? && Unscheduled(k, f, depth)
    ensures Handover(k.KeepScheduled(d), f, depth)
  {
  }

  lemma RefsHandover(s: M.State, f: M.Fiber)
    requires Refs(s)
    ensures forall t :: t in s.heap && s.heap[t].Closure().Some? ==> Handover(s.heap[t], f, |M.Stack(s, f)|)
  {
  }

  lemma RecordRefs(s: M.State, s': M.State)
    requires Refs(s) && s'.heap == s.heap && s'.stacks == s.stacks && s'.calls == s.calls
    ensures Refs(s')
  {
    assert forall a :: M.Holds(s', a) == M.Holds(s, a);
    assert forall f :: M.Stack(s', f) == M.Stack(s, f);
    hide M.Holds, M.Stack;
  }

  lemma MirrorsStand(cells: map<M.Addr, Cell>, heap: map<M.Addr, M.Task>, n: M.Addr, u: M.Uid)
    requires Mirrors(cells, heap) && n in heap
    ensures Mirrors(cells, heap[n := heap[n].Standing({u})])
  {
  }

  lemma EndCallOwned(s: M.State, f: M.Fiber, t: M.Addr)
    requires t in s.heap && s.heap[t].imp.Some? && M.Top(s, f).Some? && M.Top(s, f).value.Exec? && Owned(s.heap)
    ensures Owned(M.EndCall(s, f, t).heap)
  {
    SameOwned(s.heap, t, s.heap[t].(imp := Some(s.heap[t].imp.value.(running := false))));
    hide Owned;
  }

  lemma EndCallHandover(s: M.State, f: M.Fiber, t: M.Addr)
    requires t in s.heap && s.heap[t].imp.Some? && M.Top(s, f).Some? && M.Top(s, f).value.Exec?
    ensures var s1 := M.EndCall(s, f, t); var keep := M.Top(s, f).value.keep;
            var s2 := M.LeaveTail(s1, f, t, keep);
            && t in s2.heap && s2.heap == s1.heap
            && (s.heap[t].imp.value.keepAlive == keep && Handover(s.heap[t], f, |M.Stack(s, f)|) ==>
                  Handover(s2.heap[t], f, |M.Stack(s2, f)|))
  {
  }

  lemma FusesMeans(s: M.State, t: M.Addr, n: M.Addr, k: int)
    ensures Fuses(s, t, n, k) ==> t != n && n in s.heap && s.heap[n].Closure().Some?
  {
  }

  lemma BindReturnIs(s: M.State, f: M.Fiber, t: M.Addr, n: M.Addr, k: int)
    requires M.ReturnsTask(s, f, t, n) && (s.heap[n].value.Some? ==> t != n)
    ensures var s1 := M.BindRecord(s, t, n);
            && M.ReturnsTask(s1, f, t, n) && s1.heap == s.heap && s1.stacks == s.stacks && M.Top(s1, f) == M.Top(s, f)
            && M.CanFuse(s1, t, n) == M.CanFuse(s, t, n)
            && (s.heap[n].value.Some? ==> M.BindReturn(s, f, t, n, k) == M.BindValue(s1, f, t, n, k))
            && (s.heap[n].value.None? && M.CanFuse(s1, t, n) && t != n ==>
                  M.BindReturn(s, f, t, n, k) == M.Finish(M.Fuse(s1, f, t, n), f, t, None))
            && (s.heap[n].value.None? && !M.CanFuse(s1, t, n) ==>
                  M.BindReturn(s, f, t, n, k) == M.Finish(M.Forward(s1, f, t, n, M.Ext(k)), f, t, None))
  {
    hide M.Finish, M.Fuse, M.Forward, M.BindValue;
  }

  // What holds around the fusing of `n` into `t`.
  lemma FuseFacts(s: M.State, f: M.Fiber, t: M.Addr, n: M.Addr, k: int)
    requires Refs(s) && Fuses(s, t, n, k)
    ensures Unscheduled(s.heap[t], f, |M.Stack(s, f)|)
    ensures s.heap[n].Held().Some? && s.heap[n].Held().value in s.heap ==>
              M.HeldBy(n) in s.heap[s.heap[n].Held().value].owners && M.HeldBy(t) !in s.heap[s.heap[n].Held().value].owners
  {
    assert M.Holds(s, n) == s.heap[n].Held();
    assert M.Holds(s, t) == None;
  }

  lemma MovedFacts(s: M.State, f: M.Fiber, t: M.Addr, n: M.Addr, k: int)
    requires Refs(s) && Fuses(s, t, n, k)
    ensures var s1 := M.MoveClosure(s, t, n);
            && t in s1.heap && n in s1.heap && Owned(s1.heap) && s1.heap[n].owners == s.heap[n].owners
            && s1.heap[n].Closure().None? && !s1.heap[n].Running() && !s1.heap[n].Deleted() && s1.heap[n].imp.Some?
            && s1.heap[n].imp.value.keepAlive == s.heap[n].imp.value.keepAlive && s1.heap[n].Held() == None
            && s1.heap[t].Closure().Some? && s1.heap[t].Running() && s1.heap[t].imp.value.keepAlive == s.heap[t].imp.value.keepAlive
            && s1.stacks == s.stacks && Unscheduled(s1.heap[t], f, |M.Stack(s1, f)|)
  {
    FuseFacts(s, f, t, n, k);
    RefsOwned(s);
  }

  lemma ReleaseIs(s: M.State, t: M.Addr, o: M.Owner)
    requires t in s.heap
    ensures M.Release(s, t, o) == M.Collect(M.RemoveOwner(s, t, o), t)
    ensures M.RemoveOwner(s, t, o) == s.(heap := s.heap[t := s.heap[t].Remove(o)])
  {
  }

  // The last reference frees a task, unless it runs.
  lemma ReleaseFrees(s: M.State, t: M.Addr, o: M.Owner)
    requires t in s.heap && o in s.heap[t].owners
    ensures t in M.Release(s, t, o).heap <==> s.heap[t].Count() > 1 || s.heap[t].Running() || s.heap[t].Deleted()
  {
    hide M.Deactivate;
    var s1 := M.RemoveOwner(s, t, o);
    Loses(s.heap[t], o);
    NoneLeft(s1.heap[t]);
    if s1.heap[t].owners == {} && !s1.heap[t].Deleted() {
      if s1.heap[t].Running() {
        MarkStays(s1, t);
      } else {
        M.DeactivateShrinks(s1, t);
      }
    }
  }

  lemma MarkStays(s: M.State, t: M.Addr)
    requires t in s.heap && s.heap[t].Running()
    ensures t in M.Deactivate(s, t).heap
  {
  }

  // Dropping the references of a task that has no other frees it.
  lemma FuseReleases(s: M.State, n: M.Addr, k: int, held: bool)
    requires n in s.heap && s.heap[n].imp.Some? && s.heap[n].Closure().None? && !s.heap[n].Running() && !s.heap[n].Deleted()
    requires s.heap[n].owners == {M.Ext(k)} + if held then {M.Scheduled} else {}
    ensures var s1 := if held then M.Release(s, n, M.Scheduled) else s;
            && n in s1.heap && s1.heap[n].owners == {M.Ext(k)}
            && M.Release(s1, n, M.Ext(k)) == M.Forget(s, n).(heap := s.heap - {n})
  {
    hide M.Release;
    if held {
      ReleaseOther(s, n, k);
      var s1 := M.RemoveOwner(s, n, M.Scheduled);
      ReleaseLast(s1, n, M.Ext(k));
      assert s1.heap - {n} == s.heap - {n};
    } else {
      ReleaseLast(s, n, M.Ext(k));
    }
  }

  lemma ReleaseOther(s: M.State, n: M.Addr, k: int)
    requires n in s.heap && s.heap[n].owners == {M.Ext(k), M.Scheduled}
    ensures M.Release(s, n, M.Scheduled) == M.RemoveOwner(s, n, M.Scheduled)
    ensures M.RemoveOwner(s, n, M.Scheduled).heap[n].owners == {M.Ext(k)}
  {
    assert M.Ext(k) in s.heap[n].Remove(M.Scheduled).owners;
    hide M.Deactivate;
  }

  lemma ReleaseLast(s: M.State, n: M.Addr, o: M.Owner)
    requires n in s.heap && s.heap[n].imp.Some? && s.heap[n].Closure().None? && !s.heap[n].Running() && !s.heap[n].Deleted()
    requires s.heap[n].owners == {o}
    ensures M.Release(s, n, o) == M.Forget(s, n).(heap := s.heap - {n})
  {
    var s1 := M.RemoveOwner(s, n, o);
    assert s1.heap[n].owners == {};
    assert s1.heap[n].Held() == None;
    DeactivateIs(s1, n);
    assert M.Release(s, n, o) == M.Deactivate(s1, n);
    hide M.Deactivate, M.Release;
    assert M.Free(M.Forget(s1, n), n).heap == s.heap - {n};
  }

  lemma FusedIs(s: M.State, t: M.Addr, n: M.Addr)
    requires t in s.heap && s.heap[t].imp.Some? && n in s.heap && s.heap[n].Closure().Some? && t != n
    ensures var s1 := M.MoveClosure(s, t, n);
            M.Forget(s1.(queued := s1.queued - {n}, syncRegistered := s1.syncRegistered - {n}), n) == M.Forget(s1, n)
  {
    var s1 := M.MoveClosure(s, t, n);
    hide M.MoveClosure;
    assert s1.queued - {n} - {n} == s1.queued - {n};
    assert s1.syncRegistered - {n} - {n} == s1.syncRegistered - {n};
  }

  lemma ForwardFacts(s: M.State, f: M.Fiber, t: M.Addr, n: M.Addr, k: int)
    requires Refs(s) && t in s.heap && s.heap[t].Running() && s.heap[t].Closure().None? && n in s.heap
    requires M.Ext(k) in s.heap[n].owners && M.HeldBy(t) !in s.heap[n].owners
    ensures var h := M.Rehold(s.heap[t := s.heap[t].WithClosure(Some(M.BindResult(n)))], Some(n), M.Ext(k), M.HeldBy(t));
            && Owned(h) && t in h && h[t].Closure().Some? && h[t].Running() && h[t].imp.value.keepAlive == s.heap[t].imp.value.keepAlive
            && Unscheduled(h[t], f, |M.Stack(s, f)|)
  {
    RefsOwned(s);
  }

  lemma FuseOwners(s: M.State, t: M.Addr, n: M.Addr, k: int)
    requires Inv(s, Tight) && M.HasRef(s, n, M.Ext(k)) && M.CanFuse(s, t, n)
    requires s.heap[t].Running() && s.heap[t].Closure().None? && t in s.calls && s.calls[t].called
    ensures Fuses(s, t, n, k)
  {
    TaskNested.FusedIsOurs(s, t, n, k);
    TaskNested.CanBeFused(s, t, n);
    InvRefs(s);
    TaskNested.OnlyOurs(s.heap[n].owners, M.Ext(k), s.heap[n].imp.value.keepAlive);
    assert ShapeAt(s, {}, n);
    hide Inv;
  }

  // The running task is scheduled with its new closure; it is not executed yet.
  lemma ScheduleGoes(s: M.State, f: M.Fiber, t: M.Addr, d: Option<M.Addr>)
    requires t in s.heap && s.heap[t].Closure().Some? && s.heap[t].Running() && Owned(s.heap) && Unscheduled(s.heap[t], f, |M.Stack(s, f)|)
    ensures var s' := M.Schedule(s, f, t, d);
            && s'.stacks == s.stacks && t in s'.heap && s'.heap[t].Closure().Some? && Owned(s'.heap)
            && s'.heap[t].imp.value.keepAlive == s.heap[t].imp.value.keepAlive && Handover(s'.heap[t], f, |M.Stack(s, f)|)
  {
    KeepHandover(s.heap[t], f, |M.Stack(s, f)|, d);
    ScheduleOwned(s.heap, t, d);
    ScheduleHeap(s, f, t, d);
    assert s.heap[t].KeepScheduled(d).imp == Some(s.heap[t].imp.value.(nextDep := d));
    hide Owned, Handover, Unscheduled, M.Task.KeepScheduled, M.Stack, M.Schedule;
  }

  lemma ScheduleHeap(s: M.State, f: M.Fiber, t: M.Addr, d: Option<M.Addr>)
    requires t in s.heap && s.heap[t].Closure().Some? && s.heap[t].Running()
    ensures M.Schedule(s, f, t, d).stacks == s.stacks
    ensures M.Schedule(s, f, t, d).heap == s.heap[t := s.heap[t].KeepScheduled(d)]
  {
    var s1 := s.(heap := s.heap[t := s.heap[t].KeepScheduled(d)]);
    assert s1.heap[t].imp == Some(s.heap[t].imp.value.(nextDep := d));
    RunningEnqueued(s1, f, t);
    hide M.Enqueue, M.Task.KeepScheduled;
  }

  lemma RunningEnqueued(s: M.State, f: M.Fiber, t: M.Addr)
    requires t in s.heap && s.heap[t].Closure().Some? && s.heap[t].Running()
    ensures M.Enqueue(s, f, t).heap == s.heap && M.Enqueue(s, f, t).stacks == s.stacks
  {
    if s.heap[t].imp.value.sync {
      RunningRegistered(s, f, t);
      hide M.EnqueueSync;
    } else {
      hide M.EnqueueSync;
    }
  }

  lemma RunningRegistered(s: M.State, f: M.Fiber, t: M.Addr)
    requires t in s.heap && s.heap[t].Closure().Some? && s.heap[t].Running()
    ensures M.EnqueueSync(s, f, t).heap == s.heap && M.EnqueueSync(s, f, t).stacks == s.stacks
  {
    hide M.Begin;
    if M.Unresolved(s, s.heap[t].imp.value.nextDep) {
    } else {
      assert M.EnqueueSync(s, f, t) == s;
    }
  }

  lemma ScheduleOwned(heap: map<M.Addr, M.Task>, t: M.Addr, d: Option<M.Addr>)
    requires t in heap && heap[t].imp.Some? && Owned(heap)
    ensures Owned(heap[t := heap[t].KeepScheduled(d)])
  {
  }

  lemma UserFacts(s: M.State, act: M.Action)
    requires Inv(s, Tight) && M.Enabled(s, act)
    ensures act.Then? ==> M.HeldBy(act.a) !in s.heap[act.src].owners
    ensures act.DropPromise? ==> M.Frame(act.f, |M.Stack(s, act.f)|) !in s.heap[act.p].owners
  {
    InvRefs(s);
    if act.Then? {
      assert act.a !in s.calls;
      hide Inv;
      assert M.Holds(s, act.a) == None;
    } else {
      hide Inv;
    }
  }

  // The user's function returned the task `n`, of which it had our reference.
  ghost predicate Returning(s: M.State, f: M.Fiber, t: M.Addr, n: M.Addr, k: int)
    requires M.ReturnsTask(s, f, t, n)
  {
    && Refs(s) && M.Ext(k) in s.heap[n].owners && M.HeldBy(t) !in s.heap[n].owners
    && s.heap[t].imp.Some? && s.heap[t].imp.value.keepAlive == M.Top(s, f).value.keep
    && (M.CanFuse(s, t, n) ==> Fuses(s, t, n, k))
  }

  lemma ReturnFacts(s: M.State, f: M.Fiber, n: M.Addr, k: int)
    requires Inv(s, Tight) && M.Enabled(s, M.ReturnTask(f, n, k)) && M.Top(s, f).value.Exec?
    ensures var t := M.Top(s, f).value.task;
            M.ReturnsTask(s, f, t, n) && (s.heap[n].value.Some? ==> t != n) && Returning(s, f, t, n, k)
  {
    var t := M.Top(s, f).value.task;
    CanReturn(s, f);
    InvRefs(s);
    TaskSteps.TopRuns(s, f, Firm);
    hide Inv;
    HoldsNothing(s, t, n);
    hide Refs;
    if M.CanFuse(s, t, n) {
      FuseOwners(s, t, n, k);
    }
  }

  // The state once the returned task is recorded.
  lemma ReturnReady(s: M.State, s1: M.State, f: M.Fiber, t: M.Addr, n: M.Addr, k: int)
    requires M.ReturnsTask(s, f, t, n) && (s.heap[n].value.Some? ==> t != n) && Returning(s, f, t, n, k)
    requires s1 == M.BindRecord(s, t, n)
    ensures M.ReturnsTask(s1, f, t, n) && Returning(s1, f, t, n, k) && s1.heap == s.heap
    ensures M.CanFuse(s1, t, n) ==> t != n
    ensures s.heap[n].value.Some? ==> M.BindReturn(s, f, t, n, k) == M.BindValue(s1, f, t, n, k)
    ensures s.heap[n].value.None? && M.CanFuse(s1, t, n) ==> M.BindReturn(s, f, t, n, k) == M.Finish(M.Fuse(s1, f, t, n), f, t, None)
    ensures s.heap[n].value.None? && !M.CanFuse(s1, t, n) ==>
              M.BindReturn(s, f, t, n, k) == M.Finish(M.Forward(s1, f, t, n, M.Ext(k)), f, t, None)
  {
    RecordRefs(s, s1);
    BindReturnIs(s, f, t, n, k);
    FusesMeans(s, t, n, k);
    hide M.BindReturn, M.BindValue, M.CanFuse, M.Fuse, M.Forward, M.Finish, Refs;
  }

  // A task whose closure has been called holds nothing.
  lemma HoldsNothing(s: M.State, t: M.Addr, n: M.Addr)
    requires Refs(s) && t in s.heap && s.heap[t].Closure().None? && t in s.calls && s.calls[t].called && n in s.heap
    ensures M.HeldBy(t) !in s.heap[n].owners
  {
    assert M.Holds(s, t) == None;
  }

  ghost function Noted(s: M.State, o: M.Origin, x: M.Value, result: M.Outcome, end: Option<M.Value>): M.State {
    s.(next := s.next + 1, origin := s.origin[s.next := o], arg := s.arg[s.next := x], returned := s.returned[s.next := result],
       final := if end.Some? then s.final[s.next := end.value] else s.final, applied := s.applied + [s.next])
  }

  lemma FastMapIs(s: M.State, f: M.Fiber, v: M.Value, a: M.Addr, k: int)
    requires M.Top(s, f).Some? && M.Top(s, f).value.FastMap?
    ensures var frame := M.Top(s, f).value; var s1 := M.Pop(s, f);
            && s1.heap == s.heap && s1.next == s.next
            && M.FastMapStep(s, f, v, a, k) ==
               Noted(s1.(heap := s.heap[a := M.Task(s.next, {s.next}, Some(v), None, {M.Ext(k)})]), M.Map(frame.of), frame.arg, M.Val(v), Some(v))
  {
  }

  lemma FastBindIs(s: M.State, f: M.Fiber, n: M.Addr)
    requires M.Top(s, f).Some? && M.Top(s, f).value.FastBind? && n in s.heap
    ensures var frame := M.Top(s, f).value; var s1 := M.Pop(s, f);
            && s1.heap == s.heap && s1.next == s.next
            && M.FastBindStep(s, f, n) ==
               Noted(s1.(heap := s.heap[n := s.heap[n].Standing({s.next})]), M.Bind(frame.of), frame.arg, M.Tsk(s.heap[n].uid), s.heap[n].value)
  {
  }

  lemma NextIs(s: M.State, act: M.Action)
    requires Inv(s, Tight) && M.Enabled(s, act)
    ensures act.Start? || act.LoopStep? || act.TailStep? ==> Next(s, act) == NextTurn(s, act)
    ensures act.Get? ==> Next(s, act) == NextGet(s, act.f)
    ensures act.ReturnValue? ==> Next(s, act) == NextReturnValue(s, act.f, act.v, act.a, act.k)
    ensures act.ReturnTask? ==> Next(s, act) == NextReturnTask(s, act.f, act.n, act.k)
    ensures !act.Start? && !act.LoopStep? && !act.TailStep? && !act.Get? && !act.ReturnValue? && !act.ReturnTask? ==>
              Next(s, act) == NextUser(s, act)
  {
    hide Inv, M.Enabled, NextTurn, NextGet, NextReturnValue, NextReturnTask, NextUser;
  }

  lemma ForgetKeepsHeap(s: M.State, t: M.Addr)
    ensures M.Forget(s, t).heap == s.heap
  {
  }

  lemma DeactivateIs(s: M.State, t: M.Addr)
    requires t in s.heap
    ensures var s1 := M.Forget(s, t);
            M.Deactivate(s, t) ==
            if s1.heap[t].Running() then s1.(heap := s1.heap[t := s1.heap[t].(imp := Some(s1.heap[t].imp.value.(deleted := true)))])
            else if s.heap[t].Held().Some? && s.heap[t].Held().value in M.Free(s1, t).heap
            then M.Collect(M.Free(s1, t), s.heap[t].Held().value) else M.Free(s1, t)
  {
    hide M.Collect, M.Free, M.Forget;
  }

  // What the epilogue reads again after clearing the bit is what it was.
  lemma EndCallKeeps(s: M.State, f: M.Fiber, t: M.Addr)
    requires t in s.heap && s.heap[t].imp.Some? && M.Top(s, f).Some? && M.Top(s, f).value.Exec?
    ensures var s1 := M.EndCall(s, f, t);
            && t in s1.heap && s1.heap[t].imp.Some?
            && s1.heap[t].Deleted() == s.heap[t].Deleted() && s1.heap[t].Closure() == s.heap[t].Closure()
            && s1.heap[t].imp.value.sync == s.heap[t].imp.value.sync
  {
  }
}
