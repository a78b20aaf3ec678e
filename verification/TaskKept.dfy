/** A task that keeps itself alive is not lost: until it ends, a live task stands for it. */
module TaskKept {
  import opened Wrappers
  import opened TaskMachine
  import opened TaskInvariant
  import opened TaskFrames
  import opened TaskFinish
  import opened TaskReturns
  import opened TaskNested
  import opened TaskRebind
  import opened TaskRuns
  import opened TaskSteady

  // ---- References that the runtime itself holds ----

  // A keep-alive reference: of the schedule, or of the frame of an execution.
  predicate Strong(k: Task) {
    exists o <- k.owners :: o.Scheduled? || o.Frame?
  }

  predicate SolidTask(k: Task) {
    && (k.Deleted() ==> !Strong(k) && !k.imp.value.keepAlive)
    && (k.Running() && k.imp.value.keepAlive ==> Strong(k))
  }

  ghost predicate Solid(h: map<Addr, Task>) {
    forall a :: a in h ==> SolidTask(h[a])
  }

  // Tasks with such a reference stay and keep one, but for `x`.
  ghost predicate Spared(h: map<Addr, Task>, h': map<Addr, Task>, x: Option<Addr>) {
    && Solid(h')
    && forall a :: a in h && x != Some(a) && Strong(h[a]) ==> a in h' && Strong(h'[a])
  }

  lemma InvSolid(s: State)
    requires Inv(s, Tight)
    ensures Solid(s.heap)
  {
    hide ProgressOk, HistoryOk, MeaningOk, WaitsOk;
    forall t | t in s.heap
      ensures SolidTask(s.heap[t])
    {
      assert ShapeAt(s, {}, t);
      if s.heap[t].Running() && s.heap[t].imp.value.keepAlive {
        var c := s.calls[t];
        assert Stack(s, c.fiber)[c.depth].task == t && ExecAt(s, c.fiber, c.depth);
        assert Keeps(s, c.fiber, c.depth, t);
        assert Frame(c.fiber, c.depth) in s.heap[t].owners;
      }
    }
  }

  lemma SparedTrans(h: map<Addr, Task>, h1: map<Addr, Task>, h2: map<Addr, Task>, x: Option<Addr>)
    requires Spared(h, h1, x) && Spared(h1, h2, x)
    ensures Spared(h, h2, x)
  {
    hide Strong, Solid;
  }

  lemma Unmoved(h: map<Addr, Task>, x: Option<Addr>)
    requires Solid(h)
    ensures Spared(h, h, x)
  {
  }

  lemma OneChanged(h: map<Addr, Task>, t: Addr, k: Task)
    requires Solid(h) && t in h && SolidTask(k) && (Strong(h[t]) ==> Strong(k))
    ensures Spared(h, h[t := k], None)
  {
    hide Strong, SolidTask;
  }

  // Other references come and go.
  lemma WeakOwner(k: Task, o: Owner)
    requires SolidTask(k) && !o.Scheduled? && !o.Frame?
    ensures Strong(k.Remove(o)) == Strong(k) && SolidTask(k.Remove(o))
    ensures Strong(k.Add(o)) == Strong(k) && SolidTask(k.Add(o))
  {
    if Strong(k) {
      var w :| w in k.owners && (w.Scheduled? || w.Frame?);
      assert w in k.Remove(o).owners && w in k.Add(o).owners;
    }
  }

  lemma StrongOwner(k: Task, o: Owner)
    requires o in k.owners && (o.Scheduled? || o.Frame?)
    ensures Strong(k)
  {
  }

  // ---- Reclaiming ----

  lemma FreeSpares(h: map<Addr, Task>, t: Addr)
    requires Solid(h) && t in h && !Strong(h[t])
    ensures Spared(h, FreeTask(h, t), None)
  {
    var d := h[t].Held();
    if d.Some? && d.value in h && d.value != t {
      WeakOwner(h[d.value], HeldBy(t));
    }
    hide Strong, SolidTask;
  }

  lemma MarkSpares(s: State, t: Addr)
    requires Solid(s.heap) && t in s.heap && s.heap[t].Running() && !Strong(s.heap[t])
    ensures Spared(s.heap, Deactivate(s, t).heap, None)
  {
    var k := s.heap[t].(imp := Some(s.heap[t].imp.value.(deleted := true)));
    assert Deactivate(s, t).heap == s.heap[t := k];
    assert Strong(k) == Strong(s.heap[t]);
    assert SolidTask(s.heap[t]);
    OneChanged(s.heap, t, k);
  }

  lemma {:induction false} DeactivateSpares(s: State, t: Addr)
    requires Solid(s.heap) && t in s.heap && !Strong(s.heap[t])
    ensures Spared(s.heap, Deactivate(s, t).heap, None)
    decreases |s.heap|, 0
  {
    if s.heap[t].Running() {
      MarkSpares(s, t);
    } else {
      var s2 := Free(Forget(s, t), t);
      FreeSpares(s.heap, t);
      FreeKeys(s, t);
      assert s2.heap == FreeTask(s.heap, t);
      hide Free, Spared, Solid, Strong;
      var d := s.heap[t].Held();
      SparedSolid(s.heap, s2.heap);
      if d.Some? && d.value in s2.heap {
        CollectSpares(s2, d.value);
        SparedTrans(s.heap, s2.heap, Collect(s2, d.value).heap, None);
        assert Deactivate(s, t) == Collect(s2, d.value);
      }
    }
  }

  lemma SparedSolid(h: map<Addr, Task>, h': map<Addr, Task>)
    requires exists x :: Spared(h, h', x)
    ensures Solid(h')
  {
  }

  lemma {:induction false} CollectSpares(s: State, t: Addr)
    requires Solid(s.heap) && t in s.heap
    ensures Spared(s.heap, Collect(s, t).heap, None)
    decreases |s.heap|, 1
  {
    if s.heap[t].owners == {} && !s.heap[t].Deleted() {
      DeactivateSpares(s, t);
      hide Deactivate, Spared;
    } else {
      Unmoved(s.heap, None);
    }
  }

  // A reference is released that is not a keep-alive one, or not the last.
  lemma ReleaseSpares(s: State, t: Addr, o: Owner)
    requires Solid(s.heap) && t in s.heap && SolidTask(s.heap[t].Remove(o)) && (Strong(s.heap[t]) ==> Strong(s.heap[t].Remove(o)))
    ensures Spared(s.heap, Release(s, t, o).heap, None)
  {
    var s1 := RemoveOwner(s, t, o);
    OneChanged(s.heap, t, s.heap[t].Remove(o));
    SparedSolid(s.heap, s1.heap);
    CollectSpares(s1, t);
    hide Collect, Spared, Strong, SolidTask, Solid;
    SparedTrans(s.heap, s1.heap, Collect(s1, t).heap, None);
  }

  // ---- Scheduling ----

  lemma BegunStrong(k: Task, f: Fiber, depth: int)
    requires SolidTask(k) && k.imp.Some?
    ensures SolidTask(k.Begun(f, depth)) && (Strong(k) ==> Strong(k.Begun(f, depth)))
  {
    if k.imp.value.keepAlive {
      StrongOwner(k.Begun(f, depth), Frame(f, depth));
    } else {
      assert k.Begun(f, depth).owners == k.owners;
    }
  }

  lemma ScheduledStrong(k: Task, d: Option<Addr>)
    requires SolidTask(k) && k.imp.Some?
    ensures SolidTask(k.KeepScheduled(d)) && (Strong(k) ==> Strong(k.KeepScheduled(d)))
    ensures k.imp.value.keepAlive ==> Strong(k.KeepScheduled(d))
  {
    if k.imp.value.keepAlive {
      StrongOwner(k.KeepScheduled(d), Scheduled);
    } else {
      assert k.KeepScheduled(d).owners == k.owners;
    }
  }

  lemma BeginSpares(s: State, f: Fiber, t: Addr)
    requires Solid(s.heap) && t in s.heap && s.heap[t].Closure().Some?
    ensures Spared(s.heap, Begin(s, f, t).heap, None)
  {
    BegunStrong(s.heap[t], f, |Stack(s, f)|);
    OneChanged(s.heap, t, s.heap[t].Begun(f, |Stack(s, f)|));
    hide Spared, Strong, SolidTask;
  }

  lemma EnqueueSpares(s: State, f: Fiber, t: Addr)
    requires Solid(s.heap) && t in s.heap && s.heap[t].Closure().Some?
    ensures Spared(s.heap, Enqueue(s, f, t).heap, None)
  {
    BeginSpares(s, f, t);
    Unmoved(s.heap, None);
    hide Spared, Begin, Solid, Enqueue;
    if Begins(s, t) {
      EnqueueBegins(s, f, t);
    } else {
      EnqueueWaits(s, f, t);
    }
  }

  lemma ScheduleSpares(s: State, f: Fiber, t: Addr, d: Option<Addr>)
    requires Solid(s.heap) && t in s.heap && s.heap[t].Closure().Some?
    ensures Spared(s.heap, Schedule(s, f, t, d).heap, None)
  {
    var s1 := s.(heap := s.heap[t := s.heap[t].KeepScheduled(d)]);
    ScheduledStrong(s.heap[t], d);
    OneChanged(s.heap, t, s.heap[t].KeepScheduled(d));
    SparedSolid(s.heap, s1.heap);
    EnqueueSpares(s1, f, t);
    hide Enqueue, Spared, Strong, SolidTask, Solid;
    SparedTrans(s.heap, s1.heap, Enqueue(s1, f, t).heap, None);
  }

  lemma SchedulingSpares(y: State, f: Fiber, t: Addr)
    requires Solid(y.heap) && t in y.heap && y.heap[t].Closure().Some?
    ensures Spared(y.heap, Scheduling(y, f, t).heap, None)
  {
    EnqueueSpares(y, f, t);
    Unmoved(y.heap, None);
    hide Enqueue, Spared, Solid;
  }

  // ---- The end of an execution ----

  lemma SettleSpares(s: State, f: Fiber, t: Addr, v: Value)
    requires Solid(s.heap) && t in s.heap
    ensures Spared(s.heap, Settle(s, f, t, v).heap, None)
  {
    var k := s.heap[t].(value := Some(v), imp := None);
    assert k.owners == s.heap[t].owners;
    OneChanged(s.heap, t, k);
  }

  lemma EndSpares(s: State, f: Fiber, t: Addr)
    requires OnTop(s, f, t) && Solid(s.heap)
    ensures Spared(s.heap, EndCall(s, f, t).heap, None) && EndPush(s, f, t).heap == EndCall(s, f, t).heap
    ensures t in EndCall(s, f, t).heap && EndCall(s, f, t).heap[t].owners == s.heap[t].owners
    ensures !EndCall(s, f, t).heap[t].Running() && EndCall(s, f, t).heap[t].Closure() == s.heap[t].Closure()
  {
    var k := s.heap[t].(imp := Some(s.heap[t].imp.value.(running := false)));
    assert k.owners == s.heap[t].owners;
    assert SolidTask(s.heap[t]);
    OneChanged(s.heap, t, k);
  }

  lemma FinishSpares(s: State, f: Fiber, t: Addr, value: Option<Value>)
    requires OnTop(s, f, t) && Solid(s.heap) && (value.None? ==> s.heap[t].Closure().Some?) && s.heap[t].value.None?
    ensures Spared(s.heap, Finish(s, f, t, value).heap, None)
  {
    var e, i := EndCall(s, f, t), EndPush(s, f, t);
    EndSpares(s, f, t);
    SparedSolid(s.heap, e.heap);
    if s.heap[t].Deleted() {
      assert SolidTask(s.heap[t]) && Strong(e.heap[t]) == Strong(s.heap[t]);
      DeactivateSpares(e, t);
      hide Spared, Solid, Strong, EndCall, Deactivate;
      SparedTrans(s.heap, e.heap, Deactivate(e, t).heap, None);
    } else {
      hide Spared, Solid, Strong;
      if value.Some? {
        FinishSettles(s, f, t, value.value);
        hide Finish, EndCall, EndPush;
        SettleSpares(i, f, t, value.value);
        SparedTrans(s.heap, i.heap, Settle(i, f, t, value.value).heap, None);
      } else {
        assert i == LeaveTail(e, f, t, Top(s, f).value.keep);
        hide EndCall, EndPush, LeaveTail;
        EnqueueSpares(i, f, t);
        hide Enqueue;
        if s.heap[t].imp.value.sync {
          SparedTrans(s.heap, i.heap, Enqueue(i, f, t).heap, None);
        }
      }
    }
  }

  // ---- The steps of a running task ----

  lemma TakeSpares(s: State, t: Addr)
    requires Solid(s.heap) && t in s.calls && !s.calls[t].closure.Call? && s.calls[t].closure.src in s.heap
    ensures Spared(s.heap, TakeSource(s, t).heap, None)
  {
    var d := s.calls[t].closure.src;
    WeakOwner(s.heap[d], HeldBy(t));
    OneChanged(s.heap, d, s.heap[d].Remove(HeldBy(t)));
  }

  lemma GetResultSpares(s: State, f: Fiber, t: Addr)
    requires Solid(s.heap) && GetsValue(s, f, t) && OnTop(s, f, t) && s.heap[t].value.None?
    ensures Spared(s.heap, GetResult(s, f, t).heap, None)
  {
    var d := s.calls[t].closure.src;
    var s1 := TakeSource(s, t);
    TakeSpares(s, t);
    SparedSolid(s.heap, s1.heap);
    CollectOnlyReclaims(s1, d);
    assert StillRuns(s1, Collect(s1, d), t);
    CollectSpares(s1, d);
    SparedSolid(s1.heap, Collect(s1, d).heap);
    AfterCollect(s1, d, f, t);
    hide Collect, Finish, TakeSource, Spared, Solid;
    FinishSpares(Collect(s1, d), f, t, s.heap[d].value);
    SparedTrans(s.heap, s1.heap, Collect(s1, d).heap, None);
    SparedTrans(s.heap, Collect(s1, d).heap, GetResult(s, f, t).heap, None);
  }

  lemma GetArgumentSpares(s: State, t: Addr)
    requires t in s.calls && (s.calls[t].closure.MapFn? || s.calls[t].closure.BindFn?)
    requires s.calls[t].closure.src in s.heap && s.heap[s.calls[t].closure.src].value.Some? && Solid(s.heap)
    ensures Spared(s.heap, GetArgument(s, t).heap, None)
  {
    var c := s.calls[t].closure;
    var s1 := TakeSource(s, t);
    var s2 := s1.(arg := s.arg[c.fn := s.heap[c.src].value.value], applied := s.applied + [c.fn]);
    TakeSpares(s, t);
    SparedSolid(s.heap, s2.heap);
    CollectSpares(s2, c.src);
    hide Collect, Spared, Solid;
    SparedTrans(s.heap, s2.heap, Collect(s2, c.src).heap, None);
  }

  lemma BindValueSpares(s: State, f: Fiber, t: Addr, n: Addr, k: int)
    requires Solid(s.heap) && ReturnsTask(s, f, t, n) && OnTop(s, f, t) && s.calls[t].called && s.heap[t].value.None?
    requires s.heap[n].value.Some? && t != n
    ensures Spared(s.heap, BindValue(s, f, t, n, k).heap, None)
  {
    var s1 := RemoveOwner(s, n, Ext(k));
    CollectOnlyReclaims(s1, n);
    assert StillRuns(s1, Collect(s1, n), t);
    WeakOwner(s.heap[n], Ext(k));
    OneChanged(s.heap, n, s.heap[n].Remove(Ext(k)));
    SparedSolid(s.heap, s1.heap);
    CollectSpares(s1, n);
    SparedSolid(s1.heap, Collect(s1, n).heap);
    AfterCollect(s1, n, f, t);
    hide Collect, Finish, Spared, Solid;
    FinishSpares(Collect(s1, n), f, t, s.heap[n].value);
    SparedTrans(s.heap, s1.heap, Collect(s1, n).heap, None);
    SparedTrans(s.heap, Collect(s1, n).heap, BindValue(s, f, t, n, k).heap, None);
  }

  lemma ForwardSpares(s: State, f: Fiber, t: Addr, n: Addr, k: int)
    requires Solid(s.heap) && t in s.heap && s.heap[t].Running() && n in s.heap
    ensures Spared(s.heap, Forward(s, f, t, n, Ext(k)).heap, None)
  {
    var y := Forwarded(s, t, n, Ext(k));
    ForwardIs(s, f, t, n, Ext(k));
    ForwardedRest(s, t, n, Ext(k));
    hide Forward, Forwarded;
    forall a | a in y.heap
      ensures SolidTask(y.heap[a]) && (Strong(s.heap[a]) ==> Strong(y.heap[a]))
    {
      ForwardedTask(s, t, n, Ext(k), a);
      ForwardedStrong(s.heap[a], a == t, a == n, n, t, k);
    }
    hide Strong, SolidTask;
    assert Spared(s.heap, y.heap, None);
    SchedulingSpares(y, f, t);
    hide Spared, Solid, Scheduling;
    SparedTrans(s.heap, y.heap, Scheduling(y, f, t).heap, None);
  }

  lemma ForwardedStrong(k0: Task, running: bool, nested: bool, n: Addr, t: Addr, j: int)
    requires SolidTask(k0) && (running ==> k0.imp.Some?)
    ensures var k := if running then k0.WithClosure(Some(BindResult(n))).KeepScheduled(Some(n)) else k0;
            var k' := if nested then k.Remove(Ext(j)).Add(HeldBy(t)) else k;
            SolidTask(k') && (Strong(k0) ==> Strong(k'))
  {
    var k1 := k0;
    if running {
      k1 := k0.WithClosure(Some(BindResult(n)));
      assert k1.owners == k0.owners;
      ScheduledStrong(k1, Some(n));
      k1 := k1.KeepScheduled(Some(n));
    }
    if nested {
      WeakOwner(k1, Ext(j));
      WeakOwner(k1.Remove(Ext(j)), HeldBy(t));
    }
  }

  lemma FuseSpares(s: State, f: Fiber, t: Addr, n: Addr)
    requires Solid(s.heap) && t in s.heap && s.heap[t].Running() && Fusable(s, t, n)
    ensures Spared(s.heap, Fuse(s, f, t, n).heap, Some(n))
  {
    var y := Fused(s, t, n);
    FuseIs(s, f, t, n);
    FusedTask(s, t, n, t);
    hide Fuse, Fused;
    forall a | a in y.heap
      ensures a in s.heap && SolidTask(y.heap[a]) && (Strong(s.heap[a]) ==> Strong(y.heap[a]))
    {
      FusedTask(s, t, n, a);
      FusedStrong(s.heap[a], a == t, s.heap[n], s.heap[n].Held() == Some(a), n, t);
    }
    forall a | a in s.heap && a != n
      ensures a in y.heap
    {
      FusedTask(s, t, n, a);
    }
    hide Strong, SolidTask;
    assert Spared(s.heap, y.heap, Some(n));
    SchedulingSpares(y, f, t);
    SparedBut(y.heap, Scheduling(y, f, t).heap, Some(n));
    hide Spared, Solid, Scheduling;
    SparedTrans(s.heap, y.heap, Scheduling(y, f, t).heap, Some(n));
  }

  lemma SparedBut(h: map<Addr, Task>, h': map<Addr, Task>, x: Option<Addr>)
    requires Spared(h, h', None)
    ensures Spared(h, h', x)
  {
  }

  lemma FusedStrong(k0: Task, running: bool, kn: Task, held: bool, n: Addr, t: Addr)
    requires SolidTask(k0) && (running ==> k0.imp.Some?)
    ensures var k := if running then k0.WithClosure(kn.Closure()).Standing(kn.standsFor).KeepScheduled(kn.Held()) else k0;
            var k' := if held then k.Remove(HeldBy(n)).Add(HeldBy(t)) else k;
            SolidTask(k') && (Strong(k0) ==> Strong(k'))
  {
    var k1 := k0;
    if running {
      k1 := k0.WithClosure(kn.Closure()).Standing(kn.standsFor);
      assert k1.owners == k0.owners;
      ScheduledStrong(k1, kn.Held());
      k1 := k1.KeepScheduled(kn.Held());
    }
    if held {
      WeakOwner(k1, HeldBy(n));
      WeakOwner(k1.Remove(HeldBy(n)), HeldBy(t));
    }
  }

  // ---- Steps ----

  // What the fusing step takes out of the heap.
  function Gone(s: State, act: Action): Option<Addr> {
    match act
    case ReturnTask(f, n, k) =>
      if Top(s, f).Some? && Top(s, f).value.Exec? && n in s.heap && s.heap[n].value.None? && CanFuse(s, Top(s, f).value.task, n)
      then Some(n) else None
    case _ => None
  }

  lemma BindReturnSpares(s: State, f: Fiber, t: Addr, n: Addr, k: int)
    requires Solid(s.heap) && ReturnsTask(s, f, t, n) && OnTop(s, f, t) && s.calls[t].called && s.heap[t].value.None?
    requires (s.heap[n].value.Some? ==> t != n) && (CanFuse(s, t, n) ==> Fusable(s, t, n))
    ensures Spared(s.heap, BindReturn(s, f, t, n, k).heap, if s.heap[n].value.None? && CanFuse(s, t, n) then Some(n) else None)
  {
    hide Finish, Fuse, Forward, BindValue, Spared, Solid, Fused, Forwarded;
    var s1 := BindRecord(s, t, n);
    if s.heap[n].value.Some? {
      BindValueSpares(s1, f, t, n, k);
    } else if CanFuse(s1, t, n) {
      FuseSpares(s1, f, t, n);
      FuseOnTop(s1, f, t, n);
      SparedSolid(s1.heap, Fuse(s1, f, t, n).heap);
      FuseOpen(s1, f, t, n);
      FinishSpares(Fuse(s1, f, t, n), f, t, None);
      SparedBut(Fuse(s1, f, t, n).heap, BindReturn(s, f, t, n, k).heap, Some(n));
      SparedTrans(s.heap, Fuse(s1, f, t, n).heap, BindReturn(s, f, t, n, k).heap, Some(n));
    } else {
      ForwardSpares(s1, f, t, n, k);
      ForwardOnTop(s1, f, t, n, k);
      SparedSolid(s1.heap, Forward(s1, f, t, n, Ext(k)).heap);
      ForwardOpen(s1, f, t, n, k);
      FinishSpares(Forward(s1, f, t, n, Ext(k)), f, t, None);
      SparedTrans(s.heap, Forward(s1, f, t, n, Ext(k)).heap, BindReturn(s, f, t, n, k).heap, None);
    }
  }

  lemma FuseOpen(s: State, f: Fiber, t: Addr, n: Addr)
    requires OnTop(s, f, t) && s.heap[t].Running() && Fusable(s, t, n) && s.heap[t].value.None?
    ensures t in Fuse(s, f, t, n).heap && Fuse(s, f, t, n).heap[t].value.None?
    ensures s.heap[n].standsFor + s.heap[t].standsFor <= Fuse(s, f, t, n).heap[t].standsFor
  {
    FuseIs(s, f, t, n);
    FusedTask(s, t, n, t);
    hide Fuse, Fused;
    var y := Fused(s, t, n);
    assert y.heap[t].Running();
    RunningEnqueued(y, f, t);
  }

  lemma RunningEnqueued(y: State, f: Fiber, t: Addr)
    requires t in y.heap && y.heap[t].Closure().Some? && y.heap[t].Running()
    ensures Scheduling(y, f, t).heap == y.heap
  {
    EnqueueWaits(y, f, t);
    hide Enqueue;
  }

  lemma ForwardOpen(s: State, f: Fiber, t: Addr, n: Addr, k: int)
    requires OnTop(s, f, t) && s.heap[t].Running() && n in s.heap && s.heap[t].value.None?
    ensures t in Forward(s, f, t, n, Ext(k)).heap && Forward(s, f, t, n, Ext(k)).heap[t].value.None?
  {
    ForwardIs(s, f, t, n, Ext(k));
    ForwardedTask(s, t, n, Ext(k), t);
    hide Forward, Forwarded;
    var y := Forwarded(s, t, n, Ext(k));
    assert y.heap[t].Running();
    RunningEnqueued(y, f, t);
  }

  // ---- The other steps ----

  lemma NewSpares(h: map<Addr, Task>, a: Addr, k: Task)
    requires Solid(h) && a !in h && SolidTask(k)
    ensures Spared(h, h[a := k], None)
  {
    hide Strong, SolidTask;
  }

  lemma PendingSolid(u: Uid, c: Option<Closure>, keepAlive: bool, sync: bool, o: Owner)
    ensures SolidTask(Pending(u, c, keepAlive, sync, o))
  {
  }

  lemma SpawnSpares(s: State, a: Addr, k: int, keepAlive: bool)
    requires Solid(s.heap) && a !in s.heap
    ensures Spared(s.heap, SpawnStep(s, a, k, keepAlive).heap, None)
  {
    var task := Pending(s.next, Some(Call(s.next)), keepAlive, false, Ext(k));
    var s1 := s.(heap := s.heap[a := task], next := s.next + 1, origin := s.origin[s.next := Spawn]);
    PendingSolid(s.next, Some(Call(s.next)), keepAlive, false, Ext(k));
    NewSpares(s.heap, a, task);
    SparedSolid(s.heap, s1.heap);
    ScheduleSpares(s1, 0, a, None);
    hide Schedule, Spared, Solid;
    SparedTrans(s.heap, s1.heap, SpawnStep(s, a, k, keepAlive).heap, None);
  }

  lemma ThenTaskSpares(s: State, f: Fiber, a: Addr, k: Task, o: Origin, src: Addr, token: Owner)
    requires Solid(s.heap) && src in s.heap && a !in s.heap && k.Closure().Some? && SolidTask(k) && token.Ext?
    ensures Spared(s.heap, ThenTask(s, f, a, k, o, src, token).heap, None)
  {
    hide Schedule, Spared, Solid, Strong, SolidTask, Task.Remove, Task.Add;
    var h := s.heap[a := k][src := s.heap[src].Remove(token).Add(HeldBy(a))];
    var s1 := s.(heap := h, next := s.next + 1, origin := s.origin[s.next := o]);
    MadeSpares(s.heap, a, k, src, token);
    SparedSolid(s.heap, h);
    ScheduleSpares(s1, f, a, Some(src));
    SparedTrans(s.heap, h, ThenTask(s, f, a, k, o, src, token).heap, None);
  }

  lemma MadeSpares(h: map<Addr, Task>, a: Addr, k: Task, src: Addr, token: Owner)
    requires Solid(h) && src in h && a !in h && SolidTask(k) && token.Ext?
    ensures Spared(h, h[a := k][src := h[src].Remove(token).Add(HeldBy(a))], None)
  {
    WeakOwner(h[src], token);
    WeakOwner(h[src].Remove(token), HeldBy(a));
    NewSpares(h, a, k);
    hide Strong, SolidTask, Task.Remove, Task.Add;
    SparedSolid(h, h[a := k]);
    OneChanged(h[a := k], src, h[src].Remove(token).Add(HeldBy(a)));
    hide Spared, Solid;
    SparedTrans(h, h[a := k], h[a := k][src := h[src].Remove(token).Add(HeldBy(a))], None);
  }

  lemma ThenSlowSpares(s: State, f: Fiber, a: Addr, k': int, bind: bool, src: Addr, k: int, sync: bool, keepAlive: bool)
    requires Solid(s.heap) && src in s.heap && a !in s.heap
    ensures Spared(s.heap, ThenSlow(s, f, a, k', bind, src, k, sync, keepAlive).heap, None)
  {
    hide ThenTask, Spared, Solid;
    var c := Some(DependentClosure(bind, s.next, src));
    PendingSolid(s.next, c, keepAlive, sync, Ext(k'));
    ThenTaskSpares(s, f, a, Pending(s.next, c, keepAlive, sync, Ext(k')), DependentOrigin(bind, s.heap[src].uid), src, Ext(k));
  }

  lemma DropSpares(s: State, t: Addr, o: Owner)
    requires Solid(s.heap) && t in s.heap && !o.Scheduled? && !o.Frame?
    ensures Spared(s.heap, Release(s, t, o).heap, None)
  {
    WeakOwner(s.heap[t], o);
    ReleaseSpares(s, t, o);
  }

  lemma OwnerSpares(s: State, t: Addr, o: Owner)
    requires Solid(s.heap) && t in s.heap && !o.Scheduled? && !o.Frame?
    ensures Spared(s.heap, AddOwner(s, t, o).heap, None)
  {
    WeakOwner(s.heap[t], o);
    OneChanged(s.heap, t, s.heap[t].Add(o));
  }

  lemma ResolveSpares(s: State, f: Fiber, p: Addr, v: Value)
    requires Solid(s.heap) && p in s.heap
    ensures Spared(s.heap, ResolvePromiseStep(s, f, p, v).heap, None)
  {
    Unmoved(s.heap, None);
    SettleSpares(s.(returned := s.returned[s.heap[p].uid := Val(v)]), f, p, v);
    hide Settle, Spared, Solid;
  }

  lemma DropPromiseSpares(s: State, f: Fiber, p: Addr, v: Value)
    requires Solid(s.heap) && p in s.heap && !s.heap[p].Deleted()
    ensures Spared(s.heap, DropPromiseStep(s, f, p, v).heap, None)
  {
    var k := s.heap[p].Remove(Promise).Add(Frame(f, |Stack(s, f)|));
    var s1 := s.(heap := s.heap[p := k]);
    StrongOwner(k, Frame(f, |Stack(s, f)|));
    assert SolidTask(k);
    OneChanged(s.heap, p, k);
    SparedSolid(s.heap, s1.heap);
    ResolveSpares(Push(s1, f, Tail(p)), f, p, v);
    hide ResolvePromiseStep, Spared, Solid, Strong, SolidTask;
    SparedTrans(s.heap, s1.heap, DropPromiseStep(s, f, p, v).heap, None);
  }

  lemma UserSpares(s: State, act: Action)
    requires Inv(s, Tight) && Enabled(s, act)
    requires !act.Start? && !act.LoopStep? && !act.TailStep? && !act.Get? && !act.ReturnValue? && !act.ReturnTask?
    ensures Spared(s.heap, NextUser(s, act).heap, None)
  {
    InvSolid(s);
    if act.DropPromise? {
      assert ShapeAt(s, {}, act.p);
    }
    hide Inv, Spared, Solid, SpawnStep, AddOwner, ThenSlow, Release, ResolvePromiseStep, DropPromiseStep;
    match act
    case SpawnTask(a, k, keepAlive) => SpawnSpares(s, a, k, keepAlive);
    case Then(f, a, k', bind, src, k, sync, keepAlive) =>
      if sync && s.heap[src].value.Some? {
        DropSpares(s, src, Ext(k));
      } else {
        ThenSlowSpares(s, f, a, k', bind, src, k, sync, keepAlive);
      }
    case ResolvePromise(f, p, v) => ResolveSpares(s, f, p, v);
    case DropPromise(f, p, v) => DropPromiseSpares(s, f, p, v);
    case Drop(t, k) => DropSpares(s, t, Ext(k));
    case PureTask(a, k, v) => NewSpares(s.heap, a, Task(s.next, {s.next}, Some(v), None, {Ext(k)}));
    case NewPromise(a) => PendingSolid(s.next, None, false, false, Promise); NewSpares(s.heap, a, Pending(s.next, None, false, false, Promise));
    case PromiseTask(p, k) => OwnerSpares(s, p, Ext(k));
    case Dup(t, _, k) => OwnerSpares(s, t, Ext(k));
  }

  lemma LoopSpares(s: State, f: Fiber)
    requires Solid(s.heap) && Top(s, f).Some? && Top(s, f).value.Resolve?
    requires forall n :: n in s.syncRegistered ==> n in s.heap && s.heap[n].Closure().Some?
    ensures Spared(s.heap, LoopTurn(s, f).heap, None)
  {
    var frame := Top(s, f).value;
    Unmoved(s.heap, None);
    SkipUntouched(s, f, frame);
    hide Begin, Skip, Woken, Pop, Spared, Solid;
    if Hits(s, frame) {
      BeginSpares(Skip(s, f, frame).(syncRegistered := s.syncRegistered - {frame.deps[0]}), f, frame.deps[0]);
    }
  }

  // The frame's reference goes; a task that is scheduled or runs has another one.
  lemma TailFirm(s: State, f: Fiber)
    requires Inv(s, Tight) && Top(s, f).Some? && Top(s, f).value.Tail?
    ensures var t := Top(s, f).value.task;
            && t in s.heap && SolidTask(s.heap[t].Remove(Frame(f, |Stack(s, f)| - 1)))
            && (s.heap[t].imp.Some? && s.heap[t].imp.value.keepAlive && Work(s, t).Some? ==> Strong(s.heap[t].Remove(Frame(f, |Stack(s, f)| - 1))))
  {
    hide ProgressOk, HistoryOk, MeaningOk, WaitsOk;
    var t, i := Top(s, f).value.task, |Stack(s, f)| - 1;
    assert Keeps(s, f, i, t);
    assert ShapeAt(s, {}, t);
    assert Frame(f, i) in s.heap[t].owners;
    var k := s.heap[t].Remove(Frame(f, i));
    if s.heap[t].Running() && s.heap[t].imp.value.keepAlive {
      var c := s.calls[t];
      assert Stack(s, c.fiber)[c.depth].task == t && ExecAt(s, c.fiber, c.depth);
      assert Keeps(s, c.fiber, c.depth, t);
      assert Frame(c.fiber, c.depth) in s.heap[t].owners && Frame(c.fiber, c.depth) != Frame(f, i);
      StrongOwner(k, Frame(c.fiber, c.depth));
    } else if s.heap[t].Closure().Some? && s.heap[t].imp.value.keepAlive {
      StrongOwner(k, Scheduled);
    }
  }

  lemma ReleasedSpares(h: map<Addr, Task>, h': map<Addr, Task>, t: Addr, k: Task)
    requires Solid(h) && t in h && SolidTask(k) && Spared(h[t := k], h', None)
    ensures Spared(h, h', Some(t)) && (Strong(k) ==> t in h' && Strong(h'[t]))
  {
    hide Strong, SolidTask;
    assert forall a :: a in h && a != t ==> h[t := k][a] == h[a];
  }

  lemma OneSolid(h: map<Addr, Task>, t: Addr, k: Task)
    requires Solid(h) && SolidTask(k)
    ensures Solid(h[t := k])
  {
    hide SolidTask;
  }

  lemma TailSpares(s: State, f: Fiber)
    requires Inv(s, Tight) && Top(s, f).Some? && Top(s, f).value.Tail? && Top(s, f).value.task in s.heap
    ensures var t := Top(s, f).value.task;
            && Spared(s.heap, TailTurn(s, f).heap, Some(t))
            && (Strong(s.heap[t].Remove(Frame(f, |Stack(s, f)| - 1))) ==> t in TailTurn(s, f).heap && Strong(TailTurn(s, f).heap[t]))
  {
    InvSolid(s);
    TailFirm(s, f);
    hide Inv, Collect, Solid, Strong, SolidTask, Spared, Task.Remove;
    var t, o := Top(s, f).value.task, Frame(f, |Stack(s, f)| - 1);
    var s1 := RemoveOwner(Pop(s, f), t, o);
    OneSolid(s.heap, t, s.heap[t].Remove(o));
    CollectSpares(s1, t);
    ReleasedSpares(s.heap, Collect(s1, t).heap, t, s.heap[t].Remove(o));
  }

  lemma StepSpares(s: State, act: Action)
    requires Inv(s, Tight) && Enabled(s, act) && !act.TailStep?
    ensures Spared(s.heap, Next(s, act).heap, Gone(s, act))
  {
    InvSolid(s);
    hide Inv, Spared, Solid, NextTurn, NextGet, NextUser, NextReturnValue, NextReturnTask;
    match act
    case Start(f, t) => TurnSpares(s, act);
    case LoopStep(f) => TurnSpares(s, act);
    case Get(f) => GetSpares(s, f);
    case ReturnValue(f, v, a, k) => ReturnValueSpares(s, f, v, a, k);
    case ReturnTask(f, n, k) => ReturnTaskSpares(s, f, n, k);
    case _ => UserSpares(s, act);
  }

  lemma TurnSpares(s: State, act: Action)
    requires Inv(s, Tight) && Enabled(s, act) && (act.Start? || act.LoopStep?)
    ensures Spared(s.heap, NextTurn(s, act).heap, None)
  {
    InvSolid(s);
    CanTurn(s, act.f);
    hide Inv, Spared, Solid, Begin, LoopTurn;
    match act
    case Start(f, t) => BeginSpares(s.(queued := s.queued - {t}), f, t);
    case LoopStep(f) => LoopSpares(s, f);
  }

  lemma GetSpares(s: State, f: Fiber)
    requires Inv(s, Tight) && Enabled(s, Get(f))
    ensures Spared(s.heap, NextGet(s, f).heap, None)
  {
    InvSolid(s);
    CanGet(s, f);
    CanReturn(s, f);
    hide Inv, Spared, Solid, GetResult, GetArgument;
    var t := Top(s, f).value.task;
    if s.calls[t].closure.BindResult? {
      GetResultSpares(s, f, t);
    } else {
      GetArgumentSpares(s, t);
    }
  }

  lemma FastMapHeap(s: State, f: Fiber, v: Value, a: Addr, k: int)
    requires Top(s, f).Some? && Top(s, f).value.FastMap?
    ensures FastMapStep(s, f, v, a, k).heap == s.heap[a := Task(s.next, {s.next}, Some(v), None, {Ext(k)})]
  {
  }

  lemma ReturnValueSpares(s: State, f: Fiber, v: Value, a: Addr, k: int)
    requires Inv(s, Tight) && Enabled(s, ReturnValue(f, v, a, k))
    ensures Spared(s.heap, NextReturnValue(s, f, v, a, k).heap, None)
  {
    InvSolid(s);
    if Top(s, f).value.FastMap? {
      NewSpares(s.heap, a, Task(s.next, {s.next}, Some(v), None, {Ext(k)}));
      hide Inv, Spared, Solid;
      FastMapHeap(s, f, v, a, k);
      hide FastMapStep;
    } else {
      CanReturn(s, f);
      var t := Top(s, f).value.task;
      hide Inv, Finish, Spared, Solid;
      FinishSpares(s.(returned := s.returned[s.calls[t].closure.fn := Val(v)]), f, t, Some(v));
    }
  }

  lemma ReturnTaskSpares(s: State, f: Fiber, n: Addr, k: int)
    requires Inv(s, Tight) && Enabled(s, ReturnTask(f, n, k))
    ensures Spared(s.heap, NextReturnTask(s, f, n, k).heap, Gone(s, ReturnTask(f, n, k)))
  {
    InvSolid(s);
    if Top(s, f).value.FastBind? {
      var k0 := s.heap[n].Standing({s.next});
      assert k0.owners == s.heap[n].owners && SolidTask(s.heap[n]);
      OneChanged(s.heap, n, k0);
      hide Inv, Spared;
      assert FastBindStep(s, f, n).heap == s.heap[n := k0];
    } else {
      CanReturn(s, f);
      var t := Top(s, f).value.task;
      if CanFuse(s, t, n) {
        FusedIsOurs(s, t, n, k);
        CanBeFused(s, t, n);
      }
      hide Inv, BindReturn, Spared, Solid;
      BindReturnSpares(s, f, t, n, k);
    }
  }

  // ---- A kept identity ----

  // `t` keeps itself alive and stands for `u`; it is no promise.
  predicate Keeper(s: State, t: Addr, u: Uid) {
    && t in s.heap && u in s.heap[t].standsFor
    && s.heap[t].imp.Some? && s.heap[t].imp.value.keepAlive
    && s.heap[t].uid in s.origin && s.origin[s.heap[t].uid] != PromiseResult
  }

  // `u` has ended, or such a task is there.
  ghost predicate Kept(s: State, u: Uid) {
    u in s.final || exists t :: Keeper(s, t, u)
  }

  lemma KeeperWorks(s: State, t: Addr, u: Uid)
    requires Inv(s, Tight) && Keeper(s, t, u)
    ensures Work(s, t).Some? && Strong(s.heap[t]) && s.heap[t].value.None?
  {
    hide HeldOk, StacksOk, WaitsOk, ProgressOk, HistoryOk;
    assert ShapeAt(s, {}, t);
    assert s.heap[t].uid in s.heap[t].standsFor;
    assert MeansAt(s, Firm, t, s.heap[t].uid);
    InvSolid(s);
    if s.heap[t].Closure().Some? {
      StrongOwner(s.heap[t], Scheduled);
    } else {
      assert SolidTask(s.heap[t]);
    }
  }

  // A task that is still there keeps `u`, or `u` has ended.
  lemma StillKept(s: State, s': State, t: Addr, u: Uid, started: Option<Addr>)
    requires Keeper(s, t, u) && Lasts(s, s', started) && Inv(s', Tight) && t in s'.heap
    ensures Kept(s', u)
  {
    hide HeldOk, KeepOk, StacksOk, WaitsOk, ProgressOk, HistoryOk;
    assert KeptTask(s.heap[t], s'.heap[t], started == Some(t));
    assert ShapeAt(s', {}, t);
    if s'.heap[t].value.Some? {
      assert MeansAt(s', Firm, t, u);
    } else {
      assert Keeper(s', t, u);
    }
  }

  // A fused task hands on what it stands for.
  lemma FusedKept(s: State, f: Fiber, n: Addr, k: int, u: Uid)
    requires Inv(s, Tight) && Enabled(s, ReturnTask(f, n, k)) && Gone(s, ReturnTask(f, n, k)) == Some(n) && Keeper(s, n, u)
    ensures Inv(NextReturnTask(s, f, n, k), Tight) ==> Kept(NextReturnTask(s, f, n, k), u)
  {
    var t := Top(s, f).value.task;
    var s' := NextReturnTask(s, f, n, k);
    CanReturn(s, f);
    OpenTask(s, Tight, t);
    FusedIsOurs(s, t, n, k);
    CanBeFused(s, t, n);
    OriginOf(s, t);
    InvSolid(s);
    assert SolidTask(s.heap[t]) && Strong(s.heap[t]);
    ReturnTaskSpares(s, f, n, k);
    assert t in s'.heap;
    hide Inv, Spared, Solid, Strong, SolidTask;
    ReturnTaskLasts(s, f, n, k);
    FusedStands(s, f, t, n, k);
    hide BindReturn;
    if Inv(s', Tight) {
      StillStands(s, s', t, u);
    }
  }

  lemma StillStands(s: State, s': State, t: Addr, u: Uid)
    requires Lasts(s, s', None) && Inv(s', Tight) && t in s.heap && t in s'.heap && u in s'.heap[t].standsFor
    requires s.heap[t].imp.Some? && s.heap[t].imp.value.keepAlive
    requires s.heap[t].uid in s.origin && s.origin[s.heap[t].uid] != PromiseResult
    ensures Kept(s', u)
  {
    hide HeldOk, KeepOk, StacksOk, WaitsOk, ProgressOk, HistoryOk;
    assert KeptTask(s.heap[t], s'.heap[t], false);
    assert ShapeAt(s', {}, t);
    if s'.heap[t].value.Some? {
      assert MeansAt(s', Firm, t, u);
    } else {
      assert Keeper(s', t, u);
    }
  }

  // The running task of a bind is no promise.
  lemma OriginOf(s: State, t: Addr)
    requires Inv(s, Tight) && t in s.heap && s.heap[t].Running()
    ensures s.heap[t].uid in s.origin && s.origin[s.heap[t].uid] != PromiseResult
  {
    hide HeldOk, KeepOk, StacksOk, WaitsOk, ProgressOk, HistoryOk;
    assert ShapeAt(s, {}, t);
    var u := s.heap[t].uid;
    assert u in s.heap[t].standsFor && MeansAt(s, Firm, t, u) && Work(s, t).Some? && WorkAt(s, Firm, t);
  }

  lemma FusedStands(s: State, f: Fiber, t: Addr, n: Addr, k: int)
    requires ReturnsTask(s, f, t, n) && OnTop(s, f, t) && s.calls[t].called && s.heap[t].value.None?
    requires s.heap[n].value.None? && CanFuse(s, t, n) && Fusable(s, t, n) && t in BindReturn(s, f, t, n, k).heap
    ensures s.heap[n].standsFor <= BindReturn(s, f, t, n, k).heap[t].standsFor
  {
    hide Finish, Fuse, Steady;
    var s1 := BindRecord(s, t, n);
    FuseOnTop(s1, f, t, n);
    FuseOpen(s1, f, t, n);
    FinishBindSteady(Fuse(s1, f, t, n), f, t);
    SteadyStands(Fuse(s1, f, t, n), BindReturn(s, f, t, n, k), t);
  }

  lemma SteadyStands(s: State, s': State, t: Addr)
    requires Steady(s, s', Some(t)) && t in s.heap && t in s'.heap
    ensures s.heap[t].standsFor <= s'.heap[t].standsFor
  {
  }

  lemma TailKept(s: State, f: Fiber, u: Uid, t: Addr)
    requires Inv(s, Tight) && Enabled(s, TailStep(f)) && Keeper(s, t, u)
    ensures t in NextTurn(s, TailStep(f)).heap
  {
    CanTurn(s, f);
    TailFirm(s, f);
    TailSpares(s, f);
    KeeperWorks(s, t, u);
    hide Inv, TailTurn, Strong;
  }

  /** A kept identity is kept by every step. */
  lemma StepKeeps(s: State, act: Action, u: Uid)
    requires Inv(s, Tight) && Enabled(s, act) && Kept(s, u)
    ensures Kept(Next(s, act), u)
  {
    StepInv(s, act);
    StepLasts(s, act);
    var s' := Next(s, act);
    if u !in s.final {
      var t :| Keeper(s, t, u);
      KeeperWorks(s, t, u);
      if act.TailStep? {
        TailKept(s, act.f, u, t);
      } else {
        StepSpares(s, act);
      }
      hide Inv, Strong, Solid, NextTurn, NextUser, NextGet, NextReturnValue, NextReturnTask, Lasts;
      if t in s'.heap {
        StillKept(s, s', t, u, Started(s, act));
      } else {
        assert Gone(s, act) == Some(t);
        FusedKept(s, act.f, act.n, act.k, u);
      }
    }
  }
}
