/** task_bind_fn when the returned task has no value yet: fusing it into the running
    task, or following it, keeps the invariant. */
module TaskNested {
  import opened Wrappers
  import opened TaskMachine
  import opened TaskInvariant
  import opened TaskFinish
  import opened TaskSteps
  import opened TaskReturns
  import opened TaskRebind

  // ---- A nested task that can be fused is referred to by nothing else ----

  lemma OnlyOurs(owners: set<Owner>, o: Owner, keep: bool)
    requires o in owners && o != Scheduled && (Scheduled in owners <==> keep)
    requires |owners| == if keep then 2 else 1
    ensures owners == if keep then {o, Scheduled} else {o}
  {
    var ours := if keep then {o, Scheduled} else {o};
    var rest := owners - ours;
    assert owners == ours + rest && |owners| == |ours| + |rest|;
    assert |rest| == 0;
  }

  // A task that passes the test of task_bind_fn has no dependents: besides our own
  // reference only the scheduler holds it.
  lemma FusedIsOurs(s: State, current: Addr, n: Addr, k: int)
    requires Inv(s, Tight) && current in s.heap && s.heap[current].imp.Some? && HasRef(s, n, Ext(k)) && CanFuse(s, current, n)
    ensures Isolated(s, n) && Idle(s, n)
    ensures forall a :: Holds(s, a) != Some(n)
    ensures forall a :: a in s.syncRegistered ==> s.syncRegistered[a] != n
    ensures forall a :: a in s.queued ==> s.queued[a] != Some(n)
  {
    OnlyOurs(s.heap[n].owners, Ext(k), s.heap[n].imp.value.keepAlive);
    forall a
      ensures Holds(s, a) != Some(n)
    {
      assert HeldBy(a) !in s.heap[n].owners;
    }
    hide KeepOk, StacksOk, ProgressOk, HistoryOk, MeaningOk;
    forall a | a in s.syncRegistered
      ensures s.syncRegistered[a] != n
    {
      assert Holds(s, a) == s.heap[a].Held();
    }
    forall a | a in s.queued
      ensures s.queued[a] != Some(n)
    {
      assert Holds(s, a) == s.heap[a].Held();
    }
  }

  // ---- Forwarding ----

  function Forwarded(s: State, t: Addr, n: Addr, o: Owner): State
    requires t in s.heap && s.heap[t].imp.Some? && n in s.heap
  {
    var h := Rehold(s.heap[t := s.heap[t].WithClosure(Some(BindResult(n)))], Some(n), o, HeldBy(t));
    s.(heap := h[t := h[t].KeepScheduled(Some(n))])
  }

  lemma ForwardIs(s: State, f: Fiber, t: Addr, n: Addr, o: Owner)
    requires t in s.heap && s.heap[t].Running() && n in s.heap
    ensures Forwarded(s, t, n, o).heap.Keys == s.heap.Keys && Forwarded(s, t, n, o).heap[t].Closure().Some?
    ensures Forward(s, f, t, n, o) == Scheduling(Forwarded(s, t, n, o), f, t)
  {
    hide Enqueue;
  }

  lemma ForwardedTask(s: State, t: Addr, n: Addr, o: Owner, a: Addr)
    requires t in s.heap && s.heap[t].imp.Some? && n in s.heap && a in s.heap
    requires o != Scheduled
    ensures var y := Forwarded(s, t, n, o);
            && a in y.heap && (a == t ==> y.heap[a].imp.Some?)
            && y.heap[a] ==
               (var k := if a == t then s.heap[a].WithClosure(Some(BindResult(n))).KeepScheduled(Some(n)) else s.heap[a];
                if a == n then k.Remove(o).Add(HeldBy(t)) else k)
  {
    if a == t && n == t {
      ScheduledLast(s.heap[t].WithClosure(Some(BindResult(n))), o, HeldBy(t), Some(n));
    }
  }

  lemma EndTask(s: State, f: Fiber, t: Addr, a: Addr)
    requires t in s.heap && s.heap[t].imp.Some? && Top(s, f).Some? && Top(s, f).value.Exec? && a in s.heap
    ensures var i := EndPush(s, f, t);
            && i.heap.Keys == s.heap.Keys
            && i.heap[a] == (if a == t then s.heap[a].(imp := Some(s.heap[a].imp.value.(running := false))) else s.heap[a])
            && i.queued == s.queued && i.syncRegistered == s.syncRegistered && i.syncDependents == s.syncDependents
            && i.origin == s.origin && i.arg == s.arg && i.returned == s.returned && i.final == s.final
            && i.applied == s.applied && i.next == s.next
  {
  }

  lemma ForwardInstalls(s: State, f: Fiber, t: Addr, n: Addr, k: int)
    requires OnTop(s, f, t) && s.heap[t].Closure().None? && HasRef(s, n, Ext(k))
    ensures OnTop(Forwarded(s, t, n, Ext(k)), f, t)
    ensures PlanOk(EndPush(s, f, t), Plan(t, BindResult(n), Ext(k), None))
    ensures Step(EndPush(s, f, t), EndPush(Forwarded(s, t, n, Ext(k)), f, t), Plan(t, BindResult(n), Ext(k), None))
  {
    var y := Forwarded(s, t, n, Ext(k));
    var p := Plan(t, BindResult(n), Ext(k), None);
    var e, i := EndPush(s, f, t), EndPush(y, f, t);
    ForwardedTask(s, t, n, Ext(k), t);
    ForwardedRest(s, t, n, Ext(k));
    hide Forwarded, Rehold;
    assert OnTop(y, f, t);
    EndTask(s, f, t, t);
    EndTask(s, f, t, n);
    EndTask(y, f, t, t);
    EndStacks(s, y, f, t);
    hide EndPush, OnTop;
    assert PlanOk(e, p);
    hide NewT;
    forall a | a in i.heap
      ensures a in e.heap
      ensures i.heap[a] == if a == n then ForwardBase(e, p, a).Remove(Ext(k)).Add(HeldBy(t)) else ForwardBase(e, p, a)
    {
      ForwardedAt(s, f, t, n, k, a);
    }
  }

  function ForwardBase(e: State, p: Plan, a: Addr): Task
    requires a in e.heap && (a == p.t ==> e.heap[a].imp.Some?) && p.gone.None?
  {
    if a == p.t then NewT(e, p) else e.heap[a]
  }

  lemma ForwardedAt(s: State, f: Fiber, t: Addr, n: Addr, k: int, a: Addr)
    requires OnTop(s, f, t) && s.heap[t].Closure().None? && HasRef(s, n, Ext(k)) && a in s.heap
    requires OnTop(Forwarded(s, t, n, Ext(k)), f, t)
    ensures var e, i := EndPush(s, f, t), EndPush(Forwarded(s, t, n, Ext(k)), f, t);
            var p := Plan(t, BindResult(n), Ext(k), None);
            && a in e.heap && a in i.heap && (a == t ==> e.heap[a].imp.Some?)
            && i.heap[a] == if a == n then ForwardBase(e, p, a).Remove(Ext(k)).Add(HeldBy(t)) else ForwardBase(e, p, a)
  {
    hide Forwarded, EndPush;
    ForwardedTask(s, t, n, Ext(k), t);
    ForwardedTask(s, t, n, Ext(k), a);
    EndTask(s, f, t, a);
    ForwardedRest(s, t, n, Ext(k));
    EndTask(Forwarded(s, t, n, Ext(k)), f, t, a);
    assert s.heap[a].standsFor + {} == s.heap[a].standsFor;
  }

  lemma ForwardedRest(s: State, t: Addr, n: Addr, o: Owner)
    requires t in s.heap && s.heap[t].imp.Some? && n in s.heap
    ensures var y := Forwarded(s, t, n, o);
            && y.heap.Keys == s.heap.Keys && y.stacks == s.stacks && y.active == s.active && y.calls == s.calls
            && y.queued == s.queued && y.syncRegistered == s.syncRegistered && y.syncDependents == s.syncDependents
            && y.origin == s.origin && y.arg == s.arg && y.returned == s.returned && y.final == s.final
            && y.applied == s.applied && y.next == s.next
  {
  }

  // ---- Fusing ----

  function Fused(s: State, t: Addr, n: Addr): State
    requires t in s.heap && s.heap[t].imp.Some? && n in s.heap && s.heap[n].Closure().Some? && t != n
  {
    var s1 := Forget(MoveClosure(s, t, n), n);
    var h := s1.heap - {n};
    s1.(heap := h[t := h[t].KeepScheduled(s.heap[n].imp.value.nextDep)])
  }

  lemma FuseIs(s: State, f: Fiber, t: Addr, n: Addr)
    requires t in s.heap && s.heap[t].Running() && n in s.heap && s.heap[n].Closure().Some? && t != n
    ensures t in Fused(s, t, n).heap && Fused(s, t, n).heap[t].Closure().Some?
    ensures Fuse(s, f, t, n) == Scheduling(Fused(s, t, n), f, t)
  {
    hide Enqueue, MoveClosure;
  }

  predicate Fusable(s: State, t: Addr, n: Addr) {
    && t in s.heap && s.heap[t].imp.Some? && n in s.heap && s.heap[n].Closure().Some? && t != n
    && s.heap[n].Held() != Some(n) && s.heap[n].imp.value.nextDep == s.heap[n].Held()
    && (s.heap[n].Held().Some? ==> s.heap[n].Held().value in s.heap)
  }

  lemma FusedTask(s: State, t: Addr, n: Addr, a: Addr)
    requires Fusable(s, t, n)
    ensures var y := Fused(s, t, n); var d := s.heap[n].Held();
            && (a in y.heap <==> a in s.heap && a != n)
            && (a in y.heap ==>
                  && (a == t ==> y.heap[a].imp.Some?)
                  && var k := if a == t then s.heap[t].WithClosure(s.heap[n].Closure()).Standing(s.heap[n].standsFor).KeepScheduled(d)
                              else s.heap[a];
                  y.heap[a] == if d == Some(a) then k.Remove(HeldBy(n)).Add(HeldBy(t)) else k)
  {
    var d := s.heap[n].Held();
    var kt := s.heap[t].WithClosure(s.heap[n].Closure()).Standing(s.heap[n].standsFor);
    var kn := s.heap[n].WithClosure(None);
    var h0 := s.heap[t := kt][n := kn];
    var h := Rehold(h0, d, HeldBy(n), HeldBy(t));
    assert MoveClosure(s, t, n).heap == h;
    assert h[t].imp == kt.imp;
    assert Fused(s, t, n).heap == (h - {n})[t := h[t].KeepScheduled(d)];
    hide Fused, MoveClosure;
    if a == t && d == Some(t) {
      ScheduledLast(kt, HeldBy(n), HeldBy(t), d);
    }
    hide Task.KeepScheduled, Task.WithClosure, Task.Standing, Task.Remove, Task.Add, Task.Held;
  }

  lemma ScheduledLast(k: Task, o: Owner, o': Owner, d: Option<Addr>)
    requires k.imp.Some? && o != Scheduled
    ensures k.Remove(o).Add(o').KeepScheduled(d) == k.KeepScheduled(d).Remove(o).Add(o')
  {
    var k1 := k.Remove(o).Add(o').KeepScheduled(d);
    var k2 := k.KeepScheduled(d).Remove(o).Add(o');
    assert k1.owners == k2.owners;
  }

  lemma FusedRest(s: State, t: Addr, n: Addr)
    requires Fusable(s, t, n)
    ensures var y := Fused(s, t, n);
            && y.stacks == s.stacks && y.active == s.active && y.calls == s.calls
            && y.queued == s.queued - {n} && y.syncRegistered == s.syncRegistered - {n}
            && y.syncDependents == s.syncDependents - {n}
            && y.origin == s.origin && y.arg == s.arg && y.returned == s.returned && y.final == s.final
            && y.applied == s.applied && y.next == s.next
  {
  }

  lemma EndStacks(s: State, y: State, f: Fiber, t: Addr)
    requires t in s.heap && s.heap[t].imp.Some? && t in y.heap && y.heap[t].imp.Some?
    requires Top(s, f).Some? && Top(s, f).value.Exec?
    requires y.stacks == s.stacks && y.active == s.active && y.calls == s.calls
    ensures EndPush(s, f, t).stacks == EndPush(y, f, t).stacks
    ensures EndPush(s, f, t).active == EndPush(y, f, t).active
    ensures EndPush(s, f, t).calls == EndPush(y, f, t).calls
  {
  }

  lemma FuseInstalls(s: State, f: Fiber, t: Addr, n: Addr)
    requires OnTop(s, f, t) && s.heap[t].Closure().None? && Fusable(s, t, n) && Isolated(s, n) && Idle(s, n)
    requires s.heap[n].Held().Some? ==> HeldBy(n) in s.heap[s.heap[n].Held().value].owners
    ensures OnTop(Fused(s, t, n), f, t)
    ensures PlanOk(EndPush(s, f, t), Plan(t, s.heap[n].Closure().value, HeldBy(n), Some(n)))
    ensures Step(EndPush(s, f, t), EndPush(Fused(s, t, n), f, t), Plan(t, s.heap[n].Closure().value, HeldBy(n), Some(n)))
  {
    var y := Fused(s, t, n);
    var p := Plan(t, s.heap[n].Closure().value, HeldBy(n), Some(n));
    var d := s.heap[n].Held();
    FusedTask(s, t, n, t);
    FusedRest(s, t, n);
    hide Fused;
    assert OnTop(y, f, t);
    var e, i := EndPush(s, f, t), EndPush(y, f, t);
    EndTask(s, f, t, t);
    EndTask(s, f, t, n);
    EndTask(y, f, t, t);
    EndStacks(s, y, f, t);
    hide EndPush, OnTop;
    if d.Some? {
      EndTask(s, f, t, d.value);
    }
    assert PlanOk(e, p);
    hide NewT;
    forall a
      ensures a in i.heap <==> a in e.heap && a != n
      ensures a in i.heap ==> i.heap[a] == if d == Some(a) then FuseBase(e, p, a).Remove(HeldBy(n)).Add(HeldBy(t)) else FuseBase(e, p, a)
    {
      FusedAt(s, f, t, n, a);
    }
  }

  function FuseBase(e: State, p: Plan, a: Addr): Task
    requires a in e.heap && (a == p.t ==> e.heap[a].imp.Some?) && (p.gone.Some? ==> p.gone.value in e.heap)
  {
    if a == p.t then NewT(e, p) else e.heap[a]
  }

  lemma FusedAt(s: State, f: Fiber, t: Addr, n: Addr, a: Addr)
    requires OnTop(s, f, t) && s.heap[t].Closure().None? && Fusable(s, t, n)
    requires OnTop(Fused(s, t, n), f, t)
    ensures var e, i := EndPush(s, f, t), EndPush(Fused(s, t, n), f, t);
            var p := Plan(t, s.heap[n].Closure().value, HeldBy(n), Some(n));
            var d := s.heap[n].Held();
            && n in e.heap && (a in i.heap <==> a in e.heap && a != n)
            && (a in i.heap ==>
                  && (a == t ==> e.heap[a].imp.Some?)
                  && i.heap[a] == if d == Some(a) then FuseBase(e, p, a).Remove(HeldBy(n)).Add(HeldBy(t)) else FuseBase(e, p, a))
  {
    hide Fused, EndPush;
    FusedTask(s, t, n, t);
    FusedTask(s, t, n, a);
    EndTask(s, f, t, n);
    EndTask(s, f, t, t);
    EndTask(Fused(s, t, n), f, t, t);
    if a in s.heap {
      EndTask(s, f, t, a);
    }
    if a in Fused(s, t, n).heap {
      EndTask(Fused(s, t, n), f, t, a);
    }
  }

  // ---- Both ----

  lemma FollowsAfter(s: State, s1: State, f: Fiber, t: Addr, n: Addr, p: Plan)
    requires Inv(s, Tight) && OnTop(s, f, t) && s.calls[t].called && s.calls[t].closure.BindFn? && n in s.heap
    requires s1 == BindRecord(s, t, n) && PlanOk(EndPush(s1, f, t), p)
    requires if p.gone.Some? then p.gone.value == n else p.c == BindResult(n)
    ensures Follows(EndPush(s1, f, t), p, s.calls[t].closure.fn)
  {
    TopRuns(s, f, Firm);
    assert MeansAt(s, Firm, t, s.calls[t].closure.fn);
    EndTask(s1, f, t, n);
    hide Inv, EndPush;
  }

  lemma BindForwardInv(s: State, s1: State, f: Fiber, t: Addr, n: Addr, k: int)
    requires Inv(s, Tight) && OnTop(s, f, t) && s.calls[t].called && s.calls[t].closure.BindFn? && HasRef(s, n, Ext(k))
    requires s.heap[t].Running() && s1 == BindRecord(s, t, n)
    ensures t in Forward(s1, f, t, n, Ext(k)).heap && Forward(s1, f, t, n, Ext(k)).heap[t].Closure().Some?
    ensures Top(Forward(s1, f, t, n, Ext(k)), f) == Top(s, f)
    ensures Inv(Finish(Forward(s1, f, t, n, Ext(k)), f, t, None), Tight)
  {
    hide Inv, Finish, Forward, Forwarded, Step, Follows, Scheduling, EndPush;
    var u := s.calls[t].closure.fn;
    var y := Forwarded(s1, t, n, Ext(k));
    var p := Plan(t, BindResult(n), Ext(k), None);
    TopRuns(s, f, Firm);
    RecordInv(s, f, t, Tsk(s.heap[n].uid), Rebinding(t, u));
    ForwardIs(s1, f, t, n, Ext(k));
    ForwardInstalls(s1, f, t, n, k);
    FollowsAfter(s, s1, f, t, n, p);
    ForwardedTask(s1, t, n, Ext(k), t);
    ForwardedRest(s1, t, n, Ext(k));
    ResumeInv(s1, y, f, t, u, p);
  }

  lemma BindFuseInv(s: State, s1: State, f: Fiber, t: Addr, n: Addr, k: int)
    requires Inv(s, Tight) && OnTop(s, f, t) && s.calls[t].called && s.calls[t].closure.BindFn? && HasRef(s, n, Ext(k))
    requires s.heap[t].Running() && s1 == BindRecord(s, t, n) && CanFuse(s1, t, n) && t != n
    ensures t in Fuse(s1, f, t, n).heap && Fuse(s1, f, t, n).heap[t].Closure().Some?
    ensures Top(Fuse(s1, f, t, n), f) == Top(s, f)
    ensures Inv(Finish(Fuse(s1, f, t, n), f, t, None), Tight)
  {
    hide Inv, Finish, Fuse, Fused, Step, Follows, Scheduling, EndPush;
    var u := s.calls[t].closure.fn;
    var y := Fused(s1, t, n);
    var p := Plan(t, s.heap[n].Closure().value, HeldBy(n), Some(n));
    TopRuns(s, f, Firm);
    FusedIsOurs(s, t, n, k);
    CanBeFused(s, t, n);
    RecordInv(s, f, t, Tsk(s.heap[n].uid), Rebinding(t, u));
    FuseIs(s1, f, t, n);
    FuseInstalls(s1, f, t, n);
    FollowsAfter(s, s1, f, t, n, p);
    FusedTask(s1, t, n, t);
    FusedRest(s1, t, n);
    ResumeInv(s1, y, f, t, u, p);
  }

  lemma CanBeFused(s: State, t: Addr, n: Addr)
    requires Inv(s, Tight) && t in s.heap && s.heap[t].imp.Some? && Idle(s, n) && t != n
    requires forall a :: Holds(s, a) != Some(n)
    ensures Fusable(s, t, n)
    ensures s.heap[n].Held().Some? ==> HeldBy(n) in s.heap[s.heap[n].Held().value].owners
  {
    assert ShapeAt(s, {}, n);
    assert Holds(s, n) == s.heap[n].Held();
  }
}
