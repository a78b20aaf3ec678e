/** The cooperative task runtime (runtime/tasks.inc.cpp) as a step machine.

    The heap holds task objects; addresses are reused after a task is freed.
    A task's reference count is the number of its `owners`: each reference is
    named by what holds it, so `m_rc` is `|owners|`. User closures are opaque:
    a step of the machine says what the closure of a running task returned.

    Every task also has an identity `uid` that is never reused. The fields from
    `origin` on are a history kept for stating what the tasks mean; no branch of
    the runtime reads them. */
module TaskMachine {
  import opened Wrappers

  type Addr = int
  type Uid = int
  type Fiber = int
  type Value = int

  // `fn` names the user's function by the task it was given for.
  datatype Closure =
    | Call(fn: Uid)                // lean_task_spawn_core
    | MapFn(fn: Uid, src: Addr)    // task_map_fn
    | BindFn(fn: Uid, src: Addr)   // task_bind_fn
    | BindResult(src: Addr)        // task_bind_result
  {
    function Held(): Option<Addr> {
      if Call? then None else Some(src)
    }
  }

  datatype Owner =
    | Ext(k: int)                            // a reference of user code or of a value
    | HeldBy(task: Addr)                     // the closure of a task, stored or being applied
    | Scheduled                              // the keep-alive reference of a scheduled task
    | Frame(fiber: Fiber, depth: int)        // a C frame that releases it when it ends
    | Promise                                // the promise object whose result this is

  // prio: bit 0 is `running`, bit 1 is `sync`.
  datatype Imp = Imp(closure: Option<Closure>, keepAlive: bool, running: bool, sync: bool,
                     nextDep: Option<Addr>, deleted: bool)

  // `standsFor`: the identities whose value this task will have (itself and fused-away tasks).
  datatype Task = Task(uid: Uid, standsFor: set<Uid>, value: Option<Value>, imp: Option<Imp>, owners: set<Owner>) {
    function Closure(): Option<Closure> {
      if imp.Some? then imp.value.closure else None
    }

    // The task that the stored closure owns.
    function Held(): Option<Addr> {
      if Closure().Some? then Closure().value.Held() else None
    }

    predicate Running() {
      imp.Some? && imp.value.running
    }

    predicate Deleted() {
      imp.Some? && imp.value.deleted
    }

    function Add(o: Owner): Task {
      this.(owners := owners + {o})
    }

    function Remove(o: Owner): Task {
      this.(owners := owners - {o})
    }

    function WithClosure(c: Option<Closure>): Task
      requires imp.Some?
    {
      this.(imp := Some(imp.value.(closure := c)))
    }

    function Standing(us: set<Uid>): Task {
      this.(standsFor := standsFor + us)
    }

    // schedule_task takes the keep-alive reference; lasm_task_execute takes it over.
    function KeepScheduled(d: Option<Addr>): Task
      requires imp.Some?
    {
      var k := this.(imp := Some(imp.value.(nextDep := d)));
      if imp.value.keepAlive then k.Add(Scheduled) else k
    }

    function Begun(f: Fiber, depth: int): Task
      requires imp.Some?
    {
      var k := this.(imp := Some(imp.value.(closure := None, nextDep := None, running := true)));
      if imp.value.keepAlive then k.Remove(Scheduled).Add(Frame(f, depth)) else k
    }

    // m_rc
    function Count(): nat {
      |owners|
    }
  }

  datatype StackFrame =
    | Exec(task: Addr, keep: bool, previous: Option<Addr>)   // lasm_task_execute, in the closure
    | Resolve(task: Addr, uid: Uid, deps: seq<Addr>)         // resolve_task, in its loop
    | Tail(task: Addr)                                       // a reference released when the frame ends
    | FastMap(of: Uid, arg: Value)                           // f of a synchronous map, in the caller
    | FastBind(of: Uid, arg: Value)                          // f of a synchronous bind, in the caller

  // The closure of a running task, from when lasm_task_execute takes it.
  // Until `called`, it still owns its source task (lean_task_get_own).
  datatype Invocation = Invocation(fiber: Fiber, depth: int, closure: Closure, called: bool)

  datatype Origin = Pure(v: Value) | Spawn | Map(of: Uid) | Bind(of: Uid) | PromiseResult
  datatype Outcome = Val(v: Value) | Tsk(next: Uid)

  datatype State = State(
    heap: map<Addr, Task>,
    syncDependents: map<Addr, seq<Addr>>,
    syncRegistered: map<Addr, Addr>,
    queued: map<Addr, Option<Addr>>,         // the JavaScript scheduler: what each task waits for
    active: map<Fiber, Addr>,
    stacks: map<Fiber, seq<StackFrame>>,
    calls: map<Addr, Invocation>,
    next: Uid,
    origin: map<Uid, Origin>,
    arg: map<Uid, Value>,                    // what each function was applied to
    returned: map<Uid, Outcome>,             // and what it returned
    final: map<Uid, Value>,                  // the value each identity ended with
    applied: seq<Uid>)                       // function applications, in order

  const Init := State(map[], map[], map[], map[], map[], map[], map[], 0, map[], map[], map[], map[], [])

  function Stack(s: State, f: Fiber): seq<StackFrame> {
    if f in s.stacks then s.stacks[f] else []
  }

  function Top(s: State, f: Fiber): Option<StackFrame> {
    var st := Stack(s, f);
    if st == [] then None else Some(st[|st| - 1])
  }

  function Push(s: State, f: Fiber, frame: StackFrame): State {
    s.(stacks := s.stacks[f := Stack(s, f) + [frame]])
  }

  // current_task()
  function CurrentTask(s: State, f: Fiber): Option<Addr> {
    if f in s.active then Some(s.active[f]) else None
  }

  // The task that the closure of `a` owns, whether stored or taken by an invocation.
  function Holds(s: State, a: Addr): Option<Addr> {
    if a in s.heap && s.heap[a].Closure().Some? then s.heap[a].Held()
    else if a in s.calls && !s.calls[a].called then s.calls[a].closure.Held()
    else None
  }

  // ---- References ----

  function RemoveOwner(s: State, t: Addr, o: Owner): State
    requires t in s.heap
  {
    s.(heap := s.heap[t := s.heap[t].Remove(o)])
  }

  function AddOwner(s: State, t: Addr, o: Owner): State
    requires t in s.heap
  {
    s.(heap := s.heap[t := s.heap[t].Add(o)])
  }

  // Forgets a task in the scheduler and in the two maps of synchronous dependents.
  function Forget(s: State, t: Addr): State {
    s.(queued := s.queued - {t}, syncRegistered := s.syncRegistered - {t}, syncDependents := s.syncDependents - {t})
  }

  // The end of deactivate_task: the task's storage goes, and its closure's reference.
  function FreeTask(heap: map<Addr, Task>, t: Addr): map<Addr, Task>
    requires t in heap
  {
    var h := heap - {t};
    var d := heap[t].Held();
    if d.Some? && d.value in h then h[d.value := h[d.value].Remove(HeldBy(t))] else h
  }

  function Free(s: State, t: Addr): State
    requires t in s.heap
  {
    s.(heap := FreeTask(s.heap, t))
  }

  // deactivate_task, followed by the releases it causes.
  function Deactivate(s: State, t: Addr): State
    requires t in s.heap
    decreases |s.heap|, 0
  {
    var s1 := Forget(s, t);
    if s1.heap[t].Running() then
      s1.(heap := s1.heap[t := s1.heap[t].(imp := Some(s1.heap[t].imp.value.(deleted := true)))])
    else
      var s2 := Free(s1, t);
      FreeShrinks(s1, t);
      var held := s.heap[t].Held();
      if held.Some? && held.value in s2.heap then Collect(s2, held.value) else s2
  }

  lemma FreeShrinks(s: State, t: Addr)
    requires t in s.heap
    ensures |Free(s, t).heap| < |s.heap|
  {
    var h := s.heap - {t};
    assert h.Keys == s.heap.Keys - {t};
    assert Free(s, t).heap.Keys == h.Keys;
    assert |h.Keys| == |h| && |s.heap.Keys| == |s.heap| && |Free(s, t).heap.Keys| == |Free(s, t).heap|;
  }

  // lean_dec_ref after it removed a reference of `t`.
  function Collect(s: State, t: Addr): State
    requires t in s.heap
    decreases |s.heap|, 1
  {
    if s.heap[t].owners == {} && !s.heap[t].Deleted() then Deactivate(s, t) else s
  }

  function Release(s: State, t: Addr, o: Owner): State
    requires t in s.heap
  {
    Collect(RemoveOwner(s, t, o), t)
  }

  // ---- Scheduling ----

  predicate Unresolved(s: State, d: Option<Addr>) {
    d.Some? && d.value in s.heap && s.heap[d.value].value.None?
  }

  // lasm_task_execute up to the call of the closure.
  function Begin(s: State, f: Fiber, t: Addr): State
    requires t in s.heap && s.heap[t].Closure().Some?
  {
    var imp := s.heap[t].imp.value;
    var c := imp.closure.value;
    var depth := |Stack(s, f)|;
    s.(heap := s.heap[t := s.heap[t].Begun(f, depth)],
       active := s.active[f := t],
       stacks := s.stacks[f := Stack(s, f) + [Exec(t, imp.keepAlive, CurrentTask(s, f))]],
       calls := s.calls[t := Invocation(f, depth, c, c.Call?)],
       applied := if c.Call? then s.applied + [c.fn] else s.applied)
  }

  function Dependents(s: State, t: Addr): seq<Addr> {
    if t in s.syncDependents then s.syncDependents[t] else []
  }

  // enqueue_task
  function EnqueueSync(s: State, f: Fiber, t: Addr): State
    requires t in s.heap && s.heap[t].Closure().Some?
  {
    var d := s.heap[t].imp.value.nextDep;
    if Unresolved(s, d) then
      s.(syncRegistered := s.syncRegistered[t := d.value],
         syncDependents := s.syncDependents[d.value := Dependents(s, d.value) + [t]])
    else if !s.heap[t].imp.value.running then Begin(s, f, t) else s
  }

  function Enqueue(s: State, f: Fiber, t: Addr): State
    requires t in s.heap && s.heap[t].Closure().Some?
  {
    var d := s.heap[t].imp.value.nextDep;
    if s.heap[t].imp.value.sync then EnqueueSync(s, f, t)
    else s.(queued := s.queued[t := if Unresolved(s, d) then d else None])
  }

  // schedule_task
  function Schedule(s: State, f: Fiber, t: Addr, d: Option<Addr>): (r: State)
    requires t in s.heap && s.heap[t].Closure().Some?
    ensures s.heap[t].Running() ==> t in r.heap && r.heap[t].Closure().Some? && r.stacks == s.stacks
  {
    var imp := s.heap[t].imp.value;
    var s1 := s.(heap := s.heap[t := s.heap[t].KeepScheduled(d)]);

    if !imp.running || !imp.sync then Enqueue(s1, f, t) else s1
  }

  // resolve_task up to its loop, for a task that has no value yet.
  function Settle(s: State, f: Fiber, t: Addr, v: Value): State
    requires t in s.heap
  {
    var k := s.heap[t];
    s.(heap := s.heap[t := k.(value := Some(v), imp := None)],
       syncDependents := s.syncDependents - {t},
       stacks := s.stacks[f := Stack(s, f) + [Resolve(t, k.uid, Dependents(s, t))]],
       final := s.final + (map u | u in k.standsFor :: v))
  }

  function ResolveTask(s: State, f: Fiber, t: Addr, v: Value): State
    requires t in s.heap
  {
    if s.heap[t].value.Some? then s else Settle(s, f, t, v)
  }

  function SetActive(active: map<Fiber, Addr>, f: Fiber, t: Option<Addr>): map<Fiber, Addr> {
    if t.Some? then active[f := t.value] else active - {f}
  }

  // lasm_task_execute from the return of the closure: the running bit is cleared
  // and current_task() is again what it was before.
  function EndCall(s: State, f: Fiber, t: Addr): State
    requires t in s.heap && s.heap[t].imp.Some? && Top(s, f).Some? && Top(s, f).value.Exec?
  {
    var frame := Top(s, f).value;
    s.(heap := s.heap[t := s.heap[t].(imp := Some(s.heap[t].imp.value.(running := false)))],
       active := SetActive(s.active, f, frame.previous),
       stacks := s.stacks[f := Stack(s, f)[..|Stack(s, f)| - 1]],
       calls := s.calls - {t})
  }

  function Below(below: seq<StackFrame>, keep: bool, t: Addr): seq<StackFrame> {
    if keep then below + [Tail(t)] else below
  }

  function LeaveTail(s: State, f: Fiber, t: Addr, keep: bool): State {
    s.(stacks := s.stacks[f := Below(Stack(s, f), keep, t)])
  }

  // The rest of lasm_task_execute. What it does after resolve_task or enqueue_task
  // is left to a frame of its own, since those run other tasks first.
  function Finish(s: State, f: Fiber, t: Addr, value: Option<Value>): State
    requires t in s.heap && s.heap[t].imp.Some? && Top(s, f).Some? && Top(s, f).value.Exec?
    requires value.None? ==> s.heap[t].Closure().Some?
  {
    var s1 := EndCall(s, f, t);
    if s.heap[t].Deleted() then Deactivate(s1, t)
    else
      var s2 := LeaveTail(s1, f, t, Top(s, f).value.keep);
      if value.Some? then ResolveTask(s2, f, t, value.value)
      else if s.heap[t].imp.value.sync then Enqueue(s2, f, t) else s2
  }

  // ---- task_bind_fn ----

  // The test for a nested task that can continue in the running one.
  predicate CanFuse(s: State, current: Addr, n: Addr)
  {
    && current in s.heap && s.heap[current].imp.Some?    // lean_always_assert
    && n in s.heap && s.heap[n].imp.Some?
    && var imp := s.heap[n].imp.value;
    && imp.closure.Some? && !imp.running
    && s.heap[n].Count() == (if imp.keepAlive then 2 else 1)
    && (s.heap[current].imp.value.keepAlive || !imp.keepAlive)
  }

  function Rehold(heap: map<Addr, Task>, d: Option<Addr>, o: Owner, o': Owner): (h: map<Addr, Task>)
    ensures h.Keys == heap.Keys && forall a :: a in h ==> h[a].imp == heap[a].imp
  {
    if d.Some? && d.value in heap then heap[d.value := heap[d.value].Remove(o).Add(o')] else heap
  }

  // The closure of `n` moves to `t`; what it owns is now owned through `t`.
  function MoveClosure(s: State, t: Addr, n: Addr): (r: State)
    requires t in s.heap && s.heap[t].imp.Some? && n in s.heap && s.heap[n].Closure().Some? && t != n
    ensures t in r.heap && r.heap[t].Closure().Some? && r.heap[t].Running() == s.heap[t].Running() && r.stacks == s.stacks
  {
    var kt, kn := s.heap[t], s.heap[n];
    var kt' := kt.WithClosure(kn.Closure()).Standing(kn.standsFor);
    var h := s.heap[t := kt'][n := kn.WithClosure(None)];
    s.(heap := Rehold(h, kn.Held(), HeldBy(n), HeldBy(t)))
  }

  // Both references of `n` (ours and the keep-alive one) go, so `n` is freed.
  function Fuse(s: State, f: Fiber, t: Addr, n: Addr): (r: State)
    requires t in s.heap && s.heap[t].imp.Some? && n in s.heap && s.heap[n].Closure().Some? && t != n
    ensures s.heap[t].Running() ==> t in r.heap && r.heap[t].Closure().Some? && r.stacks == s.stacks
  {
    var s1 := Forget(MoveClosure(s, t, n), n);
    var s2 := s1.(heap := s1.heap - {n});
    Schedule(s2, f, t, s.heap[n].imp.value.nextDep)
  }

  function Forward(s: State, f: Fiber, t: Addr, n: Addr, o: Owner): (r: State)
    requires t in s.heap && s.heap[t].imp.Some? && n in s.heap
    ensures s.heap[t].Running() ==> t in r.heap && r.heap[t].Closure().Some? && r.stacks == s.stacks
  {
    var h := s.heap[t := s.heap[t].WithClosure(Some(BindResult(n)))];
    Schedule(s.(heap := Rehold(h, Some(n), o, HeldBy(t))), f, t, Some(n))
  }

  // ---- What a step does ----

  // Reclaiming tasks changes no stack, no history and no running task but by a mark.
  predicate StillRuns(s: State, s': State, a: Addr)
    requires a in s.heap
  {
    s.heap[a].Running() ==>
      && a in s'.heap && s'.heap[a].Running() && s'.heap[a].value == s.heap[a].value
      && s'.heap[a].Closure() == s.heap[a].Closure()
  }

  ghost predicate OnlyReclaims(s: State, s': State) {
    && s'.stacks == s.stacks && s'.active == s.active && s'.calls == s.calls
    && s'.next == s.next && s'.origin == s.origin && s'.arg == s.arg
    && s'.returned == s.returned && s'.final == s.final && s'.applied == s.applied
    && forall a :: a in s.heap ==> StillRuns(s, s', a)
  }

  lemma FreeOnlyReclaims(s: State, t: Addr)
    requires t in s.heap && !s.heap[t].Running()
    ensures OnlyReclaims(s, Free(Forget(s, t), t))
  {
    var s' := Free(Forget(s, t), t);
    assert s'.heap == FreeTask(s.heap, t);
    forall a | a in s.heap
      ensures StillRuns(s, s', a)
    {
      if a != t {
        assert a in s'.heap && s'.heap[a].imp == s.heap[a].imp && s'.heap[a].value == s.heap[a].value;
      }
    }
  }

  lemma {:induction false} DeactivateOnlyReclaims(s: State, t: Addr)
    requires t in s.heap
    ensures OnlyReclaims(s, Deactivate(s, t))
    decreases |s.heap|, 0
  {
    var s1 := Forget(s, t);
    if !s1.heap[t].Running() {
      var s2 := Free(s1, t);
      FreeShrinks(s1, t);
      FreeOnlyReclaims(s, t);
      var held := s.heap[t].Held();
      if held.Some? && held.value in s2.heap {
        CollectOnlyReclaims(s2, held.value);
        ReclaimsTrans(s, s2, Collect(s2, held.value));
        hide Free, OnlyReclaims, FreeTask;
        assert Deactivate(s, t) == Collect(s2, held.value);
      } else {
        hide Free, OnlyReclaims, FreeTask;
        assert Deactivate(s, t) == s2;
      }
    } else {
      MarkOnlyReclaims(s, t);
    }
  }

  lemma MarkOnlyReclaims(s: State, t: Addr)
    requires t in s.heap && s.heap[t].Running()
    ensures OnlyReclaims(s, Deactivate(s, t))
  {
    var s' := Deactivate(s, t);
    forall a | a in s.heap
      ensures StillRuns(s, s', a)
    {
      assert a != t ==> s'.heap[a] == s.heap[a];
    }
  }

  lemma ReclaimsTrans(s: State, s1: State, s2: State)
    requires OnlyReclaims(s, s1) && OnlyReclaims(s1, s2)
    ensures OnlyReclaims(s, s2)
  {
    forall a | a in s.heap
      ensures StillRuns(s, s2, a)
    {
      assert StillRuns(s, s1, a);
      assert a in s1.heap ==> StillRuns(s1, s2, a);
    }
  }

  lemma {:induction false} CollectOnlyReclaims(s: State, t: Addr)
    requires t in s.heap
    ensures OnlyReclaims(s, Collect(s, t))
    decreases |s.heap|, 1
  {
    if s.heap[t].owners == {} && !s.heap[t].Deleted() {
      DeactivateOnlyReclaims(s, t);
    }
  }

  // Reclaiming frees only what it is given and what that releases.
  lemma FreeKeys(s: State, t: Addr)
    requires t in s.heap
    ensures Free(Forget(s, t), t).heap.Keys == s.heap.Keys - {t}
    ensures |Free(Forget(s, t), t).heap| < |s.heap|
  {
    FreeShrinks(Forget(s, t), t);
  }

  lemma {:induction false} DeactivateShrinks(s: State, t: Addr)
    requires t in s.heap
    ensures Deactivate(s, t).heap.Keys <= s.heap.Keys
    ensures !s.heap[t].Running() ==> t !in Deactivate(s, t).heap.Keys
    decreases |s.heap|, 0
  {
    FreeKeys(s, t);
    hide Free;
    if !s.heap[t].Running() {
      var s2 := Free(Forget(s, t), t);
      var d := s.heap[t].Held();
      if d.Some? && d.value in s2.heap {
        CollectShrinks(s2, d.value);
        assert Deactivate(s, t) == Collect(s2, d.value);
        hide Collect, Deactivate;
      }
    }
  }

  lemma {:induction false} CollectShrinks(s: State, t: Addr)
    requires t in s.heap
    ensures Collect(s, t).heap.Keys <= s.heap.Keys
    decreases |s.heap|, 1
  {
    if s.heap[t].owners == {} && !s.heap[t].Deleted() {
      DeactivateShrinks(s, t);
      hide Deactivate;
    }
  }

  function Pending(u: Uid, c: Option<Closure>, keepAlive: bool, sync: bool, o: Owner): Task {
    Task(u, {u}, None, Some(Imp(c, keepAlive, false, sync, None, false)), {o})
  }

  function SpawnStep(s: State, a: Addr, k: int, keepAlive: bool): State {
    var s1 := s.(heap := s.heap[a := Pending(s.next, Some(Call(s.next)), keepAlive, false, Ext(k))],
                 next := s.next + 1, origin := s.origin[s.next := Spawn]);
    Schedule(s1, 0, a, None)
  }

  function PureStep(s: State, a: Addr, k: int, v: Value): State {
    s.(heap := s.heap[a := Task(s.next, {s.next}, Some(v), None, {Ext(k)})],
       next := s.next + 1, origin := s.origin[s.next := Pure(v)], final := s.final[s.next := v])
  }

  function PromiseStep(s: State, a: Addr): State {
    s.(heap := s.heap[a := Pending(s.next, None, false, false, Promise)],
       next := s.next + 1, origin := s.origin[s.next := PromiseResult])
  }

  // lean_task_map_core and lean_task_bind_core: the synchronous fast path applies
  // the function in the caller; otherwise a task is made and scheduled.
  function ThenFast(s: State, f: Fiber, bind: bool, src: Addr, k: int): State
    requires src in s.heap && s.heap[src].value.Some?
  {
    var of, v := s.heap[src].uid, s.heap[src].value.value;
    Push(Release(s, src, Ext(k)), f, if bind then FastBind(of, v) else FastMap(of, v))
  }

  function DependentClosure(bind: bool, u: Uid, src: Addr): Closure {
    if bind then BindFn(u, src) else MapFn(u, src)
  }

  function DependentOrigin(bind: bool, of: Uid): Origin {
    if bind then Bind(of) else Map(of)
  }

  function ThenTask(s: State, f: Fiber, a: Addr, k: Task, o: Origin, src: Addr, token: Owner): State
    requires src in s.heap && a != src && k.Closure().Some?
  {
    var h := s.heap[a := k][src := s.heap[src].Remove(token).Add(HeldBy(a))];
    Schedule(s.(heap := h, next := s.next + 1, origin := s.origin[s.next := o]), f, a, Some(src))
  }

  function ThenSlow(s: State, f: Fiber, a: Addr, k': int, bind: bool, src: Addr, k: int, sync: bool, keepAlive: bool): State
    requires src in s.heap && a != src
  {
    var c := DependentClosure(bind, s.next, src);
    ThenTask(s, f, a, Pending(s.next, Some(c), keepAlive, sync, Ext(k')), DependentOrigin(bind, s.heap[src].uid), src, Ext(k))
  }

  function StartStep(s: State, f: Fiber, t: Addr): State
    requires t in s.heap && s.heap[t].Closure().Some?
  {
    Begin(s.(queued := s.queued - {t}), f, t)
  }

  // The closure of a running task reads its source's value and drops the source.
  // task_bind_result returns that value; the others apply the user's function to it.
  predicate GetsValue(s: State, f: Fiber, t: Addr) {
    && t in s.heap && s.heap[t].Running() && s.heap[t].Closure().None? && t in s.calls && !s.calls[t].closure.Call?
    && s.calls[t].closure.src in s.heap && s.heap[s.calls[t].closure.src].value.Some?
    && Top(s, f).Some? && Top(s, f).value.Exec?
  }

  function TakeSource(s: State, t: Addr): State
    requires t in s.calls && !s.calls[t].closure.Call? && s.calls[t].closure.src in s.heap
  {
    RemoveOwner(s.(calls := s.calls[t := s.calls[t].(called := true)]), s.calls[t].closure.src, HeldBy(t))
  }

  function GetResult(s: State, f: Fiber, t: Addr): State
    requires GetsValue(s, f, t)
  {
    var d := s.calls[t].closure.src;
    var s1 := TakeSource(s, t);
    CollectOnlyReclaims(s1, d);
    assert StillRuns(s1, Collect(s1, d), t);
    Finish(Collect(s1, d), f, t, s.heap[d].value)
  }

  function GetArgument(s: State, t: Addr): State
    requires t in s.calls && (s.calls[t].closure.MapFn? || s.calls[t].closure.BindFn?)
    requires s.calls[t].closure.src in s.heap && s.heap[s.calls[t].closure.src].value.Some?
  {
    var c := s.calls[t].closure;
    var s1 := TakeSource(s, t);
    Collect(s1.(arg := s.arg[c.fn := s.heap[c.src].value.value], applied := s.applied + [c.fn]), c.src)
  }

  function GetStep(s: State, f: Fiber, t: Addr): State
    requires GetsValue(s, f, t)
  {
    if s.calls[t].closure.BindResult? then GetResult(s, f, t) else GetArgument(s, t)
  }

  function Pop(s: State, f: Fiber): State
    requires Stack(s, f) != []
  {
    s.(stacks := s.stacks[f := Stack(s, f)[..|Stack(s, f)| - 1]])
  }

  function ReturnValueStep(s: State, f: Fiber, t: Addr, v: Value): State
    requires t in s.heap && s.heap[t].imp.Some? && t in s.calls && !s.calls[t].closure.BindResult?
    requires Top(s, f).Some? && Top(s, f).value.Exec?
  {
    Finish(s.(returned := s.returned[s.calls[t].closure.fn := Val(v)]), f, t, Some(v))
  }

  // The function of a synchronous map returns: lean_task_pure of its value.
  function FastMapStep(s: State, f: Fiber, v: Value, a: Addr, k: int): State
    requires Top(s, f).Some? && Top(s, f).value.FastMap?
  {
    var frame := Top(s, f).value;
    var s1 := Pop(s, f);
    s1.(heap := s.heap[a := Task(s.next, {s.next}, Some(v), None, {Ext(k)})],
        next := s.next + 1, origin := s.origin[s.next := Map(frame.of)],
        arg := s.arg[s.next := frame.arg], returned := s.returned[s.next := Val(v)], final := s.final[s.next := v],
        applied := s.applied + [s.next])
  }

  // The function of a synchronous bind returns: its task is the result itself,
  // so that task also stands for the identity of the bind.
  function FastBindStep(s: State, f: Fiber, n: Addr): State
    requires Top(s, f).Some? && Top(s, f).value.FastBind? && n in s.heap
  {
    var frame := Top(s, f).value;
    var s1 := Pop(s, f);
    var k := s.heap[n];
    s1.(heap := s.heap[n := k.Standing({s.next})],
        next := s.next + 1, origin := s.origin[s.next := Bind(frame.of)],
        arg := s.arg[s.next := frame.arg], returned := s.returned[s.next := Tsk(k.uid)],
        final := if k.value.Some? then s.final[s.next := k.value.value] else s.final,
        applied := s.applied + [s.next])
  }

  // task_bind_fn from the return of the user's function, and the end of the
  // execution: the returned task already has a value, can continue in this one,
  // or is followed.
  predicate ReturnsTask(s: State, f: Fiber, t: Addr, n: Addr) {
    && t in s.heap && s.heap[t].Running() && s.heap[t].Closure().None? && n in s.heap
    && t in s.calls && s.calls[t].closure.BindFn?
    && Top(s, f).Some? && Top(s, f).value.Exec?
  }

  function BindRecord(s: State, t: Addr, n: Addr): State
    requires t in s.calls && s.calls[t].closure.BindFn? && n in s.heap
  {
    s.(returned := s.returned[s.calls[t].closure.fn := Tsk(s.heap[n].uid)])
  }

  function BindValue(s: State, f: Fiber, t: Addr, n: Addr, k: int): State
    requires ReturnsTask(s, f, t, n) && s.heap[n].value.Some? && t != n
  {
    var s1 := RemoveOwner(s, n, Ext(k));
    CollectOnlyReclaims(s1, n);
    assert StillRuns(s1, Collect(s1, n), t);
    Finish(Collect(s1, n), f, t, s.heap[n].value)
  }

  function BindReturn(s: State, f: Fiber, t: Addr, n: Addr, k: int): State
    requires ReturnsTask(s, f, t, n) && (s.heap[n].value.Some? ==> t != n)
  {
    var s1 := BindRecord(s, t, n);
    if s.heap[n].value.Some? then BindValue(s1, f, t, n, k)
    else if CanFuse(s1, t, n) then Finish(Fuse(s1, f, t, n), f, t, None)
    else Finish(Forward(s1, f, t, n, Ext(k)), f, t, None)
  }

  // lasm_task_resolve: what waited for `t` is ready.
  function Woken(queued: map<Addr, Option<Addr>>, t: Addr): map<Addr, Option<Addr>> {
    map a | a in queued :: if queued[a] == Some(t) then None else queued[a]
  }

  // The loop goes past its next entry; a registered one runs now.
  predicate Hits(s: State, frame: StackFrame) {
    frame.Resolve? && frame.deps != [] && frame.deps[0] in s.syncRegistered && s.syncRegistered[frame.deps[0]] == frame.task
  }

  function Skip(s: State, f: Fiber, frame: StackFrame): State
    requires frame.Resolve? && frame.deps != [] && Stack(s, f) != []
  {
    Push(Pop(s, f), f, frame.(deps := frame.deps[1..]))
  }

  // One turn of the loop of resolve_task, or lasm_task_resolve after it.
  function LoopTurn(s: State, f: Fiber): State
    requires Top(s, f).Some? && Top(s, f).value.Resolve?
    requires forall n :: n in s.syncRegistered ==> n in s.heap && s.heap[n].Closure().Some?
  {
    var frame := Top(s, f).value;
    if frame.deps == [] then Pop(s, f).(queued := Woken(s.queued, frame.task))
    else if Hits(s, frame) then Begin(Skip(s, f, frame).(syncRegistered := s.syncRegistered - {frame.deps[0]}), f, frame.deps[0])
    else Skip(s, f, frame)
  }

  function TailTurn(s: State, f: Fiber): State
    requires Top(s, f).Some? && Top(s, f).value.Tail? && Top(s, f).value.task in s.heap
  {
    Release(Pop(s, f), Top(s, f).value.task, Frame(f, |Stack(s, f)| - 1))
  }

  function ResolvePromiseStep(s: State, f: Fiber, p: Addr, v: Value): State
    requires p in s.heap
  {
    if s.heap[p].value.Some? then s
    else Settle(s.(returned := s.returned[s.heap[p].uid := Val(v)]), f, p, v)
  }

  // The promise's own reference is released by its frame, after the resolution.
  function DropPromiseStep(s: State, f: Fiber, p: Addr, v: Value): State
    requires p in s.heap
  {
    var s1 := s.(heap := s.heap[p := s.heap[p].Remove(Promise).Add(Frame(f, |Stack(s, f)|))]);
    ResolvePromiseStep(Push(s1, f, Tail(p)), f, p, v)
  }

  // ---- Steps ----

  datatype Action =
    | SpawnTask(a: Addr, k: int, keepAlive: bool)                   // lean_task_spawn_core
    | PureTask(a: Addr, k: int, v: Value)                           // lean_task_pure
    | Then(f: Fiber, a: Addr, k': int, bind: bool, src: Addr, k: int, sync: bool, keepAlive: bool)
                                                                    // lean_task_map_core, lean_task_bind_core
    | Start(f: Fiber, t: Addr)                                      // the scheduler runs a ready task
    | Get(f: Fiber)                                                 // lean_task_get_own in a task's closure
    | ReturnValue(f: Fiber, v: Value, a: Addr, k: int)              // the user function returns a value
    | ReturnTask(f: Fiber, n: Addr, k: int)                         // the user function of a bind returns a task
    | LoopStep(f: Fiber)                                            // one turn of resolve_task's loop, or its end
    | TailStep(f: Fiber)                                            // a frame ends and releases its reference
    | NewPromise(a: Addr)                                           // lean_promise_new
    | PromiseTask(p: Addr, k: int)                                  // lean_io_promise_result_opt
    | ResolvePromise(f: Fiber, p: Addr, v: Value)                   // lean_promise_resolve
    | DropPromise(f: Fiber, p: Addr, v: Value)                      // deactivate_promise
    | Dup(t: Addr, j: int, k: int)                                  // lean_inc_ref by user code
    | Drop(t: Addr, k: int)                                         // lean_dec_ref by user code

  // User code is on top of the stack of `f`: it may call the runtime or return.
  predicate InUserCode(s: State, f: Fiber) {
    match Top(s, f)
    case None => true
    case Some(Exec(t, _, _)) => t in s.calls && s.calls[t].called
    case Some(FastMap(_, _)) => true
    case Some(FastBind(_, _)) => true
    case _ => false
  }

  predicate HasRef(s: State, t: Addr, o: Owner) {
    t in s.heap && o in s.heap[t].owners
  }

  predicate Enabled(s: State, act: Action) {
    match act
    case SpawnTask(a, _, _) => a !in s.heap
    case PureTask(a, _, _) => a !in s.heap
    case Then(f, a, _, _, src, k, _, _) => InUserCode(s, f) && a !in s.heap && HasRef(s, src, Ext(k))
    case Start(f, t) => Top(s, f).None? && t in s.queued && s.queued[t].None?
    case Get(f) =>
      && Top(s, f).Some? && Top(s, f).value.Exec?
      && var t := Top(s, f).value.task;
      && t in s.calls && !s.calls[t].called && !s.calls[t].closure.Call?
      && s.calls[t].closure.src in s.heap && s.heap[s.calls[t].closure.src].value.Some?
    case ReturnValue(f, _, a, _) =>
      && Top(s, f).Some?
      && (|| (Top(s, f).value.FastMap? && a !in s.heap)
          || (&& Top(s, f).value.Exec?
              && var t := Top(s, f).value.task;
              && t in s.calls && s.calls[t].called && (s.calls[t].closure.Call? || s.calls[t].closure.MapFn?)))
    case ReturnTask(f, n, k) =>
      && HasRef(s, n, Ext(k)) && Top(s, f).Some?
      && (|| Top(s, f).value.FastBind?
          || (&& Top(s, f).value.Exec?
              && var t := Top(s, f).value.task;
              && t in s.calls && s.calls[t].called && s.calls[t].closure.BindFn?))
    case LoopStep(f) => Top(s, f).Some? && Top(s, f).value.Resolve?
    case TailStep(f) => Top(s, f).Some? && Top(s, f).value.Tail?
    case NewPromise(a) => a !in s.heap
    case PromiseTask(p, k) => HasRef(s, p, Promise) && Ext(k) !in s.heap[p].owners
    case ResolvePromise(f, p, _) => InUserCode(s, f) && HasRef(s, p, Promise)
    case DropPromise(f, p, _) => InUserCode(s, f) && HasRef(s, p, Promise)
    case Dup(t, j, k) => HasRef(s, t, Ext(j)) && Ext(k) !in s.heap[t].owners
    case Drop(t, k) => HasRef(s, t, Ext(k))
  }
}
