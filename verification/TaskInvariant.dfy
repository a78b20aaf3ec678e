/** What every reachable state of the task runtime satisfies. Each clause is a
    predicate of its own, so that it is proved step by step on its own.

    `Slack` says which clauses are suspended in the middle of a step. */
module TaskInvariant {
  import opened Wrappers
  import opened TaskMachine

  // dying: tasks whose last reference was just released, not yet reclaimed;
  // idle: tasks with a closure that are not yet queued or registered;
  // loose: a task whose function has just returned.
  datatype Slack = Slack(dying: set<Addr>, idle: set<Addr>, loose: Loose)

  datatype Loose =
    | Firm
    | Settling(task: Addr, v: Value)       // the task is about to have this value
    | Rebinding(task: Addr, fn: Uid)       // its function returned a task it does not follow yet

  const Tight := Slack({}, {}, Firm)

  // ---- Storage ----

  predicate ShapeAt(s: State, dying: set<Addr>, t: Addr)
    requires t in s.heap
  {
    var k := s.heap[t];
    && (k.value.Some? <==> k.imp.None?)
    && (t in s.calls <==> s.heap[t].Running())
    && (k.owners == {} ==> s.heap[t].Deleted() || t in dying)
    && (k.imp.Some? ==>
          var i := k.imp.value;
          && (i.running ==> i.closure.None?)
          && (i.deleted ==> !i.keepAlive && k.owners == {} && (i.running || t in dying))
          && i.nextDep == k.Held())
  }

  ghost predicate Shape(s: State, dying: set<Addr>) {
    && (forall t :: t in s.calls ==> t in s.heap)
    && (forall t :: t in s.heap ==> ShapeAt(s, dying, t))
  }

  // ---- References: the owners of a task are exactly what holds it ----

  predicate Keeps(s: State, f: Fiber, i: int, t: Addr) {
    && 0 <= i < |Stack(s, f)|
    && var frame := Stack(s, f)[i];
    && (frame == Tail(t) || (frame.Exec? && frame.keep && frame.task == t))
  }

  ghost predicate HeldOk(s: State) {
    && (forall t, a :: t in s.heap ==> (HeldBy(a) in s.heap[t].owners <==> Holds(s, a) == Some(t)))
    && (forall a :: Holds(s, a).Some? ==> Holds(s, a).value in s.heap)
  }

  ghost predicate KeepOk(s: State) {
    && (forall t :: t in s.heap ==>
          (Scheduled in s.heap[t].owners <==> s.heap[t].Closure().Some? && s.heap[t].imp.value.keepAlive))
    && (forall t, f, i :: t in s.heap ==> (Frame(f, i) in s.heap[t].owners <==> Keeps(s, f, i, t)))
    && (forall t, f, i :: Keeps(s, f, i, t) ==> t in s.heap)
    && (forall t :: t in s.heap && Promise in s.heap[t].owners ==> s.heap[t].Closure().None? && !s.heap[t].Running())
  }

  // ---- Invocations ----

  function Current(st: seq<StackFrame>): Option<Addr> {
    if st == [] then None
    else if st[|st| - 1].Exec? then Some(st[|st| - 1].task)
    else Current(st[..|st| - 1])
  }

  predicate ExecAt(s: State, f: Fiber, i: int)
    requires 0 <= i < |Stack(s, f)| && Stack(s, f)[i].Exec?
  {
    var frame := Stack(s, f)[i];
    && frame.task in s.calls
    && s.calls[frame.task].fiber == f && s.calls[frame.task].depth == i
    && frame.task in s.heap && s.heap[frame.task].imp.Some? && s.heap[frame.task].imp.value.keepAlive == frame.keep
    && frame.previous == Current(Stack(s, f)[..i])
  }

  ghost predicate StacksOk(s: State) {
    && (forall f: Fiber :: CurrentTask(s, f) == Current(Stack(s, f)))
    && (forall f, i: int | 0 <= i < |Stack(s, f)| && Stack(s, f)[i].Exec? :: ExecAt(s, f, i))
    && (forall t | t in s.calls ::
          var c := s.calls[t];
          0 <= c.depth < |Stack(s, c.fiber)| && Stack(s, c.fiber)[c.depth].Exec? && Stack(s, c.fiber)[c.depth].task == t)
  }

  // ---- Waiting tasks ----

  predicate Idle(s: State, a: Addr) {
    a in s.heap && s.heap[a].Closure().Some? && !s.heap[a].Running()
  }

  ghost predicate WaitsOk(s: State) {
    && (forall a :: a in s.queued ==>
          Idle(s, a) && !s.heap[a].imp.value.sync
          && (s.queued[a].Some? ==> s.heap[a].Held() == s.queued[a]))
    && (forall a :: a in s.syncRegistered ==>
          Idle(s, a) && s.heap[a].imp.value.sync
          && s.heap[a].Held() == Some(s.syncRegistered[a]))
    && (forall d :: d in s.syncDependents ==> d in s.heap && s.heap[d].value.None?)
  }

  // A loop of resolve_task for `d` is in progress and has not reached `a`.
  ghost predicate InLoop(s: State, d: Addr, a: Addr) {
    exists f, i :: 0 <= i < |Stack(s, f)| && LoopAt(s, f, i, d, a)
  }

  predicate LoopAt(s: State, f: Fiber, i: int, d: Addr, a: Addr)
    requires 0 <= i < |Stack(s, f)|
  {
    Stack(s, f)[i].Resolve? && Stack(s, f)[i].task == d && a in Stack(s, f)[i].deps
  }

  ghost predicate Resolving(s: State, d: Addr) {
    exists f, i :: 0 <= i < |Stack(s, f)| && ResolvesAt(s, f, i, d)
  }

  predicate ResolvesAt(s: State, f: Fiber, i: int, d: Addr)
    requires 0 <= i < |Stack(s, f)|
  {
    Stack(s, f)[i].Resolve? && Stack(s, f)[i].task == d
  }

  // A task with a closure will run: it is ready, or its wakeup is still to come.
  ghost predicate ProgressAt(s: State, a: Addr)
    requires a in s.heap && s.heap[a].Closure().Some?
  {
    if s.heap[a].imp.value.sync then
      a in s.syncRegistered && var d := s.syncRegistered[a];
      d in s.heap && if s.heap[d].value.None? then a in Dependents(s, d) else InLoop(s, d, a)
    else
      a in s.queued &&
      (s.queued[a].Some? ==>
         var d := s.queued[a].value;
         d in s.heap && (s.heap[d].value.None? || Resolving(s, d)))
  }

  ghost predicate ProgressOk(s: State, idle: set<Addr>) {
    forall a :: a in s.heap && s.heap[a].Closure().Some? && a !in idle ==> ProgressAt(s, a)
  }

  // ---- Meaning ----

  // The equation that defines the value of identity `u`.
  predicate Equation(s: State, u: Uid)
    requires u in s.final && u in s.origin
  {
    match s.origin[u]
    case Pure(v) => s.final[u] == v
    case Spawn => u in s.returned && s.returned[u] == Val(s.final[u])
    case PromiseResult => u in s.returned && s.returned[u] == Val(s.final[u])
    case Map(o) =>
      && o in s.final && u in s.arg && s.arg[u] == s.final[o]
      && u in s.returned && s.returned[u] == Val(s.final[u])
    case Bind(o) =>
      && o in s.final && u in s.arg && s.arg[u] == s.final[o]
      && u in s.returned && s.returned[u].Tsk?
      && s.returned[u].next in s.final && s.final[s.returned[u].next] == s.final[u]
  }

  ghost predicate HistoryOk(s: State) {
    && 0 <= s.next
    && (forall u: Uid :: u in s.origin <==> 0 <= u < s.next)
    && (forall u: Uid :: u in s.final ==> u in s.origin && Equation(s, u))
    && (forall u: Uid :: u in s.returned ==> 0 <= u < s.next)
    && (forall i, j | 0 <= i < j < |s.applied| :: s.applied[i] != s.applied[j])
    && (forall u: Uid :: u in s.applied ==> 0 <= u < s.next)
    && (forall f, i: int | 0 <= i < |Stack(s, f)| :: FastAt(s, Stack(s, f)[i]))
  }

  predicate FastAt(s: State, frame: StackFrame) {
    (frame.FastMap? || frame.FastBind?) ==> frame.of in s.final && s.final[frame.of] == frame.arg
  }

  // The closure a task stores or is running.
  function Work(s: State, t: Addr): Option<Closure>
    requires t in s.heap
  {
    if s.heap[t].Closure().Some? then s.heap[t].Closure()
    else if t in s.calls then Some(s.calls[t].closure) else None
  }

  predicate Called(s: State, t: Addr)
    requires t in s.heap
  {
    s.heap[t].Closure().None? && t in s.calls && s.calls[t].called
  }

  // `u` has been applied to its source's value.
  predicate AppliedTo(s: State, u: Uid, o: Uid) {
    o in s.final && u in s.arg && s.arg[u] == s.final[o]
  }

  // The function of a task's closure is its own, in the state it should be in.
  predicate FunctionAt(s: State, t: Addr, u: Uid)
    requires t in s.heap && Work(s, t).Some?
  {
    var c := Work(s, t).value;
    && u in s.heap[t].standsFor && u in s.origin && u !in s.returned
    && (Called(s, t) <==> u in s.applied)
    && match c
       case Call(_) => s.origin[u] == Spawn
       case MapFn(_, a) =>
         && s.origin[u].Map?
         && (if Called(s, t) then AppliedTo(s, u, s.origin[u].of) else a in s.heap && s.heap[a].uid == s.origin[u].of)
       case BindFn(_, a) =>
         && s.origin[u].Bind?
         && (if Called(s, t) then AppliedTo(s, u, s.origin[u].of) else a in s.heap && s.heap[a].uid == s.origin[u].of)
       case BindResult(_) => true
  }

  predicate WorkAt(s: State, loose: Loose, t: Addr)
    requires t in s.heap && Work(s, t).Some?
  {
    if Work(s, t).value.BindResult? then Called(s, t) ==> loose.Settling? && loose.task == t
    else (!loose.Firm? && loose.task == t) || FunctionAt(s, t, Work(s, t).value.fn)
  }

  // Why the value of `t` will be the value of identity `u`.
  predicate Delegates(s: State, t: Addr, u: Uid)
    requires t in s.heap && u in s.origin
  {
    if Work(s, t).None? && u == s.heap[t].uid then s.origin[u] == PromiseResult && u !in s.returned
    else (Work(s, t).Some? && !Work(s, t).value.BindResult? && Work(s, t).value.fn == u) || Passed(s, t, u)
  }

  // The function of `u` returned a task that `t` stands for or follows.
  predicate Passed(s: State, t: Addr, u: Uid)
    requires t in s.heap && u in s.origin
  {
    && s.origin[u].Bind? && AppliedTo(s, u, s.origin[u].of)
    && u in s.returned && s.returned[u].Tsk?
    && (|| s.returned[u].next in s.heap[t].standsFor
        || (&& Work(s, t).Some? && Work(s, t).value.BindResult?
            && Work(s, t).value.src in s.heap && s.heap[Work(s, t).value.src].uid == s.returned[u].next))
  }

  // Identity `u` may get value `v` once all of `t` has it.
  predicate WillBe(s: State, t: Addr, u: Uid, v: Value)
    requires t in s.heap && u in s.origin
  {
    match s.origin[u]
    case Pure(_) => false
    case Spawn => u in s.returned && s.returned[u] == Val(v)
    case PromiseResult => u in s.returned && s.returned[u] == Val(v)
    case Map(o) => AppliedTo(s, u, o) && u in s.returned && s.returned[u] == Val(v)
    case Bind(o) =>
      && AppliedTo(s, u, o) && u in s.returned && s.returned[u].Tsk?
      && var n := s.returned[u].next;
      && (n in s.heap[t].standsFor || (n in s.final && s.final[n] == v))
  }

  predicate PendingMeans(s: State, loose: Loose, t: Addr, u: Uid)
    requires t in s.heap && u in s.origin
  {
    if loose.Settling? && loose.task == t then WillBe(s, t, u, loose.v)
    else if loose.Rebinding? && loose.task == t then u == loose.fn || Passed(s, t, u)
    else Delegates(s, t, u)
  }

  predicate MeansAt(s: State, loose: Loose, t: Addr, u: Uid)
    requires t in s.heap && u in s.heap[t].standsFor
  {
    && u in s.origin
    && (s.heap[t].value.Some? ==> u in s.final && s.final[u] == s.heap[t].value.value)
    && (s.heap[t].value.None? ==> u !in s.final && PendingMeans(s, loose, t, u))
  }

  ghost predicate MeaningOk(s: State, loose: Loose) {
    && (forall t :: t in s.heap ==> s.heap[t].uid in s.heap[t].standsFor)
    && (forall t, u :: t in s.heap && u in s.heap[t].standsFor ==> MeansAt(s, loose, t, u))
    && (forall t, t', u :: t in s.heap && t' in s.heap && u in s.heap[t].standsFor && u in s.heap[t'].standsFor ==> t == t')
    && (forall t :: t in s.heap && Work(s, t).Some? ==> WorkAt(s, loose, t))
  }

  ghost predicate Inv(s: State, x: Slack) {
    && Shape(s, x.dying)
    && HeldOk(s)
    && KeepOk(s)
    && StacksOk(s)
    && WaitsOk(s)
    && ProgressOk(s, x.idle)
    && HistoryOk(s)
    && MeaningOk(s, x.loose)
  }

  lemma InitInv()
    ensures Inv(Init, Tight)
  {
  }
}
