/** What the task runtime promises, over every run. */
module TaskTheorems {
  import opened Wrappers
  import opened TaskMachine
  import opened TaskInvariant
  import opened TaskFrames
  import opened TaskFinish
  import opened TaskReturns
  import opened TaskNested
  import opened TaskRuns
  import opened TaskSteady

  // The state after a run from the start, when every action could be taken in turn.
  ghost function After(acts: seq<Action>): (r: Option<State>)
    ensures r.Some? ==> Inv(r.value, Tight)
  {
    if acts == [] then
      InitInv();
      Some(Init)
    else
      var before := After(acts[..|acts| - 1]);
      var act := acts[|acts| - 1];
      if before.Some? && Enabled(before.value, act) then
        StepInv(before.value, act);
        Some(Next(before.value, act))
      else None
  }

  // ---- Meaning ----

  // What the value of a task must be, by how the task was made. `args` and `results`
  // are what its function was applied to and returned, `values` what tasks ended with.
  predicate PlainMeaning(origin: Origin, u: Uid, v: Value, args: map<Uid, Value>, results: map<Uid, Outcome>, values: map<Uid, Value>) {
    match origin
    case Pure(w) => v == w
    case Spawn => u in results && results[u] == Val(v)
    case PromiseResult => u in results && results[u] == Val(v)
    case Map(o) => o in values && u in args && args[u] == values[o] && u in results && results[u] == Val(v)
    case Bind(o) =>
      && o in values && u in args && args[u] == values[o]
      && u in results && results[u].Tsk? && results[u].next in values && values[results[u].next] == v
  }

  // In every run: a map ends with what f returned for its source's value, a bind with
  // the value of the task that f returned, whichever path task_bind_fn took.
  lemma ValuesMeanWhatTheySay(acts: seq<Action>, s: State, t: Addr)
    requires After(acts) == Some(s) && t in s.heap && s.heap[t].value.Some?
    ensures var k := s.heap[t];
            k.uid in s.origin && PlainMeaning(s.origin[k.uid], k.uid, k.value.value, s.arg, s.returned, s.final)
  {
    hide After;
    assert MeansAt(s, Firm, t, s.heap[t].uid);
    assert Equation(s, s.heap[t].uid);
  }

  // The same for every identity that ever ended, also when its task was fused away
  // or has been freed since.
  lemma EveryEndMeans(acts: seq<Action>, s: State, u: Uid)
    requires After(acts) == Some(s) && u in s.final
    ensures u in s.origin && PlainMeaning(s.origin[u], u, s.final[u], s.arg, s.returned, s.final)
  {
    hide After;
    assert Equation(s, u);
  }

  // No function is applied twice, in any run.
  lemma AppliedOnce(acts: seq<Action>, s: State, i: int, j: int)
    requires After(acts) == Some(s) && 0 <= i < j < |s.applied|
    ensures s.applied[i] != s.applied[j]
  {
  }

  // ---- What has ended stays as it is ----

  // One step, of any kind: what ended stays, and a task that is live before and after is the
  // same task, with its value if it had one.
  lemma StepKeepsFinal(s: State, act: Action)
    requires Inv(s, Tight) && Enabled(s, act)
    ensures FinalKept(s, Next(s, act))
    ensures forall t :: t in s.heap && t in Next(s, act).heap ==>
              && Next(s, act).heap[t].uid == s.heap[t].uid
              && (s.heap[t].value.Some? ==> Next(s, act).heap[t].value == s.heap[t].value)
  {
    StepLasts(s, act);
    hide Inv, Next, Enabled;
  }

  lemma {:induction false} FinalStays(acts: seq<Action>, more: seq<Action>, s: State, s': State)
    requires After(acts) == Some(s) && After(acts + more) == Some(s')
    ensures FinalKept(s, s')
  {
    hide Inv, Next, Enabled;
    if more == [] {
      assert acts + more == acts;
    } else {
      var all := acts + more;
      assert all[..|all| - 1] == acts + more[..|more| - 1];
      var before := After(all[..|all| - 1]);
      assert before.Some?;
      FinalStays(acts, more[..|more| - 1], s, before.value);
      StepKeepsFinal(before.value, all[|all| - 1]);
    }
  }

  // A value is final: a task that is live at two points of a run has at the later one the
  // value it had at the earlier one, and no identity ends twice with different values.
  lemma EndsStay(acts: seq<Action>, more: seq<Action>, s: State, s': State)
    requires After(acts) == Some(s) && After(acts + more) == Some(s')
    ensures FinalKept(s, s')
    ensures forall t, t' :: t in s.heap && t' in s'.heap && s'.heap[t'].uid == s.heap[t].uid && s.heap[t].value.Some? ==>
              s'.heap[t'].value == s.heap[t].value
  {
    FinalStays(acts, more, s, s');
    hide After;
    forall t, t' | t in s.heap && t' in s'.heap && s'.heap[t'].uid == s.heap[t].uid && s.heap[t].value.Some?
      ensures s'.heap[t'].value == s.heap[t].value
    {
      ValueIsFinal(s, t);
      ValueIsFinal(s', t');
    }
  }

  lemma ValueIsFinal(s: State, t: Addr)
    requires Inv(s, Tight) && t in s.heap
    ensures s.heap[t].value.Some? ==> s.heap[t].uid in s.final && s.final[s.heap[t].uid] == s.heap[t].value.value
    ensures s.heap[t].value.None? ==> s.heap[t].uid !in s.final
  {
    hide Shape, HeldOk, KeepOk, StacksOk, WaitsOk, ProgressOk, HistoryOk;
    assert MeansAt(s, Firm, t, s.heap[t].uid);
  }

  // ---- Storage ----

  // In every run, what waits and what it waits for is live: queued and registered
  // tasks, the tasks they wait for, every m_next_dep, and the tasks that closures own.
  lemma OnlyLiveTasksWait(acts: seq<Action>, s: State)
    requires After(acts) == Some(s)
    ensures && (forall t :: t in s.queued ==> t in s.heap && (s.queued[t].Some? ==> s.queued[t].value in s.heap))
            && (forall t :: t in s.syncRegistered ==> t in s.heap && s.syncRegistered[t] in s.heap)
            && (forall t :: t in s.syncDependents ==> t in s.heap && s.heap[t].value.None?)
            && (forall t :: t in s.heap && s.heap[t].imp.Some? && s.heap[t].imp.value.nextDep.Some? ==> s.heap[t].imp.value.nextDep.value in s.heap)
            && (forall t :: t in s.calls ==> t in s.heap && s.heap[t].Running())
  {
    hide After;
    forall t | t in s.heap
      ensures ShapeAt(s, {}, t) && (s.heap[t].Held().Some? ==> s.heap[t].Held().value in s.heap)
    {
      assert s.heap[t].Held().Some? ==> Holds(s, t) == s.heap[t].Held();
    }
    hide KeepOk, StacksOk, ProgressOk, HistoryOk, MeaningOk;
  }

  // In every run, each reference of a task has a holder: the closures that own the task,
  // one keep-alive reference while it is scheduled, one for each execution in progress.
  lemma CountsMatchHolders(acts: seq<Action>, s: State, t: Addr)
    requires After(acts) == Some(s) && t in s.heap
    ensures var k := s.heap[t];
            && (forall a :: HeldBy(a) in k.owners <==> Holds(s, a) == Some(t))
            && (Scheduled in k.owners <==> k.Closure().Some? && k.imp.value.keepAlive)
            && (forall f, i :: Frame(f, i) in k.owners <==> Keeps(s, f, i, t))
            && (k.owners == {} <==> k.Deleted())
            && (k.Deleted() ==> k.Running())
  {
    hide After;
    assert ShapeAt(s, {}, t);
  }

  // A nested task that task_bind_fn fuses away has no dependents: nothing that the
  // fused storage could leave behind refers to it.
  lemma FusedHasNoDependents(acts: seq<Action>, s: State, f: Fiber, n: Addr, k: int)
    requires After(acts) == Some(s) && Enabled(s, ReturnTask(f, n, k)) && Top(s, f).value.Exec?
    requires CanFuse(s, Top(s, f).value.task, n)
    ensures && (forall a :: Holds(s, a) != Some(n))
            && (forall a :: a in s.syncRegistered ==> s.syncRegistered[a] != n)
            && (forall a :: a in s.queued ==> s.queued[a] != Some(n))
            && n !in s.calls
  {
    hide After;
    CanReturn(s, f);
    FusedIsOurs(s, Top(s, f).value.task, n, k);
    assert ShapeAt(s, {}, n);
  }

  // A task that was deleted while it ran keeps its storage until its execution ends,
  // and is freed then, whatever its function returned.
  lemma DeletedIsFreedAtItsEnd(s: State, f: Fiber, t: Addr, value: Option<Value>)
    requires OnTop(s, f, t) && (value.None? ==> s.heap[t].Closure().Some?)
    ensures s.heap[t].Deleted() ==> t !in Finish(s, f, t, value).heap
  {
    if s.heap[t].Deleted() {
      DeactivateShrinks(EndCall(s, f, t), t);
      hide Deactivate;
    }
  }

  // ---- Wakeups ----

  // No wakeup is lost, in any state of any run: a task with a closure is ready for the
  // scheduler, or waits for what its closure holds; that has no value yet and knows of it, or
  // its resolution is in progress and has not come to this task.
  lemma NothingForgotten(acts: seq<Action>, s: State, t: Addr)
    requires After(acts) == Some(s) && t in s.heap && s.heap[t].Closure().Some?
    ensures var k := s.heap[t];
            if k.imp.value.sync then
              && t in s.syncRegistered && k.Held() == Some(s.syncRegistered[t]) && t !in s.queued
              && var d := s.syncRegistered[t];
              && d in s.heap
              && if s.heap[d].value.None? then t in Dependents(s, d) else InLoop(s, d, t)
            else
              && t in s.queued && t !in s.syncRegistered
              && (s.queued[t].Some? ==>
                    && k.Held() == s.queued[t] && s.queued[t].value in s.heap
                    && (s.heap[s.queued[t].value].value.None? || Resolving(s, s.queued[t].value)))
  {
    hide After;
    hide KeepOk, HeldOk, StacksOk, HistoryOk, MeaningOk, InLoop, Resolving;
    assert ProgressAt(s, t);
  }

  // So once no frame is on a stack, every task that still waits has a dependency without a
  // value, and every other task with a closure is ready for the scheduler.
  lemma NothingForgottenAtRest(acts: seq<Action>, s: State, t: Addr)
    requires After(acts) == Some(s) && forall f :: Stack(s, f) == []
    requires t in s.heap && s.heap[t].Closure().Some?
    ensures var k := s.heap[t];
            || (k.Held().Some? && k.Held().value in s.heap && s.heap[k.Held().value].value.None?)
            || (t in s.queued && s.queued[t].None?)
  {
    hide After;
    NothingForgotten(acts, s, t);
    assert forall d, a :: !InLoop(s, d, a);
    assert forall d :: !Resolving(s, d);
  }
}
