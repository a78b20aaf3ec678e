/** The return of a task's function keeps the invariant, whether the task gets a
    value, continues as the nested task or follows it. */
module TaskReturns {
  import opened Wrappers
  import opened TaskMachine
  import opened TaskInvariant
  import opened TaskFrames
  import opened TaskPreserve
  import opened TaskReclaim
  import opened TaskSchedule
  import opened TaskFinish
  import opened TaskSettle
  import TaskRebind
  import opened TaskTokens
  import opened TaskSteps

  // ---- With a value ----

  function EndPush(s: State, f: Fiber, t: Addr): State
    requires t in s.heap && s.heap[t].imp.Some? && Top(s, f).Some? && Top(s, f).value.Exec?
  {
    LeaveTail(EndCall(s, f, t), f, t, Top(s, f).value.keep)
  }

  lemma EndPops(s: State, f: Fiber, t: Addr)
    requires OnTop(s, f, t)
    ensures Pops(s, EndPush(s, f, t), f, t)
    ensures EndPush(s, f, t).heap.Keys == s.heap.Keys
    ensures EndPush(s, f, t).heap[t] == s.heap[t].(imp := Some(s.heap[t].imp.value.(running := false)))
  {
    var below := Stack(s, f)[..|Stack(s, f)| - 1];
    var above := Below(below, Top(s, f).value.keep, t);
    assert s.stacks[f := below][f := above] == s.stacks[f := above];
  }

  lemma FinishValueInv(s: State, f: Fiber, t: Addr, v: Value)
    requires Inv(s, Slack({}, {}, Settling(t, v))) && OnTop(s, f, t) && s.calls[t].called
    ensures Inv(Finish(s, f, t, Some(v)), Tight)
  {
    hide Inv, Pops, EndPush, EndCall;
    TopRuns(s, f, Settling(t, v));
    var p := EndPush(s, f, t);
    EndPops(s, f, t);
    PopInv(s, p, f, t, Settling(t, v));
    if s.heap[t].Deleted() {
      FinishDeleted(s, f, t, Some(v));
      DeactivateInv(p, t, Slack({t}, {}, Settling(t, v)));
    } else {
      var s' := Settle(p, f, t, v);
      FinishSettles(s, f, t, v);
      assert Settles(p, s', f, t, v);
      hide Settle, Settles;
      SettleInv(p, s', f, t, v, Slack({}, {}, Settling(t, v)));
    }
  }

  lemma FinishDeleted(s: State, f: Fiber, t: Addr, value: Option<Value>)
    requires OnTop(s, f, t) && (value.None? ==> s.heap[t].Closure().Some?) && s.heap[t].Deleted() && !Top(s, f).value.keep
    ensures t in EndPush(s, f, t).heap && Finish(s, f, t, value) == Deactivate(EndPush(s, f, t), t)
  {
    var e := EndCall(s, f, t);
    assert e.stacks[f := Stack(e, f)] == e.stacks;
    hide Deactivate;
  }

  lemma FinishSettles(s: State, f: Fiber, t: Addr, v: Value)
    requires OnTop(s, f, t) && !s.heap[t].Deleted() && s.heap[t].value.None?
    ensures t in EndPush(s, f, t).heap && Finish(s, f, t, Some(v)) == Settle(EndPush(s, f, t), f, t, v)
  {
    hide Settle;
  }

  // ---- What the function returned is recorded ----

  // What is left to show of `t` once its function `u` has returned `o`.
  predicate Returns(s: State, t: Addr, o: Outcome, loose: Loose)
    requires t in s.calls && !s.calls[t].closure.BindResult?
  {
    var c := s.calls[t].closure;
    match loose
    case Firm => false
    case Settling(t', v) =>
      && t' == t
      && if c.BindFn? then o.Tsk? && o.next in s.final && s.final[o.next] == v else o == Val(v)
    case Rebinding(t', u) => t' == t && c.BindFn? && u == c.fn && o.Tsk?
  }

  lemma RecordInv(s: State, f: Fiber, t: Addr, o: Outcome, loose: Loose)
    requires Inv(s, Tight) && OnTop(s, f, t) && s.calls[t].called && !s.calls[t].closure.BindResult?
    requires Returns(s, t, o, loose)
    ensures Inv(s.(returned := s.returned[s.calls[t].closure.fn := o]), Slack({}, {}, loose))
  {
    var s' := s.(returned := s.returned[s.calls[t].closure.fn := o]);
    TopRuns(s, f, Firm);
    hide Shape, HeldOk, KeepOk, StacksOk, WaitsOk, ProgressOk, HistoryOk, MeaningOk;
    RecordOnly(s, s', {});
    RecordHistory(s, t, o);
    RecordMeaning(s, t, o, loose);
  }

  lemma RecordHistory(s: State, t: Addr, o: Outcome)
    requires Shape(s, {}) && HistoryOk(s) && MeaningOk(s, Firm)
    requires t in s.heap && t in s.calls && s.calls[t].called && !s.calls[t].closure.BindResult? && s.heap[t].value.None?
    requires Work(s, t) == Some(s.calls[t].closure)
    ensures HistoryOk(s.(returned := s.returned[s.calls[t].closure.fn := o]))
  {
    var u := s.calls[t].closure.fn;
    var s' := s.(returned := s.returned[u := o]);
    assert WorkAt(s, Firm, t) && MeansAt(s, Firm, t, u);
    hide Shape, MeaningOk;
    forall g, i: int | 0 <= i < |Stack(s', g)|
      ensures FastAt(s', Stack(s', g)[i])
    {
      assert FastAt(s, Stack(s, g)[i]);
    }
    HistoryGrows(s, s');
  }

  lemma RecordMeaning(s: State, t: Addr, o: Outcome, loose: Loose)
    requires Shape(s, {}) && HeldOk(s) && HistoryOk(s) && MeaningOk(s, Firm)
    requires t in s.heap && t in s.calls && s.calls[t].called && !s.calls[t].closure.BindResult? && s.heap[t].value.None?
    requires Work(s, t) == Some(s.calls[t].closure) && s.heap[t].Closure().None? && Returns(s, t, o, loose)
    ensures MeaningOk(s.(returned := s.returned[s.calls[t].closure.fn := o]), loose)
  {
    var u := s.calls[t].closure.fn;
    var s' := s.(returned := s.returned[u := o]);
    assert WorkAt(s, Firm, t) && MeansAt(s, Firm, t, u);
    forall a | a in s.heap && a != t
      ensures SameTask(s, s', a) && (Needs(s, a).Some? ==> NeededAt(s, s', Needs(s, a).value))
      ensures forall w :: w in s.heap[a].standsFor ==> w != u && AgreesAt(s, s', w)
    {
      assert ShapeAt(s, {}, a);
      assert Holds(s, a) == Needs(s, a);
    }
    hide HeldOk, Shape;
    forall w | w in s'.heap[t].standsFor
      ensures MeansAt(s', loose, t, w)
    {
      assert MeansAt(s, Firm, t, w);
    }
    assert MeansHere(s', loose, t);
    MeaningExcept(s, s', Firm, loose, t);
  }

  lemma ReturnValueInv(s: State, f: Fiber, t: Addr, v: Value)
    requires Inv(s, Tight) && OnTop(s, f, t) && s.calls[t].called && (s.calls[t].closure.Call? || s.calls[t].closure.MapFn?)
    ensures Inv(ReturnValueStep(s, f, t, v), Tight)
  {
    hide Inv, Finish;
    var s1 := s.(returned := s.returned[s.calls[t].closure.fn := Val(v)]);
    RecordInv(s, f, t, Val(v), Settling(t, v));
    assert OnTop(s1, f, t);
    FinishValueInv(s1, f, t, v);
  }

  // task_bind_result, and the tasks whose function returned a task with a value.
  lemma GetResultInv(s: State, f: Fiber, t: Addr)
    requires Inv(s, Tight) && OnTop(s, f, t) && GetsValue(s, f, t) && !s.calls[t].called && s.calls[t].closure.BindResult?
    ensures Inv(GetResult(s, f, t), Tight)
  {
    hide Inv, Finish;
    var d := s.calls[t].closure.src;
    var v := s.heap[d].value.value;
    var s1 := TakeSource(s, t);
    TopRuns(s, f, Firm);
    assert Takes(s, s1, t);
    TakeResultInv(s, s1, t, v);
    SourceStays(s, t);
    hide Takes;
    CollectTight(s1, d, Settling(t, v));
    AfterCollect(s1, d, f, t);
    FinishValueInv(Collect(s1, d), f, t, v);
  }

  lemma SourceStays(s: State, t: Addr)
    requires Inv(s, Tight) && Getting(s, t) && s.heap[t].Running()
    ensures s.calls[t].closure.src in s.heap && !s.heap[s.calls[t].closure.src].Deleted()
    ensures TakeSource(s, t).heap[s.calls[t].closure.src].imp == s.heap[s.calls[t].closure.src].imp
    ensures Busy(TakeSource(s, t), t)
  {
    var d := s.calls[t].closure.src;
    assert ShapeAt(s, {}, t);
    assert Holds(s, t) == Some(d);
    assert HeldBy(t) in s.heap[d].owners;
    assert ShapeAt(s, {}, d);
  }

  lemma AfterCollect(s: State, d: Addr, f: Fiber, t: Addr)
    requires d in s.heap && OnTop(s, f, t) && s.heap[t].Running() && s.calls[t].called
    ensures OnTop(Collect(s, d), f, t) && Collect(s, d).calls[t].called
  {
    CollectOnlyReclaims(s, d);
    assert StillRuns(s, Collect(s, d), t);
    hide Collect;
  }

  lemma GetArgumentInv(s: State, f: Fiber, t: Addr)
    requires Inv(s, Tight) && OnTop(s, f, t) && GetsValue(s, f, t) && !s.calls[t].called && !s.calls[t].closure.BindResult?
    ensures Inv(GetArgument(s, t), Tight)
  {
    hide Inv, TakesArgument, TakeSource, Work, WorkAt, Collect;
    var c := s.calls[t].closure;
    var s0 := TakeSource(s, t);
    var s1 := s0.(arg := s.arg[c.fn := s.heap[c.src].value.value], applied := s.applied + [c.fn]);
    TopRuns(s, f, Firm);
    ArgumentTaken(s, t);
    TakeArgumentInv(s, s1, t);
    SourceStays(s, t);
    CollectTight(s1, c.src, Firm);
  }

  lemma ArgumentTaken(s: State, t: Addr)
    requires t in s.calls && (s.calls[t].closure.MapFn? || s.calls[t].closure.BindFn?)
    requires s.calls[t].closure.src in s.heap && s.heap[s.calls[t].closure.src].value.Some?
    ensures TakeSource(s, t).heap.Keys == s.heap.Keys
    ensures var c := s.calls[t].closure;
            TakesArgument(s, TakeSource(s, t).(arg := s.arg[c.fn := s.heap[c.src].value.value], applied := s.applied + [c.fn]), t)
  {
  }

  lemma BindValueInv(s: State, s1: State, f: Fiber, t: Addr, n: Addr, k: int)
    requires Inv(s, Tight) && OnTop(s, f, t) && s.calls[t].called && s.calls[t].closure.BindFn?
    requires HasRef(s, n, Ext(k)) && s.heap[n].value.Some? && t != n
    requires s1 == BindRecord(s, t, n) && ReturnsTask(s1, f, t, n)
    ensures Inv(BindValue(s1, f, t, n, k), Tight)
  {
    hide Inv, Finish;
    var v := s.heap[n].value.value;
    ValueIsFinal(s, n);
    RecordInv(s, f, t, Tsk(s.heap[n].uid), Settling(t, v));
    var s2 := RemoveOwner(s1, n, Ext(k));
    assert Retokens(s1, s2, n);
    NotDeleted(s, n, Tight);
    RetokenInv(s1, s2, n, Settling(t, v));
    assert OnTop(s2, f, t);
    hide Retokens, OnTop;
    CollectTight(s2, n, Settling(t, v));
    AfterCollect(s2, n, f, t);
    FinishValueInv(Collect(s2, n), f, t, v);
  }

  lemma ValueIsFinal(s: State, n: Addr)
    requires Inv(s, Tight) && n in s.heap && s.heap[n].value.Some?
    ensures s.heap[n].uid in s.final && s.final[s.heap[n].uid] == s.heap[n].value.value
  {
    assert MeansAt(s, Firm, n, s.heap[n].uid);
  }

  // ---- With a task that has no value yet ----

  // schedule_task of the running task, then the end of its execution.
  function Scheduling(y: State, f: Fiber, t: Addr): State
    requires t in y.heap && y.heap[t].Closure().Some?
  {
    if y.heap[t].imp.value.sync then y else Enqueue(y, f, t)
  }

  // The running task, with its new closure, in the state schedule_task leaves it.
  predicate Resumes(y: State, f: Fiber, t: Addr) {
    && t in y.heap && y.heap[t].Closure().Some? && y.heap[t].Running()
    && Top(y, f).Some? && Top(y, f).value.Exec? && Top(y, f).value.task == t
  }

  lemma ResumesLater(y: State, f: Fiber, t: Addr)
    requires Resumes(y, f, t) && !y.heap[t].Deleted()
    ensures EndPush(y, f, t).heap.Keys == y.heap.Keys && EndPush(y, f, t).heap[t].Closure().Some?
    ensures Scheduling(y, f, t).heap == y.heap && Top(Scheduling(y, f, t), f) == Top(y, f)
    ensures Finish(Scheduling(y, f, t), f, t, None) == Enqueue(EndPush(y, f, t), f, t)
  {
    var x := Scheduling(y, f, t);
    var i := EndPush(y, f, t);
    assert forall d :: Unresolved(i, d) == Unresolved(y, d);
    if !y.heap[t].imp.value.sync {
      assert x == y.(queued := x.queued);
      assert EndPush(x, f, t) == i.(queued := x.queued);
    }
  }

  lemma ResumesDeleted(y: State, f: Fiber, t: Addr)
    requires Resumes(y, f, t) && y.heap[t].Deleted() && !Top(y, f).value.keep
    ensures EndPush(y, f, t).heap.Keys == y.heap.Keys
    ensures Scheduling(y, f, t).heap == y.heap && Top(Scheduling(y, f, t), f) == Top(y, f)
    ensures Finish(Scheduling(y, f, t), f, t, None) == Deactivate(EndPush(y, f, t), t)
  {
    var x := Scheduling(y, f, t);
    var i := EndPush(y, f, t);
    var e := EndCall(y, f, t);
    assert e.stacks[f := Stack(e, f)] == e.stacks;
    if !y.heap[t].imp.value.sync {
      assert x == y.(queued := x.queued);
      assert EndCall(x, f, t) == i.(queued := x.queued);
      assert x.queued - {t} == y.queued - {t};
      assert Forget(EndCall(x, f, t), t) == Forget(i, t);
      hide EndPush, EndCall, Enqueue;
    }
  }

  // `y` differs from the state `s` after the record by the new closure and its references.
  lemma ResumeInv(s: State, y: State, f: Fiber, t: Addr, u: Uid, p: TaskRebind.Plan)
    requires Inv(s, Slack({}, {}, Rebinding(t, u))) && OnTop(s, f, t) && s.calls[t].called
    requires s.calls[t].closure.BindFn? && s.calls[t].closure.fn == u && p.t == t
    requires Resumes(y, f, t) && y.stacks == s.stacks && y.heap[t].Deleted() == s.heap[t].Deleted()
    requires TaskRebind.Step(EndPush(s, f, t), EndPush(y, f, t), p) && TaskRebind.Follows(EndPush(s, f, t), p, u)
    requires y.queued.Keys <= s.queued.Keys && y.syncRegistered.Keys <= s.syncRegistered.Keys
    ensures Scheduling(y, f, t).heap == y.heap && Top(Scheduling(y, f, t), f) == Top(y, f)
    ensures Inv(Finish(Scheduling(y, f, t), f, t, None), Tight)
  {
    var e := EndPush(s, f, t);
    var i := EndPush(y, f, t);
    TopRuns(s, f, Rebinding(t, u));
    EndPops(s, f, t);
    PopInv(s, e, f, t, Rebinding(t, u));
    var dying: set<Addr> := if s.heap[t].Deleted() then {t} else {};
    assert t !in s.queued && t !in s.syncRegistered by {
      hide Pops;
    }
    hide Inv, Pops, TaskRebind.Step, TaskRebind.Follows;
    TaskRebind.InstallInv(e, i, p, u, dying);
    EndKeeps(y, f, t);
    if y.heap[t].Deleted() {
      ResumesDeleted(y, f, t);
      TaskRebind.StepOwners(e, i, p);
      DeactivateInv(i, t, Slack({t}, {t}, Firm));
    } else {
      ResumesLater(y, f, t);
      EnqueueInv(i, f, t, Slack({}, {t}, Firm));
    }
  }

  lemma EndKeeps(y: State, f: Fiber, t: Addr)
    requires Resumes(y, f, t)
    ensures var i := EndPush(y, f, t);
            && i.queued == y.queued && i.syncRegistered == y.syncRegistered
            && t in i.heap && i.heap[t].Closure() == y.heap[t].Closure() && !i.heap[t].Running()
            && i.heap[t].owners == y.heap[t].owners && i.heap[t].Deleted() == y.heap[t].Deleted()
  {
  }
}
