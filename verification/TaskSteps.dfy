/** Every step of the runtime keeps the invariant. */
module TaskSteps {
  import opened Wrappers
  import opened TaskMachine
  import opened TaskInvariant
  import opened TaskFrames
  import opened TaskPreserve
  import opened TaskReclaim
  import opened TaskSchedule
  import opened TaskFinish
  import opened TaskSettle
  import opened TaskRebind
  import opened TaskTokens
  import opened TaskLoops
  import opened TaskEnds

  // A task without a closure waits for nothing.
  lemma NotIdle(s: State, x: Slack, a: Addr)
    requires Inv(s, x) && x.idle <= {a} && (a in s.heap ==> s.heap[a].Closure().None?)
    ensures Inv(s, x.(idle := {}))
  {
    hide Shape, HeldOk, KeepOk, StacksOk, WaitsOk, HistoryOk, MeaningOk;
  }

  // Nothing is dying when the task has owners left, or is only marked.
  lemma CollectTight(s: State, t: Addr, loose: Loose)
    requires Inv(s, Slack(Dying(s, t), {}, loose)) && t in s.heap
    requires s.heap[t].Deleted() ==> s.heap[t].Running()
    requires loose.Firm? || Busy(s, loose.task)
    ensures Inv(Collect(s, t), Slack({}, {}, loose))
  {
    hide HeldOk, KeepOk, StacksOk, WaitsOk, ProgressOk, HistoryOk, MeaningOk, Collect;
    assert Inv(s, Slack({t}, {}, loose)) by {
      forall a | a in s.heap
        ensures ShapeAt(s, {t}, a)
      {
        assert ShapeAt(s, Dying(s, t), a);
      }
    }
    hide Shape;
    CollectInv(s, t, Slack({t}, {}, loose));
  }

  lemma NotDeleted(s: State, t: Addr, x: Slack)
    requires Inv(s, x) && t in s.heap && s.heap[t].owners != {}
    ensures !s.heap[t].Deleted()
  {
    assert ShapeAt(s, x.dying, t);
  }

  // ---- New tasks ----

  lemma SpawnInv(s: State, a: Addr, k: int, keepAlive: bool)
    requires Inv(s, Tight) && a !in s.heap
    ensures Inv(SpawnStep(s, a, k, keepAlive), Tight)
  {
    var p := Pending(s.next, Some(Call(s.next)), keepAlive, false, Ext(k));
    var task := p.KeepScheduled(None);
    var s1 := Added(s, a, task, Spawn, Ext(k), Nothing);
    AddedAdds(s, a, task, Spawn, Ext(k), Nothing);
    assert AddStep(s, s1, a, task, Spawn, Ext(k), Nothing);
    assert a !in s.queued && a !in s.syncRegistered;
    hide Inv, AddStep, Adds;
    SpawnIs(s, a, p);
    AddsInv(s, s1, a, task, Spawn, Ext(k), Nothing, Tight);
    hide Added;
    EnqueueInv(s1, 0, a, Slack({}, {a}, Firm));
  }

  // schedule_task of a new task is enqueue_task of the task with its keep-alive reference.
  lemma SpawnIs(s: State, a: Addr, p: Task)
    requires a !in s.heap && p.Closure().Some? && !p.Running() && p.Held().None?
    ensures var s0 := s.(heap := s.heap[a := p], next := s.next + 1, origin := s.origin[s.next := Spawn]);
            var s1 := Added(s, a, p.KeepScheduled(None), Spawn, Ext(0), Nothing);
            Schedule(s0, 0, a, None) == Enqueue(s1, 0, a)
  {
    var task := p.KeepScheduled(None);
    assert task.Held().None? && task.Closure().Some? && !task.Running();
    assert s.heap[a := p][a := task] == s.heap[a := task];
    hide Enqueue, Task.KeepScheduled, Task.Closure, Task.Running, Task.Held;
  }

  lemma PureInv(s: State, a: Addr, k: int, v: Value)
    requires Inv(s, Tight) && a !in s.heap
    ensures Inv(PureStep(s, a, k, v), Tight)
  {
    var task := Task(s.next, {s.next}, Some(v), None, {Ext(k)});
    var r := Record(None, None, Some(v));
    var s1 := PureStep(s, a, k, v);
    assert AddStep(s, s1, a, task, Pure(v), Ext(k), r);
    hide Inv;
    AddsInv(s, s1, a, task, Pure(v), Ext(k), r, Tight);
    NotIdle(s1, Slack({}, {a}, Firm), a);
  }

  lemma PromiseInv(s: State, a: Addr)
    requires Inv(s, Tight) && a !in s.heap
    ensures Inv(PromiseStep(s, a), Tight)
  {
    var task := Pending(s.next, None, false, false, Promise);
    var s1 := PromiseStep(s, a);
    assert AddStep(s, s1, a, task, PromiseResult, Promise, Nothing);
    hide Inv;
    AddsInv(s, s1, a, task, PromiseResult, Promise, Nothing, Tight);
    NotIdle(s1, Slack({}, {a}, Firm), a);
  }

  lemma ThenSlowInv(s: State, f: Fiber, a: Addr, k': int, bind: bool, src: Addr, k: int, sync: bool, keepAlive: bool)
    requires Inv(s, Tight) && a !in s.heap && HasRef(s, src, Ext(k))
    ensures Inv(ThenSlow(s, f, a, k', bind, src, k, sync, keepAlive), Tight)
  {
    var c := DependentClosure(bind, s.next, src);
    var o := DependentOrigin(bind, s.heap[src].uid);
    var p := Pending(s.next, Some(c), keepAlive, sync, Ext(k'));
    assert p.KeepScheduled(Some(src)).imp.value == Imp(Some(c), keepAlive, false, sync, Some(src), false);
    assert NewWork(s, c, o) && c.Held() == Some(src);
    hide DependentClosure, DependentOrigin;
    ThenTaskInv(s, f, a, p, o, src, k);
  }

  lemma ThenTaskInv(s: State, f: Fiber, a: Addr, p: Task, o: Origin, src: Addr, k: int)
    requires Inv(s, Tight) && a !in s.heap && HasRef(s, src, Ext(k))
    requires p.Closure().Some? && p.Held() == Some(src) && NewWork(s, p.Closure().value, o)
    requires !p.Running() && NewTask(s, p.KeepScheduled(Some(src)), o, Nothing)
    ensures Inv(ThenTask(s, f, a, p, o, src, Ext(k)), Tight)
  {
    var task := p.KeepScheduled(Some(src));
    var s1 := Added(s, a, task, o, Ext(k), Nothing);
    AddedAdds(s, a, task, o, Ext(k), Nothing);
    assert Gives(s, task, Ext(k));
    assert a !in s.queued && a !in s.syncRegistered;
    hide Inv, Adds, NewTask, NewWork, Gives;
    ThenTaskIs(s, f, a, p, o, src, Ext(k));
    AddsInv(s, s1, a, task, o, Ext(k), Nothing, Tight);
    AddedIdle(s, a, task, o, Ext(k));
    hide Added;
    EnqueueInv(s1, f, a, Slack({}, {a}, Firm));
  }

  lemma AddedIdle(s: State, a: Addr, task: Task, o: Origin, token: Owner)
    requires task.Closure().Some? && !task.Running() && task.Held().Some? && task.Held() != Some(a)
    ensures Idle(Added(s, a, task, o, token, Nothing), a)
    ensures Added(s, a, task, o, token, Nothing).queued == s.queued
    ensures Added(s, a, task, o, token, Nothing).syncRegistered == s.syncRegistered
  {
  }

  lemma ThenTaskIs(s: State, f: Fiber, a: Addr, p: Task, o: Origin, src: Addr, token: Owner)
    requires src in s.heap && a !in s.heap && p.Closure().Some? && p.Held() == Some(src)
    ensures var s1 := Added(s, a, p.KeepScheduled(Some(src)), o, token, Nothing);
            !p.Running() ==> a in s1.heap && s1.heap[a].Closure().Some?
                             && ThenTask(s, f, a, p, o, src, token) == Enqueue(s1, f, a)
  {
    var task := p.KeepScheduled(Some(src));
    assert task.Held() == Some(src) && task.Closure().Some? && task.Running() == p.Running();
    var ks := s.heap[src].Remove(token).Add(HeldBy(a));
    assert s.heap[a := p][src := ks][a := task] == s.heap[a := task][src := ks];
    assert Added(s, a, task, o, token, Nothing).heap == s.heap[a := task][src := ks];
    hide Enqueue, Task.KeepScheduled, Task.Closure, Task.Running, Task.Held;
  }

  lemma ThenFastInv(s: State, f: Fiber, bind: bool, src: Addr, k: int)
    requires Inv(s, Tight) && HasRef(s, src, Ext(k)) && s.heap[src].value.Some?
    ensures Inv(ThenFast(s, f, bind, src, k), Tight)
  {
    ReleaseInv(s, src, Ext(k));
    var s1 := Release(s, src, Ext(k));
    var of, v := s.heap[src].uid, s.heap[src].value.value;
    var frame := if bind then FastBind(of, v) else FastMap(of, v);
    var s2 := Push(s1, f, frame);
    assert FastAt(s1, frame) by {
      assert MeansAt(s, Firm, src, of);
      CollectOnlyReclaims(RemoveOwner(s, src, Ext(k)), src);
    }
    hide Inv, Release;
    PushFastInv(s1, s2, f, frame);
  }

  // A reference of user code, or of a promise, is dropped.
  lemma ReleaseInv(s: State, t: Addr, o: Owner)
    requires Inv(s, Tight) && HasRef(s, t, o) && (o.Ext? || o == Promise)
    ensures Inv(Release(s, t, o), Tight)
  {
    var s1 := RemoveOwner(s, t, o);
    assert Retokens(s, s1, t);
    NotDeleted(s, t, Tight);
    assert s1.heap[t].imp == s.heap[t].imp;
    hide Inv;
    RetokenInv(s, s1, t, Firm);
    CollectTight(s1, t, Firm);
  }

  lemma DupInv(s: State, t: Addr, o: Owner, k: int)
    requires Inv(s, Tight) && HasRef(s, t, o)
    ensures Inv(AddOwner(s, t, Ext(k)), Tight)
  {
    var s1 := AddOwner(s, t, Ext(k));
    assert Retokens(s, s1, t);
    assert Ext(k) in s1.heap[t].owners;
    hide Inv;
    RetokenInv(s, s1, t, Firm);
  }

  // ---- Running ----

  lemma StartInv(s: State, f: Fiber, t: Addr)
    requires Inv(s, Tight) && t in s.queued
    ensures t in s.heap && s.heap[t].Closure().Some?
    ensures Inv(StartStep(s, f, t), Tight)
  {
    var s1 := s.(queued := s.queued - {t});
    assert Inv(s1, Slack({}, {t}, Firm)) by {
      UnqueueInv(s, t);
    }
    assert CanBegin(s1, t);
    hide Inv;
    BeginInv(s1, f, t, Slack({}, {t}, Firm));
  }

  lemma UnqueueInv(s: State, t: Addr)
    requires Inv(s, Tight) && t in s.queued
    ensures Inv(s.(queued := s.queued - {t}), Slack({}, {t}, Firm))
  {
    var s1 := s.(queued := s.queued - {t});
    hide StacksOk, HistoryOk, MeaningOk;
    StacksFrame(s, s1);
    SameHistory(s, s1);
    SameLoops(s, s1);
    assert MeaningOk(s1, Firm) by {
      hide WaitsOk, ProgressOk, KeepOk;
      forall a | a in s1.heap
        ensures SameTask(s, s1, a) && (Needs(s, a).Some? ==> Needs(s, a).value in s1.heap)
      {
        assert ShapeAt(s, {}, a);
        assert Holds(s, a) == Needs(s, a);
      }
      MeaningFrame(s, s1, Firm);
    }
    hide InLoop, Resolving;
    assert ProgressOk(s1, {t}) by {
      hide HeldOk, KeepOk;
      forall a | a in s1.heap && s1.heap[a].Closure().Some? && a != t
        ensures ProgressAt(s1, a)
      {
        assert ProgressAt(s, a);
      }
    }
    hide ProgressOk;
    RecordOnlyOwners'(s, s1);
    forall a | a in s1.heap
      ensures ShapeAt(s1, {}, a)
    {
      assert ShapeAt(s, {}, a);
    }
  }

  lemma RecordOnlyOwners'(s: State, s': State)
    requires HeldOk(s) && KeepOk(s)
    requires s'.heap == s.heap && s'.stacks == s.stacks && s'.calls == s.calls
    ensures HeldOk(s') && KeepOk(s')
  {
    forall a
      ensures Holds(s', a) == Holds(s, a)
    {
    }
    forall a, g, i
      ensures Keeps(s', g, i, a) <==> Keeps(s, g, i, a)
    {
    }
    hide Holds, Keeps;
  }

  // The topmost invocation of a fiber, and what the invariant says of its task.
  lemma TopRuns(s: State, f: Fiber, loose: Loose)
    requires Inv(s, Slack({}, {}, loose)) && Top(s, f).Some? && Top(s, f).value.Exec?
    ensures var t := Top(s, f).value.task;
            && OnTop(s, f, t) && s.heap[t].Running() && s.heap[t].value.None? && s.heap[t].Closure().None?
            && s.heap[t].imp.value.keepAlive == Top(s, f).value.keep
            && Work(s, t) == Some(s.calls[t].closure) && WorkAt(s, loose, t)
            && Promise !in s.heap[t].owners
            && (s.heap[t].Deleted() ==> !s.heap[t].imp.value.keepAlive && s.heap[t].owners == {})
            && (s.heap[t].owners == {} ==> s.heap[t].Deleted())
  {
    hide Current;
    assert ExecAt(s, f, |Stack(s, f)| - 1);
    assert ShapeAt(s, {}, Top(s, f).value.task);
  }
}
