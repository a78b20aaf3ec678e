/** Runs of the task runtime, and what holds in every state they reach. */
module TaskRuns {
  import opened Wrappers
  import opened TaskMachine
  import opened TaskInvariant
  import opened TaskFrames
  import opened TaskPreserve
  import opened TaskReclaim
  import opened TaskSchedule
  import opened TaskFinish
  import opened TaskSettle
  import opened TaskTokens
  import opened TaskLoops
  import opened TaskEnds
  import opened TaskSteps
  import opened TaskReturns
  import opened TaskNested

  // ---- The remaining steps ----

  lemma LoopInv(s: State, f: Fiber)
    requires Inv(s, Tight) && Top(s, f).Some? && Top(s, f).value.Resolve?
    ensures forall n :: n in s.syncRegistered ==> n in s.heap && s.heap[n].Closure().Some?
    ensures Inv(LoopTurn(s, f), Tight)
  {
    var frame := Top(s, f).value;
    var s1 := Pop(s, f);
    if frame.deps == [] {
      var s' := LoopTurn(s, f);
      assert Swaps(s, s', f, None);
      hide Inv;
      EndInv(s, s', f);
    } else {
      LoopTurnInv(s, f);
    }
  }

  lemma LoopTurnInv(s: State, f: Fiber)
    requires Inv(s, Tight) && Top(s, f).Some? && Top(s, f).value.Resolve? && Top(s, f).value.deps != []
    requires forall n :: n in s.syncRegistered ==> n in s.heap && s.heap[n].Closure().Some?
    ensures Inv(LoopTurn(s, f), Tight)
  {
    var frame := Top(s, f).value;
    var n := frame.deps[0];
    var s2 := Push(Pop(s, f), f, Rest(s, f));
    LoopPush(s, f);
    hide Inv, Swaps;
    if Hits(s, Top(s, f).value) {
      var s3 := s2.(syncRegistered := s2.syncRegistered - {n});
      assert Swaps(s, s3, f, Some(Rest(s, f))) by { LoopUnregister(s, s2, s3, f); }
      TurnInv(s, s3, f);
      BeginInv(s3, f, n, Slack({}, {n}, Firm));
    } else {
      TurnInv(s, s2, f);
    }
  }

  lemma LoopPush(s: State, f: Fiber)
    requires Top(s, f).Some? && Top(s, f).value.Resolve? && Top(s, f).value.deps != []
    ensures Swaps(s, Push(Pop(s, f), f, Rest(s, f)), f, Some(Rest(s, f)))
  {
    var below := Stack(s, f)[..|Stack(s, f)| - 1];
    var above := below + [Rest(s, f)];
    assert s.stacks[f := below][f := above] == s.stacks[f := above];
  }

  lemma LoopUnregister(s: State, s2: State, s3: State, f: Fiber)
    requires Top(s, f).Some? && Top(s, f).value.Resolve? && Top(s, f).value.deps != []
    requires Swaps(s, s2, f, Some(Rest(s, f))) && s3 == s2.(syncRegistered := s3.syncRegistered)
    ensures Swaps(s, s3, f, Some(Rest(s, f)))
  {
  }

  lemma TailTurnInv(s: State, f: Fiber)
    requires Inv(s, Tight) && Top(s, f).Some? && Top(s, f).value.Tail?
    ensures Top(s, f).value.task in s.heap
    ensures Inv(TailTurn(s, f), Tight)
  {
    var t, n := Top(s, f).value.task, |Stack(s, f)| - 1;
    assert Keeps(s, f, n, t);
    assert Frame(f, n) in s.heap[t].owners;
    var s1 := RemoveOwner(Pop(s, f), t, Frame(f, n));
    NotDeleted(s, t, Tight);
    assert s1.heap[t].imp == s.heap[t].imp;
    hide Inv;
    assert TailEnds(s, s1, f);
    TailInv(s, s1, f);
    CollectTight(s1, t, Firm);
  }

  lemma ResolvePromiseInv(s: State, f: Fiber, p: Addr, v: Value)
    requires Inv(s, Tight) && p in s.heap && (s.heap[p].value.None? ==> s.heap[p].Closure().None? && !s.heap[p].Running())
    requires s.heap[p].owners != {}
    ensures Inv(ResolvePromiseStep(s, f, p, v), Tight)
  {
    if s.heap[p].value.None? {
      var u := s.heap[p].uid;
      var s1 := s.(returned := s.returned[u := Val(v)]);
      NotDeleted(s, p, Tight);
      PromiseRecordInv(s, p, v);
      var s' := Settle(s1, f, p, v);
      hide Inv;
      assert Settles(s1, s', f, p, v);
      SettleInv(s1, s', f, p, v, Slack({}, {}, Settling(p, v)));
    }
  }

  // A pending task with no closure is the result of a promise.
  lemma PromiseRecordInv(s: State, p: Addr, v: Value)
    requires Inv(s, Tight) && p in s.heap && s.heap[p].value.None? && s.heap[p].Closure().None? && !s.heap[p].Running()
    ensures Inv(s.(returned := s.returned[s.heap[p].uid := Val(v)]), Slack({}, {}, Settling(p, v)))
  {
    var u := s.heap[p].uid;
    var s' := s.(returned := s.returned[u := Val(v)]);
    hide Inv, HeldOk, KeepOk, StacksOk, WaitsOk, ProgressOk;
    assert Shape(s, {}) && HeldOk(s) && KeepOk(s) && StacksOk(s) && WaitsOk(s) && ProgressOk(s, {}) && HistoryOk(s) && MeaningOk(s, Firm) by {
      InvParts(s);
    }
    RecordOnly(s, s', {});
    assert ShapeAt(s, {}, p) && MeansAt(s, Firm, p, u) && Work(s, p).None?;
    PromiseRecordHistory(s, s', p, v);
    PromiseRecordMeaning(s, s', p, v);
    InvWhole(s', Slack({}, {}, Settling(p, v)));
  }

  lemma InvParts(s: State)
    requires Inv(s, Tight)
    ensures Shape(s, {}) && HeldOk(s) && KeepOk(s) && StacksOk(s) && WaitsOk(s) && ProgressOk(s, {}) && HistoryOk(s) && MeaningOk(s, Firm)
  {
    hide Shape, HeldOk, KeepOk, StacksOk, WaitsOk, ProgressOk, HistoryOk, MeaningOk;
  }

  lemma InvWhole(s: State, x: Slack)
    requires Shape(s, x.dying) && HeldOk(s) && KeepOk(s) && StacksOk(s) && WaitsOk(s) && ProgressOk(s, x.idle) && HistoryOk(s)
    requires MeaningOk(s, x.loose)
    ensures Inv(s, x)
  {
    hide Shape, HeldOk, KeepOk, StacksOk, WaitsOk, ProgressOk, HistoryOk, MeaningOk;
  }

  lemma PromiseRecordHistory(s: State, s': State, p: Addr, v: Value)
    requires HistoryOk(s) && p in s.heap && s' == s.(returned := s.returned[s.heap[p].uid := Val(v)])
    requires s.heap[p].uid in s.origin && s.heap[p].uid !in s.final
    ensures HistoryOk(s')
  {
    forall g, i: int | 0 <= i < |Stack(s', g)|
      ensures FastAt(s', Stack(s', g)[i])
    {
      assert FastAt(s, Stack(s, g)[i]);
    }
    HistoryGrows(s, s');
  }

  lemma PromiseRecordMeaning(s: State, s': State, p: Addr, v: Value)
    requires Shape(s, {}) && HeldOk(s) && MeaningOk(s, Firm) && p in s.heap && s.heap[p].value.None? && Work(s, p).None?
    requires s' == s.(returned := s.returned[s.heap[p].uid := Val(v)])
    ensures MeaningOk(s', Settling(p, v))
  {
    var u := s.heap[p].uid;
    assert MeansAt(s, Firm, p, u);
    forall a | a in s.heap && a != p
      ensures SameTask(s, s', a) && (Needs(s, a).Some? ==> NeededAt(s, s', Needs(s, a).value))
      ensures forall w :: w in s.heap[a].standsFor ==> w != u && AgreesAt(s, s', w)
    {
      assert ShapeAt(s, {}, a);
      assert Holds(s, a) == Needs(s, a);
    }
    hide HeldOk, Shape;
    forall w | w in s'.heap[p].standsFor
      ensures MeansAt(s', Settling(p, v), p, w)
    {
      assert MeansAt(s, Firm, p, w);
    }
    MeaningExcept(s, s', Firm, Settling(p, v), p);
  }

  lemma DropPromiseInv(s: State, f: Fiber, p: Addr, v: Value)
    requires Inv(s, Tight) && HasRef(s, p, Promise)
    ensures Inv(DropPromiseStep(s, f, p, v), Tight)
  {
    var d := |Stack(s, f)|;
    var s1 := s.(heap := s.heap[p := s.heap[p].Remove(Promise).Add(Frame(f, d))]);
    var s2 := Push(s1, f, Tail(p));
    assert PromiseFrame(s, s2, f, p);
    assert Frame(f, d) in s2.heap[p].owners && s2.heap[p].imp == s.heap[p].imp;
    hide Inv, PromiseFrame;
    PromiseFrameInv(s, s2, f, p);
    PromiseIdle(s, p);
    ResolvePromiseInv(s2, f, p, v);
  }

  // The result of a promise is never run.
  lemma PromiseIdle(s: State, p: Addr)
    requires Inv(s, Tight) && HasRef(s, p, Promise)
    ensures s.heap[p].Closure().None? && !s.heap[p].Running()
  {
  }

  lemma PopFast(s: State, f: Fiber)
    requires Inv(s, Tight) && Top(s, f).Some? && (Top(s, f).value.FastMap? || Top(s, f).value.FastBind?)
    ensures Inv(Pop(s, f), Tight)
    ensures Top(s, f).value.of in s.final && s.final[Top(s, f).value.of] == Top(s, f).value.arg
  {
    assert FastAt(s, Stack(s, f)[|Stack(s, f)| - 1]);
    hide Inv;
    PopFastInv(s, Pop(s, f), f);
  }

  lemma FastMapInv(s: State, f: Fiber, v: Value, a: Addr, k: int)
    requires Inv(s, Tight) && Top(s, f).Some? && Top(s, f).value.FastMap? && a !in s.heap
    ensures Inv(FastMapStep(s, f, v, a, k), Tight)
  {
    hide Inv;
    PopFast(s, f);
    var frame := Top(s, f).value;
    var s1 := Pop(s, f);
    var s' := FastMapStep(s, f, v, a, k);
    var task := Task(s.next, {s.next}, Some(v), None, {Ext(k)});
    var r := Record(Some(frame.arg), Some(Val(v)), Some(v));
    assert AddStep(s1, s', a, task, Map(frame.of), Ext(k), r);
    AddsInv(s1, s', a, task, Map(frame.of), Ext(k), r, Tight);
    assert Tight.idle + {a} == {a};
    NotIdle(s', Slack({}, {a}, Firm), a);
  }

  lemma FastBindInv(s: State, f: Fiber, n: Addr)
    requires Inv(s, Tight) && Top(s, f).Some? && Top(s, f).value.FastBind? && n in s.heap
    ensures Inv(FastBindStep(s, f, n), Tight)
  {
    hide Inv;
    PopFast(s, f);
    var s1 := Pop(s, f);
    assert Joins(s1, FastBindStep(s, f, n), n, Top(s, f).value.of);
    JoinInv(s1, FastBindStep(s, f, n), n, Top(s, f).value.of);
  }

  // ---- Steps and runs ----

  // Each step can be taken: what it reads is there.
  lemma CanGet(s: State, f: Fiber)
    requires Inv(s, Tight) && Enabled(s, Get(f))
    ensures var t := Top(s, f).value.task; OnTop(s, f, t) && GetsValue(s, f, t)
  {
    TopRuns(s, f, Firm);
    hide Inv;
  }

  lemma CanReturn(s: State, f: Fiber)
    requires Inv(s, Tight) && Top(s, f).Some? && Top(s, f).value.Exec?
    ensures var t := Top(s, f).value.task; OnTop(s, f, t) && s.heap[t].Running() && s.heap[t].Closure().None? && s.heap[t].value.None?
  {
    TopRuns(s, f, Firm);
    hide Inv;
  }

  lemma CanTurn(s: State, f: Fiber)
    requires Inv(s, Tight)
    ensures forall n :: n in s.syncRegistered ==> n in s.heap && s.heap[n].Closure().Some?
    ensures Top(s, f).Some? && Top(s, f).value.Tail? ==> Top(s, f).value.task in s.heap
    ensures forall n :: n in s.queued ==> n in s.heap && s.heap[n].Closure().Some?
  {
    if Top(s, f).Some? && Top(s, f).value.Tail? {
      assert Keeps(s, f, |Stack(s, f)| - 1, Top(s, f).value.task);
    }
  }

  function NextGet(s: State, f: Fiber): State
    requires Inv(s, Tight) && Enabled(s, Get(f))
  {
    CanGet(s, f);
    GetStep(s, f, Top(s, f).value.task)
  }

  function NextReturnValue(s: State, f: Fiber, v: Value, a: Addr, k: int): State
    requires Inv(s, Tight) && Enabled(s, ReturnValue(f, v, a, k))
  {
    if Top(s, f).value.FastMap? then FastMapStep(s, f, v, a, k)
    else
      CanReturn(s, f);
      ReturnValueStep(s, f, Top(s, f).value.task, v)
  }

  function NextReturnTask(s: State, f: Fiber, n: Addr, k: int): State
    requires Inv(s, Tight) && Enabled(s, ReturnTask(f, n, k))
  {
    if Top(s, f).value.FastBind? then FastBindStep(s, f, n)
    else
      CanReturn(s, f);
      BindReturn(s, f, Top(s, f).value.task, n, k)
  }

  // The steps that the scheduler and the frames of the runtime take.
  function NextTurn(s: State, act: Action): State
    requires Inv(s, Tight) && Enabled(s, act) && (act.Start? || act.LoopStep? || act.TailStep?)
  {
    CanTurn(s, act.f);
    match act
    case Start(f, t) => StartStep(s, f, t)
    case LoopStep(f) => LoopTurn(s, f)
    case TailStep(f) => TailTurn(s, f)
  }

  // The steps of user code.
  function NextUser(s: State, act: Action): State
    requires Enabled(s, act)
  {
    match act
    case SpawnTask(a, k, keepAlive) => SpawnStep(s, a, k, keepAlive)
    case PureTask(a, k, v) => PureStep(s, a, k, v)
    case Then(f, a, k', bind, src, k, sync, keepAlive) =>
      if sync && s.heap[src].value.Some? then ThenFast(s, f, bind, src, k)
      else ThenSlow(s, f, a, k', bind, src, k, sync, keepAlive)
    case NewPromise(a) => PromiseStep(s, a)
    case PromiseTask(p, k) => AddOwner(s, p, Ext(k))
    case ResolvePromise(f, p, v) => ResolvePromiseStep(s, f, p, v)
    case DropPromise(f, p, v) => DropPromiseStep(s, f, p, v)
    case Dup(t, j, k) => AddOwner(s, t, Ext(k))
    case Drop(t, k) => Release(s, t, Ext(k))
    case _ => s
  }

  function Next(s: State, act: Action): (s': State)
    requires Inv(s, Tight) && Enabled(s, act)
  {
    match act
    case Start(_, _) => NextTurn(s, act)
    case LoopStep(_) => NextTurn(s, act)
    case TailStep(_) => NextTurn(s, act)
    case Get(f) => NextGet(s, f)
    case ReturnValue(f, v, a, k) => NextReturnValue(s, f, v, a, k)
    case ReturnTask(f, n, k) => NextReturnTask(s, f, n, k)
    case _ => NextUser(s, act)
  }

  lemma ReturnTaskInv(s: State, f: Fiber, n: Addr, k: int)
    requires Inv(s, Tight) && Enabled(s, ReturnTask(f, n, k))
    ensures Inv(Next(s, ReturnTask(f, n, k)), Tight)
  {
    if Top(s, f).value.FastBind? {
      hide Inv;
      FastBindInv(s, f, n);
    } else {
      hide Inv, Finish, Fuse, Forward;
      CanReturn(s, f);
      var t := Top(s, f).value.task;
      var s1 := BindRecord(s, t, n);
      if s.heap[n].value.Some? {
        BindValueInv(s, s1, f, t, n, k);
      } else if CanFuse(s1, t, n) {
        BindFuseInv(s, s1, f, t, n, k);
      } else {
        BindForwardInv(s, s1, f, t, n, k);
      }
    }
  }

  lemma RunningStepInv(s: State, act: Action)
    requires Inv(s, Tight) && Enabled(s, act) && (act.Start? || act.Get? || act.ReturnValue? || act.LoopStep? || act.TailStep?)
    ensures Inv(Next(s, act), Tight)
  {
    hide Inv, Finish, TakeSource, LoopTurn, TailTurn, StartStep;
    match act
    case Start(f, t) => StartInv(s, f, t);
    case Get(f) =>
      CanReturn(s, f);
      if s.calls[Top(s, f).value.task].closure.BindResult? {
        GetResultInv(s, f, Top(s, f).value.task);
      } else {
        GetArgumentInv(s, f, Top(s, f).value.task);
      }
    case ReturnValue(f, v, a, k) =>
      if Top(s, f).value.FastMap? {
        FastMapInv(s, f, v, a, k);
      } else {
        CanReturn(s, f);
        ReturnValueInv(s, f, Top(s, f).value.task, v);
      }
    case LoopStep(f) => LoopInv(s, f);
    case TailStep(f) => TailTurnInv(s, f);
    case _ =>
  }

  lemma UserStepInv(s: State, act: Action)
    requires Inv(s, Tight) && Enabled(s, act)
    requires act.SpawnTask? || act.PureTask? || act.Then? || act.NewPromise? || act.PromiseTask?
             || act.ResolvePromise? || act.DropPromise? || act.Dup? || act.Drop?
    ensures Inv(Next(s, act), Tight)
  {
    hide Inv, NextTurn, NextGet, NextReturnValue, NextReturnTask, SpawnStep, PureStep, ThenFast, ThenSlow;
    hide PromiseStep, ResolvePromiseStep, DropPromiseStep, Release, AddOwner;
    match act
    case SpawnTask(a, k, keepAlive) => SpawnInv(s, a, k, keepAlive);
    case PureTask(a, k, v) => PureInv(s, a, k, v);
    case Then(f, a, k', bind, src, k, sync, keepAlive) =>
      if sync && s.heap[src].value.Some? {
        ThenFastInv(s, f, bind, src, k);
      } else {
        ThenSlowInv(s, f, a, k', bind, src, k, sync, keepAlive);
      }
    case NewPromise(a) => PromiseInv(s, a);
    case PromiseTask(p, k) => DupInv(s, p, Promise, k);
    case ResolvePromise(f, p, v) => PromiseIdle(s, p); ResolvePromiseInv(s, f, p, v);
    case DropPromise(f, p, v) => DropPromiseInv(s, f, p, v);
    case Dup(t, j, k) => DupInv(s, t, Ext(j), k);
    case Drop(t, k) => ReleaseInv(s, t, Ext(k));
    case _ =>
  }

  lemma StepInv(s: State, act: Action)
    requires Inv(s, Tight) && Enabled(s, act)
    ensures Inv(Next(s, act), Tight)
  {
    hide Inv, Next, Enabled;
    if act.ReturnTask? {
      ReturnTaskInv(s, act.f, act.n, act.k);
    } else if act.Start? || act.Get? || act.ReturnValue? || act.LoopStep? || act.TailStep? {
      RunningStepInv(s, act);
    } else {
      UserStepInv(s, act);
    }
  }
}
