/** A run in which a freed address is handed out again while its old task is still
    being resolved: the task that waits at the new address starts too early. */
module TaskReuseExample {
  import opened Wrappers
  import opened TaskMachine
  import opened TaskInvariant
  import opened TaskRuns
  import opened TaskTheorems
  import opened TaskReuse

  // Task 1 is spawned, and mapped synchronously by task 2, which alone keeps it.
  const S1 := State(
    map[1 := Task(0, {0}, None, Some(Imp(Some(Call(0)), false, false, false, None, false)), {Ext(0)})],
    map[], map[], map[1 := None], map[], map[],
    map[], 1, map[0 := Spawn],
    map[], map[], map[], [])
  const S2 := State(
    map[1 := Task(0, {0}, None, Some(Imp(Some(Call(0)), false, false, false, None, false)), {HeldBy(2)}),
        2 := Task(1, {1}, None, Some(Imp(Some(MapFn(1, 1)), false, false, true, Some(1), false)), {Ext(0)})],
    map[1 := [2]], map[2 := 1], map[1 := None], map[], map[],
    map[], 2, map[0 := Spawn, 1 := Map(0)],
    map[], map[], map[], [])
  // Task 1 runs and returns 7; its loop starts task 2, which reads 7 and frees it.
  const S3 := State(
    map[1 := Task(0, {0}, None, Some(Imp(None, false, true, false, None, false)), {HeldBy(2)}),
        2 := Task(1, {1}, None, Some(Imp(Some(MapFn(1, 1)), false, false, true, Some(1), false)), {Ext(0)})],
    map[1 := [2]], map[2 := 1], map[], map[0 := 1], map[0 := [Exec(1, false, None)]],
    map[1 := Invocation(0, 0, Call(0), true)], 2, map[0 := Spawn, 1 := Map(0)],
    map[], map[], map[], [0])
  const S4 := State(
    map[1 := Task(0, {0}, Some(7), None, {HeldBy(2)}),
        2 := Task(1, {1}, None, Some(Imp(Some(MapFn(1, 1)), false, false, true, Some(1), false)), {Ext(0)})],
    map[], map[2 := 1], map[], map[], map[0 := [Resolve(1, 0, [2])]],
    map[], 2, map[0 := Spawn, 1 := Map(0)],
    map[], map[0 := Val(7)], map[0 := 7], [0])
  const S5 := State(
    map[1 := Task(0, {0}, Some(7), None, {HeldBy(2)}),
        2 := Task(1, {1}, None, Some(Imp(None, false, true, true, None, false)), {Ext(0)})],
    map[], map[], map[], map[0 := 2], map[0 := [Resolve(1, 0, []), Exec(2, false, None)]],
    map[2 := Invocation(0, 1, MapFn(1, 1), false)], 2, map[0 := Spawn, 1 := Map(0)],
    map[], map[0 := Val(7)], map[0 := 7], [0])
  const S6 := State(
    map[2 := Task(1, {1}, None, Some(Imp(None, false, true, true, None, false)), {Ext(0)})],
    map[], map[], map[], map[0 := 2], map[0 := [Resolve(1, 0, []), Exec(2, false, None)]],
    map[2 := Invocation(0, 1, MapFn(1, 1), true)], 2, map[0 := Spawn, 1 := Map(0)],
    map[1 := 7], map[0 := Val(7)], map[0 := 7], [0, 1])
  // The function of task 2 makes a promise, whose result gets address 1, and maps it.
  const S7 := State(
    map[1 := Task(2, {2}, None, Some(Imp(None, false, false, false, None, false)), {Promise}),
        2 := Task(1, {1}, None, Some(Imp(None, false, true, true, None, false)), {Ext(0)})],
    map[], map[], map[], map[0 := 2], map[0 := [Resolve(1, 0, []), Exec(2, false, None)]],
    map[2 := Invocation(0, 1, MapFn(1, 1), true)], 3, map[0 := Spawn, 1 := Map(0), 2 := PromiseResult],
    map[1 := 7], map[0 := Val(7)], map[0 := 7], [0, 1])
  const S8 := State(
    map[1 := Task(2, {2}, None, Some(Imp(None, false, false, false, None, false)), {Promise, Ext(5)}),
        2 := Task(1, {1}, None, Some(Imp(None, false, true, true, None, false)), {Ext(0)})],
    map[], map[], map[], map[0 := 2], map[0 := [Resolve(1, 0, []), Exec(2, false, None)]],
    map[2 := Invocation(0, 1, MapFn(1, 1), true)], 3, map[0 := Spawn, 1 := Map(0), 2 := PromiseResult],
    map[1 := 7], map[0 := Val(7)], map[0 := 7], [0, 1])
  const S9 := State(
    map[1 := Task(2, {2}, None, Some(Imp(None, false, false, false, None, false)), {Promise, HeldBy(3)}),
        2 := Task(1, {1}, None, Some(Imp(None, false, true, true, None, false)), {Ext(0)}),
        3 := Task(3, {3}, None, Some(Imp(Some(MapFn(3, 1)), false, false, false, Some(1), false)), {Ext(0)})],
    map[], map[], map[3 := Some(1)], map[0 := 2], map[0 := [Resolve(1, 0, []), Exec(2, false, None)]],
    map[2 := Invocation(0, 1, MapFn(1, 1), true)], 4, map[0 := Spawn, 1 := Map(0), 2 := PromiseResult, 3 := Map(2)],
    map[1 := 7], map[0 := Val(7)], map[0 := 7], [0, 1])
  // Task 2 returns 8; then the loop of the old task 1 ends: lasm_task_resolve(1).
  const S10 := State(
    map[1 := Task(2, {2}, None, Some(Imp(None, false, false, false, None, false)), {Promise, HeldBy(3)}),
        2 := Task(1, {1}, Some(8), None, {Ext(0)}),
        3 := Task(3, {3}, None, Some(Imp(Some(MapFn(3, 1)), false, false, false, Some(1), false)), {Ext(0)})],
    map[], map[], map[3 := Some(1)], map[], map[0 := [Resolve(1, 0, []), Resolve(2, 1, [])]],
    map[], 4, map[0 := Spawn, 1 := Map(0), 2 := PromiseResult, 3 := Map(2)],
    map[1 := 7], map[0 := Val(7), 1 := Val(8)], map[0 := 7, 1 := 8], [0, 1])
  const S11 := State(
    map[1 := Task(2, {2}, None, Some(Imp(None, false, false, false, None, false)), {Promise, HeldBy(3)}),
        2 := Task(1, {1}, Some(8), None, {Ext(0)}),
        3 := Task(3, {3}, None, Some(Imp(Some(MapFn(3, 1)), false, false, false, Some(1), false)), {Ext(0)})],
    map[], map[], map[3 := Some(1)], map[], map[0 := [Resolve(1, 0, [])]],
    map[], 4, map[0 := Spawn, 1 := Map(0), 2 := PromiseResult, 3 := Map(2)],
    map[1 := 7], map[0 := Val(7), 1 := Val(8)], map[0 := 7, 1 := 8], [0, 1])
  const S12 := State(
    map[1 := Task(2, {2}, None, Some(Imp(None, false, false, false, None, false)), {Promise, HeldBy(3)}),
        2 := Task(1, {1}, Some(8), None, {Ext(0)}),
        3 := Task(3, {3}, None, Some(Imp(Some(MapFn(3, 1)), false, false, false, Some(1), false)), {Ext(0)})],
    map[], map[], map[3 := None], map[], map[0 := []],
    map[], 4, map[0 := Spawn, 1 := Map(0), 2 := PromiseResult, 3 := Map(2)],
    map[1 := 7], map[0 := Val(7), 1 := Val(8)], map[0 := 7, 1 := 8], [0, 1])
  // Task 3 starts, and waits inside lean_task_get.
  const S13 := State(
    map[1 := Task(2, {2}, None, Some(Imp(None, false, false, false, None, false)), {Promise, HeldBy(3)}),
        2 := Task(1, {1}, Some(8), None, {Ext(0)}),
        3 := Task(3, {3}, None, Some(Imp(None, false, true, false, None, false)), {Ext(0)})],
    map[], map[], map[], map[0 := 3], map[0 := [Exec(3, false, None)]],
    map[3 := Invocation(0, 0, MapFn(3, 1), false)], 4, map[0 := Spawn, 1 := Map(0), 2 := PromiseResult, 3 := Map(2)],
    map[1 := 7], map[0 := Val(7), 1 := Val(8)], map[0 := 7, 1 := 8], [0, 1])

  const Acts: seq<Action> := [
    SpawnTask(1, 0, false), Then(0, 2, 0, false, 1, 0, true, false), Start(0, 1), ReturnValue(0, 7, 9, 9),
    LoopStep(0), Get(0), NewPromise(1), PromiseTask(1, 5), Then(0, 3, 0, false, 1, 5, false, false),
    ReturnValue(0, 8, 9, 9), LoopStep(0), LoopStep(0), Start(0, 3)]

  lemma Extend(acts: seq<Action>, s: State, act: Action, s': State)
    requires After(acts) == Some(s) && Inv(s, Tight) && Enabled(s, act) && Next(s, act) == s'
    ensures After(acts + [act]) == Some(s') && Inv(s', Tight)
  {
    hide Inv, Next, Enabled;
    var all := acts + [act];
    assert all[..|all| - 1] == acts;
  }

  lemma Spawned()
    requires Inv(Init, Tight)
    ensures Enabled(Init, Acts[0]) && Next(Init, Acts[0]) == S1
  {
    hide Inv;
    var n := Next(Init, Acts[0]);
    assert n.heap == S1.heap;
    assert n.syncDependents == S1.syncDependents && n.syncRegistered == S1.syncRegistered && n.queued == S1.queued;
    assert n.active == S1.active && n.stacks == S1.stacks && n.calls == S1.calls;
    assert n.origin == S1.origin && n.arg == S1.arg && n.returned == S1.returned && n.final == S1.final;
  }

  lemma Mapped()
    requires Inv(S1, Tight)
    ensures Enabled(S1, Acts[1]) && Next(S1, Acts[1]) == S2
  {
    hide Inv;
    var n := Next(S1, Acts[1]);
    assert {Ext(0)} - {Ext(0)} + {HeldBy(2)} == {HeldBy(2)} && Dependents(S1, 1) + [2] == [2];
    assert n.heap == S2.heap;
    assert n.syncDependents == S2.syncDependents && n.syncRegistered == S2.syncRegistered && n.queued == S2.queued;
    assert n.active == S2.active && n.stacks == S2.stacks && n.calls == S2.calls;
    assert n.origin == S2.origin && n.arg == S2.arg && n.returned == S2.returned && n.final == S2.final;
  }

  lemma Started()
    requires Inv(S2, Tight)
    ensures Enabled(S2, Acts[2]) && Next(S2, Acts[2]) == S3
  {
    hide Inv;
    var n := Next(S2, Acts[2]);
    assert n.stacks[0] == S3.stacks[0];
    assert n.heap == S3.heap;
    assert n.syncDependents == S3.syncDependents && n.syncRegistered == S3.syncRegistered && n.queued == S3.queued;
    assert n.active == S3.active && n.stacks == S3.stacks && n.calls == S3.calls;
    assert n.origin == S3.origin && n.arg == S3.arg && n.returned == S3.returned && n.final == S3.final;
  }

  // A plain task of the first fiber returns a value.
  function PlainReturn(s: State, t: Addr, v: Value, u: Uid): State
    requires t in s.heap && Stack(s, 0) != []
  {
    var k := s.heap[t];
    s.(heap := s.heap[t := Task(k.uid, k.standsFor, Some(v), None, k.owners)],
       active := s.active - {0},
       calls := s.calls - {t},
       syncDependents := s.syncDependents - {t},
       stacks := s.stacks[0 := Stack(s, 0)[..|Stack(s, 0)| - 1] + [Resolve(t, k.uid, Dependents(s, t))]],
       returned := s.returned[u := Val(v)],
       final := s.final + (map w | w in k.standsFor :: v))
  }

  lemma FinishesPlainly(s: State, t: Addr, v: Value)
    requires Top(s, 0) == Some(Exec(t, false, None)) && t in s.heap
    requires s.heap[t].imp.Some? && !s.heap[t].Deleted() && s.heap[t].value.None?
    ensures var l := LeaveTail(EndCall(s, 0, t), 0, t, false);
            t in l.heap && Finish(s, 0, t, Some(v)) == Settle(l, 0, t, v)
  {
    hide Deactivate, Enqueue, Settle;
  }

  lemma EndsPlainly(s: State, t: Addr)
    requires Top(s, 0) == Some(Exec(t, false, None)) && t in s.heap && s.heap[t].imp.Some?
    ensures var l := LeaveTail(EndCall(s, 0, t), 0, t, false);
            && l.heap == s.heap[t := s.heap[t].(imp := Some(s.heap[t].imp.value.(running := false)))]
            && l == s.(heap := l.heap, active := s.active - {0}, calls := s.calls - {t}, stacks := l.stacks)
            && l.stacks == s.stacks[0 := Stack(s, 0)[..|Stack(s, 0)| - 1]]
  {
    var e := EndCall(s, 0, t);
    assert Stack(e, 0) == Stack(s, 0)[..|Stack(s, 0)| - 1];
    assert e.stacks[0 := Stack(e, 0)] == e.stacks;
  }

  lemma ReturnsPlainly(s: State, t: Addr, v: Value, u: Uid)
    requires Top(s, 0) == Some(Exec(t, false, None)) && t in s.heap && t in s.calls
    requires s.heap[t].imp.Some? && !s.heap[t].Deleted() && s.heap[t].value.None?
    requires !s.calls[t].closure.BindResult? && s.calls[t].closure.fn == u
    ensures ReturnValueStep(s, 0, t, v) == PlainReturn(s, t, v, u)
  {
    hide Finish, EndCall, LeaveTail;
    var s0 := s.(returned := s.returned[u := Val(v)]);
    FinishesPlainly(s0, t, v);
    EndsPlainly(s0, t);
    var l := LeaveTail(EndCall(s0, 0, t), 0, t, false);
    var n := Settle(l, 0, t, v);
    assert n.stacks == PlainReturn(s, t, v, u).stacks;
    assert n.heap == PlainReturn(s, t, v, u).heap;
  }

  lemma NextReturns(s: State, t: Addr, v: Value, a: Addr, k: int)
    requires Inv(s, Tight) && Enabled(s, ReturnValue(0, v, a, k)) && Top(s, 0) == Some(Exec(t, false, None))
    requires t in s.calls && !s.calls[t].closure.BindResult? && t in s.heap && s.heap[t].imp.Some?
    ensures Next(s, ReturnValue(0, v, a, k)) == ReturnValueStep(s, 0, t, v)
  {
    hide Inv, ReturnValueStep, Enabled;
  }

  lemma ReturnedEnabled()
    ensures Enabled(S3, ReturnValue(0, 7, 9, 9)) && Top(S3, 0) == Some(Exec(1, false, None))
  {
  }

  lemma ReturnedHeap()
    ensures PlainReturn(S3, 1, 7, 0).heap == S4.heap
  {
    assert PlainReturn(S3, 1, 7, 0).heap.Keys == S4.heap.Keys;
  }

  lemma ReturnedResult()
    ensures PlainReturn(S3, 1, 7, 0) == S4
  {
    ReturnedHeap();
    var n := PlainReturn(S3, 1, 7, 0);
    assert n.stacks[0] == S4.stacks[0];
    assert n.final == S4.final && n.returned == S4.returned;
    assert n.syncDependents == S4.syncDependents && n.active == S4.active && n.stacks == S4.stacks && n.calls == S4.calls;
  }

  lemma Returned()
    requires Inv(S3, Tight)
    ensures Enabled(S3, Acts[3]) && Next(S3, Acts[3]) == S4
  {
    hide Inv, Next, ReturnValueStep, PlainReturn, Enabled;
    ReturnedEnabled();
    NextReturns(S3, 1, 7, 9, 9);
    ReturnsPlainly(S3, 1, 7, 0);
    ReturnedResult();
  }

  lemma Reached()
    requires Inv(S4, Tight)
    ensures Enabled(S4, Acts[4]) && Next(S4, Acts[4]) == S5
  {
    hide Inv;
    var n := Next(S4, Acts[4]);
    var left: seq<Addr> := [2];
    assert left[1..] == [];
    assert n.stacks[0] == S5.stacks[0];
    assert n.heap == S5.heap;
    assert n.syncDependents == S5.syncDependents && n.syncRegistered == S5.syncRegistered && n.queued == S5.queued;
    assert n.active == S5.active && n.stacks == S5.stacks && n.calls == S5.calls;
    assert n.origin == S5.origin && n.arg == S5.arg && n.returned == S5.returned && n.final == S5.final;
  }

  lemma Freed()
    requires Inv(S5, Tight)
    ensures Enabled(S5, Acts[5]) && Next(S5, Acts[5]) == S6
  {
    hide Inv;
    var n := Next(S5, Acts[5]);
    assert {HeldBy(2)} - {HeldBy(2)} == {};
    var taken := TakeSource(S5, 2).(arg := S5.arg[1 := 7], applied := S5.applied + [1]);
    assert n == Collect(taken, 1);
    assert Collect(taken, 1) == Deactivate(taken, 1);
    assert Deactivate(taken, 1) == Free(Forget(taken, 1), 1);
    assert n.heap == S6.heap;
    assert n.syncDependents == S6.syncDependents && n.syncRegistered == S6.syncRegistered && n.queued == S6.queued;
    assert n.active == S6.active && n.stacks == S6.stacks && n.calls == S6.calls;
    assert n.origin == S6.origin && n.arg == S6.arg && n.returned == S6.returned && n.final == S6.final;
  }

  lemma Promised()
    requires Inv(S6, Tight)
    ensures Enabled(S6, Acts[6]) && Next(S6, Acts[6]) == S7
  {
    hide Inv;
    var n := Next(S6, Acts[6]);
    assert n.heap == S7.heap;
    assert n.syncDependents == S7.syncDependents && n.syncRegistered == S7.syncRegistered && n.queued == S7.queued;
    assert n.active == S7.active && n.stacks == S7.stacks && n.calls == S7.calls;
    assert n.origin == S7.origin && n.arg == S7.arg && n.returned == S7.returned && n.final == S7.final;
  }

  lemma Referred()
    requires Inv(S7, Tight)
    ensures Enabled(S7, Acts[7]) && Next(S7, Acts[7]) == S8
  {
    hide Inv;
    var n := Next(S7, Acts[7]);
    assert {Promise} + {Ext(5)} == {Promise, Ext(5)};
    assert n.heap == S8.heap;
    assert n.syncDependents == S8.syncDependents && n.syncRegistered == S8.syncRegistered && n.queued == S8.queued;
    assert n.active == S8.active && n.stacks == S8.stacks && n.calls == S8.calls;
    assert n.origin == S8.origin && n.arg == S8.arg && n.returned == S8.returned && n.final == S8.final;
  }

  lemma MappedAgain()
    requires Inv(S8, Tight)
    ensures Enabled(S8, Acts[8]) && Next(S8, Acts[8]) == S9
  {
    hide Inv;
    var n := Next(S8, Acts[8]);
    assert {Promise, Ext(5)} - {Ext(5)} + {HeldBy(3)} == {Promise, HeldBy(3)};
    assert n.heap == S9.heap;
    assert n.syncDependents == S9.syncDependents && n.syncRegistered == S9.syncRegistered && n.queued == S9.queued;
    assert n.active == S9.active && n.stacks == S9.stacks && n.calls == S9.calls;
    assert n.origin == S9.origin && n.arg == S9.arg && n.returned == S9.returned && n.final == S9.final;
  }

  lemma ReturnedTooEnabled()
    ensures Enabled(S9, ReturnValue(0, 8, 9, 9)) && Top(S9, 0) == Some(Exec(2, false, None))
  {
  }

  lemma ReturnedTooHeap()
    ensures PlainReturn(S9, 2, 8, 1).heap == S10.heap
  {
    assert PlainReturn(S9, 2, 8, 1).heap.Keys == S10.heap.Keys;
  }

  lemma ReturnedTooResult()
    ensures PlainReturn(S9, 2, 8, 1) == S10
  {
    ReturnedTooHeap();
    var n := PlainReturn(S9, 2, 8, 1);
    assert n.stacks[0] == S10.stacks[0];
    assert n.final == S10.final && n.returned == S10.returned;
    assert n.syncDependents == S10.syncDependents && n.active == S10.active && n.stacks == S10.stacks && n.calls == S10.calls;
  }

  lemma ReturnedToo()
    requires Inv(S9, Tight)
    ensures Enabled(S9, Acts[9]) && Next(S9, Acts[9]) == S10
  {
    hide Inv, Next, ReturnValueStep, PlainReturn, Enabled;
    ReturnedTooEnabled();
    NextReturns(S9, 2, 8, 9, 9);
    ReturnsPlainly(S9, 2, 8, 1);
    ReturnedTooResult();
  }

  lemma Left()
    requires Inv(S10, Tight)
    ensures Enabled(S10, Acts[10]) && Next(S10, Acts[10]) == S11
  {
    hide Inv;
    var n := Next(S10, Acts[10]);
    assert n.stacks[0] == S11.stacks[0];
    assert n.heap == S11.heap;
    assert n.syncDependents == S11.syncDependents && n.syncRegistered == S11.syncRegistered && n.queued == S11.queued;
    assert n.active == S11.active && n.stacks == S11.stacks && n.calls == S11.calls;
    assert n.origin == S11.origin && n.arg == S11.arg && n.returned == S11.returned && n.final == S11.final;
  }

  lemma Woke()
    requires Inv(S11, Tight)
    ensures Enabled(S11, Acts[11]) && Next(S11, Acts[11]) == S12
  {
    hide Inv;
    var n := Next(S11, Acts[11]);
    assert n.stacks[0] == S12.stacks[0];
    assert n.heap == S12.heap;
    assert n.syncDependents == S12.syncDependents && n.syncRegistered == S12.syncRegistered && n.queued == S12.queued;
    assert n.active == S12.active && n.stacks == S12.stacks && n.calls == S12.calls;
    assert n.origin == S12.origin && n.arg == S12.arg && n.returned == S12.returned && n.final == S12.final;
  }

  lemma StartedEarly()
    requires Inv(S12, Tight)
    ensures Enabled(S12, Acts[12]) && Next(S12, Acts[12]) == S13
  {
    hide Inv;
    var n := Next(S12, Acts[12]);
    assert n.stacks[0] == S13.stacks[0];
    assert n.heap == S13.heap;
    assert n.syncDependents == S13.syncDependents && n.syncRegistered == S13.syncRegistered && n.queued == S13.queued;
    assert n.active == S13.active && n.stacks == S13.stacks && n.calls == S13.calls;
    assert n.origin == S13.origin && n.arg == S13.arg && n.returned == S13.returned && n.final == S13.final;
  }

  lemma FirstSteps()
    ensures After(Acts[..6]) == Some(S6) && Inv(S6, Tight)
  {
    hide Next, Enabled, Inv;
    assert After([]) == Some(Init);
    Spawned(); Extend(Acts[..0], Init, Acts[0], S1); assert Acts[..0] + [Acts[0]] == Acts[..1];
    Mapped(); Extend(Acts[..1], S1, Acts[1], S2); assert Acts[..1] + [Acts[1]] == Acts[..2];
    Started(); Extend(Acts[..2], S2, Acts[2], S3); assert Acts[..2] + [Acts[2]] == Acts[..3];
    Returned(); Extend(Acts[..3], S3, Acts[3], S4); assert Acts[..3] + [Acts[3]] == Acts[..4];
    Reached(); Extend(Acts[..4], S4, Acts[4], S5); assert Acts[..4] + [Acts[4]] == Acts[..5];
    Freed(); Extend(Acts[..5], S5, Acts[5], S6); assert Acts[..5] + [Acts[5]] == Acts[..6];
  }

  lemma LastSteps()
    requires After(Acts[..6]) == Some(S6) && Inv(S6, Tight)
    ensures After(Acts[..13]) == Some(S13)
  {
    hide Next, Enabled, Inv, After;
    Promised(); Extend(Acts[..6], S6, Acts[6], S7); assert Acts[..6] + [Acts[6]] == Acts[..7];
    Referred(); Extend(Acts[..7], S7, Acts[7], S8); assert Acts[..7] + [Acts[7]] == Acts[..8];
    MappedAgain(); Extend(Acts[..8], S8, Acts[8], S9); assert Acts[..8] + [Acts[8]] == Acts[..9];
    ReturnedToo(); Extend(Acts[..9], S9, Acts[9], S10); assert Acts[..9] + [Acts[9]] == Acts[..10];
    Left(); Extend(Acts[..10], S10, Acts[10], S11); assert Acts[..10] + [Acts[10]] == Acts[..11];
    Woke(); Extend(Acts[..11], S11, Acts[11], S12); assert Acts[..11] + [Acts[11]] == Acts[..12];
    StartedEarly(); Extend(Acts[..12], S12, Acts[12], S13); assert Acts[..12] + [Acts[12]] == Acts[..13];
  }

  /** Thirteen steps reach a state in which a map was started whose source is live and has no value. */
  lemma ReuseStartsEarly()
    ensures |Acts| == 13 && After(Acts) == Some(S13)
    ensures exists t :: t in S13.calls && !S13.calls[t].called && S13.calls[t].closure.MapFn?
              && S13.calls[t].closure.src in S13.heap && S13.heap[S13.calls[t].closure.src].value.None?
  {
    hide Next, Enabled, Inv, After;
    FirstSteps();
    LastSteps();
    assert Acts[..13] == Acts;
    assert 3 in S13.calls;
  }
}
