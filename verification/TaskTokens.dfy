/** References that user code, promises and C frames take and drop. */
module TaskTokens {
  import opened Wrappers
  import opened TaskMachine
  import opened TaskInvariant
  import opened TaskFrames
  import opened TaskPreserve
  import opened TaskSettle

  function Dying(s: State, t: Addr): set<Addr> {
    if t in s.heap && s.heap[t].owners == {} then {t} else {}
  }

  // Only references of user code and of promises change on `t`.
  ghost predicate Retokens(s: State, s': State, t: Addr) {
    && t in s.heap && t in s'.heap
    && SameStacks(s, s') && SameRecord(s, s')
    && s'.queued == s.queued && s'.syncRegistered == s.syncRegistered && s'.syncDependents == s.syncDependents
    && s'.heap == s.heap[t := s'.heap[t]]
    && s'.heap[t] == s.heap[t].(owners := s'.heap[t].owners)
    && (forall w: Owner :: !w.Ext? && w != Promise ==> (w in s'.heap[t].owners <==> w in s.heap[t].owners))
    && (Promise in s'.heap[t].owners ==> Promise in s.heap[t].owners)
    && s.heap[t].owners != {}
  }

  lemma RetokenInv(s: State, s': State, t: Addr, loose: Loose)
    requires Inv(s, Slack({}, {}, loose)) && Retokens(s, s', t)
    ensures Inv(s', Slack(Dying(s', t), {}, loose))
  {
    hide HeldOk, KeepOk, StacksOk, WaitsOk, ProgressOk, HistoryOk, MeaningOk;
    forall a | a in s'.heap
      ensures ShapeAt(s', Dying(s', t), a)
    {
      assert ShapeAt(s, {}, a);
    }
    hide Shape;
    RetokenHeld(s, s', t);
    RetokenKeep(s, s', t);
    RetokenRest(s, s', t, loose);
  }

  lemma RetokenHeld(s: State, s': State, t: Addr)
    requires HeldOk(s) && Retokens(s, s', t)
    ensures HeldOk(s')
  {
    forall a
      ensures Holds(s', a) == Holds(s, a)
    {
    }
    hide Holds;
  }

  lemma RetokenKeep(s: State, s': State, t: Addr)
    requires KeepOk(s) && Retokens(s, s', t)
    ensures KeepOk(s')
  {
    forall a, g, i
      ensures Keeps(s', g, i, a) <==> Keeps(s, g, i, a)
    {
    }
    hide Keeps;
  }

  lemma RetokenRest(s: State, s': State, t: Addr, loose: Loose)
    requires Shape(s, {}) && HeldOk(s) && StacksOk(s) && WaitsOk(s) && ProgressOk(s, {}) && HistoryOk(s) && MeaningOk(s, loose) && Retokens(s, s', t)
    ensures StacksOk(s') && WaitsOk(s') && ProgressOk(s', {}) && HistoryOk(s') && MeaningOk(s', loose)
  {
    hide StacksOk, HistoryOk, MeaningOk, WaitsOk, ProgressOk;
    StacksFrame(s, s');
    SameHistory(s, s');
    RetokenMeaning(s, s', t, loose);
    hide HeldOk, Shape;
    RetokenWaits(s, s', t);
  }

  lemma RetokenMeaning(s: State, s': State, t: Addr, loose: Loose)
    requires Shape(s, {}) && HeldOk(s) && MeaningOk(s, loose) && Retokens(s, s', t)
    ensures MeaningOk(s', loose)
  {
    hide MeaningOk;
    forall a | a in s.heap
      ensures SameTask(s, s', a) && (Needs(s, a).Some? ==> Needs(s, a).value in s'.heap)
    {
      assert ShapeAt(s, {}, a);
      assert Holds(s, a) == Needs(s, a);
    }
    hide Shape, HeldOk;
    MeaningFrame(s, s', loose);
  }

  lemma RetokenWaits(s: State, s': State, t: Addr)
    requires WaitsOk(s) && ProgressOk(s, {}) && Retokens(s, s', t)
    ensures WaitsOk(s') && ProgressOk(s', {})
  {
    forall a | a in s.heap
      ensures a in s'.heap && s'.heap[a].imp == s.heap[a].imp && s'.heap[a].value == s.heap[a].value
    {
    }
    SameLoops(s, s');
    hide InLoop, Resolving;
    forall a | a in s'.heap && s'.heap[a].Closure().Some?
      ensures ProgressAt(s', a)
    {
      assert ProgressAt(s, a);
    }
  }

  // ---- lean_task_get_own: the source's reference goes ----

  ghost predicate Takes(s: State, s': State, t: Addr)
    requires t in s.calls && !s.calls[t].closure.Call?
  {
    var d := s.calls[t].closure.src;
    && d in s.heap && s'.stacks == s.stacks && s'.active == s.active && SameRecord(s, s')
    && s'.queued == s.queued && s'.syncRegistered == s.syncRegistered && s'.syncDependents == s.syncDependents
    && s'.calls == s.calls[t := s.calls[t].(called := true)]
    && s'.heap == s.heap[d := s.heap[d].Remove(HeldBy(t))]
  }

  predicate Getting(s: State, t: Addr) {
    t in s.heap && t in s.calls && !s.calls[t].called && !s.calls[t].closure.Call?
  }

  lemma TakeShape(s: State, s': State, t: Addr)
    requires Shape(s, {}) && HeldOk(s) && Getting(s, t) && Takes(s, s', t)
    ensures Shape(s', Dying(s', s.calls[t].closure.src))
  {
    var d := s.calls[t].closure.src;
    assert ShapeAt(s, {}, t);
    assert Holds(s, t) == Some(d);
    forall a | a in s'.heap
      ensures ShapeAt(s', Dying(s', d), a)
    {
      assert ShapeAt(s, {}, a);
    }
  }

  lemma TakeHeld(s: State, s': State, t: Addr)
    requires Shape(s, {}) && HeldOk(s) && Getting(s, t) && Takes(s, s', t)
    ensures HeldOk(s')
  {
    assert ShapeAt(s, {}, t);
    forall a
      ensures Holds(s', a) == if a == t then None else Holds(s, a)
    {
    }
    assert Holds(s, t) == Some(s.calls[t].closure.src);
    hide Holds, Shape;
    forall b, c | b in s'.heap
      ensures HeldBy(c) in s'.heap[b].owners <==> Holds(s', c) == Some(b)
    {
      assert HeldBy(c) in s.heap[b].owners <==> Holds(s, c) == Some(b);
    }
  }

  lemma TakeKeep(s: State, s': State, t: Addr)
    requires KeepOk(s) && Getting(s, t) && Takes(s, s', t)
    ensures KeepOk(s')
  {
    forall a, g, i
      ensures Keeps(s', g, i, a) <==> Keeps(s, g, i, a)
    {
    }
    hide Keeps;
    forall b, f, i | b in s'.heap
      ensures Frame(f, i) in s'.heap[b].owners <==> Keeps(s', f, i, b)
    {
      assert Frame(f, i) in s.heap[b].owners <==> Keeps(s, f, i, b);
    }
    forall a | a in s'.heap
      ensures s'.heap[a].imp == s.heap[a].imp
    {
    }
  }

  lemma TakeStacks(s: State, s': State, t: Addr)
    requires StacksOk(s) && Getting(s, t) && Takes(s, s', t)
    ensures StacksOk(s')
  {
    hide Current;
    forall g: Fiber
      ensures Stack(s', g) == Stack(s, g) && CurrentTask(s', g) == CurrentTask(s, g)
    {
    }
    forall g, i: int | 0 <= i < |Stack(s', g)| && Stack(s', g)[i].Exec?
      ensures ExecAt(s', g, i)
    {
      assert ExecAt(s, g, i);
    }
  }

  lemma TakeRest(s: State, s': State, t: Addr)
    requires WaitsOk(s) && ProgressOk(s, {}) && HistoryOk(s) && Getting(s, t) && Takes(s, s', t)
    ensures WaitsOk(s') && ProgressOk(s', {}) && HistoryOk(s')
  {
    SameHistory(s, s');
    forall a | a in s.heap
      ensures a in s'.heap && s'.heap[a].imp == s.heap[a].imp && s'.heap[a].value == s.heap[a].value
    {
    }
    SameLoops(s, s');
    hide InLoop, Resolving, HistoryOk;
    forall a | a in s'.heap && s'.heap[a].Closure().Some?
      ensures ProgressAt(s', a)
    {
      assert ProgressAt(s, a);
    }
  }

  // task_bind_result: everything the task stands for is about to have the source's value.
  lemma TakeResultMeaning(s: State, s': State, t: Addr, v: Value)
    requires Shape(s, {}) && HeldOk(s) && MeaningOk(s, Firm) && Getting(s, t) && Takes(s, s', t)
    requires s.calls[t].closure.BindResult? && s.heap[s.calls[t].closure.src].value == Some(v) && s.heap[t].value.None?
    ensures MeaningOk(s', Settling(t, v))
  {
    var d := s.calls[t].closure.src;
    assert ShapeAt(s, {}, t);
    forall a | a in s.heap && a != t
      ensures SameTask(s, s', a) && (Needs(s, a).Some? ==> NeededAt(s, s', Needs(s, a).value))
    {
      assert ShapeAt(s, {}, a);
      assert Holds(s, a) == Needs(s, a);
    }
    assert MeansAt(s, Firm, d, s.heap[d].uid) && WorkAt(s, Firm, t);
    forall u | u in s'.heap[t].standsFor
      ensures MeansAt(s', Settling(t, v), t, u)
    {
      assert MeansAt(s, Firm, t, u);
    }
    hide Shape, HeldOk;
    MeaningExcept(s, s', Firm, Settling(t, v), t);
  }

  lemma TakeResultInv(s: State, s': State, t: Addr, v: Value)
    requires Inv(s, Tight) && Getting(s, t) && Takes(s, s', t) && s.heap[t].value.None?
    requires s.calls[t].closure.BindResult? && s.heap[s.calls[t].closure.src].value == Some(v)
    ensures Inv(s', Slack(Dying(s', s.calls[t].closure.src), {}, Settling(t, v)))
  {
    hide Shape, HeldOk, KeepOk, StacksOk, WaitsOk, ProgressOk, HistoryOk, MeaningOk, Takes, Getting;
    TakeShape(s, s', t);
    TakeHeld(s, s', t);
    TakeKeep(s, s', t);
    TakeStacks(s, s', t);
    TakeRest(s, s', t);
    TakeResultMeaning(s, s', t, v);
  }

  // The function is applied to the source's value: the history records it.
  ghost predicate Applies(s: State, s': State, u: Uid, v: Value) {
    && s'.heap == s.heap && s'.stacks == s.stacks && s'.active == s.active && s'.calls == s.calls
    && s'.queued == s.queued && s'.syncRegistered == s.syncRegistered && s'.syncDependents == s.syncDependents
    && s'.next == s.next && s'.origin == s.origin && s'.returned == s.returned && s'.final == s.final
    && s'.arg == s.arg[u := v] && s'.applied == s.applied + [u]
  }

  // Both at once, for task_map_fn and task_bind_fn.
  ghost predicate TakesArgument(s: State, s': State, t: Addr)
    requires t in s.calls && (s.calls[t].closure.MapFn? || s.calls[t].closure.BindFn?)
  {
    var c := s.calls[t].closure;
    && c.src in s.heap && s.heap[c.src].value.Some?
    && Takes(s, s'.(arg := s.arg, applied := s.applied), t)
    && s'.arg == s.arg[c.fn := s.heap[c.src].value.value] && s'.applied == s.applied + [c.fn]
  }

  lemma TakeArgumentHistory(s: State, s': State, t: Addr)
    requires Shape(s, {}) && HistoryOk(s) && MeaningOk(s, Firm) && Getting(s, t)
    requires !s.calls[t].closure.BindResult? && TakesArgument(s, s', t)
    ensures HistoryOk(s')
  {
    var u := s.calls[t].closure.fn;
    assert ShapeAt(s, {}, t) && WorkAt(s, Firm, t);
    assert MeansAt(s, Firm, t, u);
    hide Shape, MeaningOk;
    assert u !in s.final && u !in s.applied;
    forall g, i: int | 0 <= i < |Stack(s', g)|
      ensures FastAt(s', Stack(s', g)[i])
    {
      assert FastAt(s, Stack(s, g)[i]);
    }
    forall i, j | 0 <= i < j < |s'.applied|
      ensures s'.applied[i] != s'.applied[j]
    {
      if j == |s.applied| {
        assert s'.applied[i] in s.applied;
      }
    }
    HistoryGrows(s, s');
  }

  lemma TakeArgumentMeaning(s: State, s': State, t: Addr)
    requires Shape(s, {}) && HeldOk(s) && HistoryOk(s) && MeaningOk(s, Firm) && Getting(s, t) && s.heap[t].value.None?
    requires !s.calls[t].closure.BindResult? && TakesArgument(s, s', t)
    ensures MeaningOk(s', Firm)
  {
    var c := s.calls[t].closure;
    var d, u := c.src, c.fn;
    assert ShapeAt(s, {}, t) && WorkAt(s, Firm, t);
    assert MeansAt(s, Firm, t, u);
    forall a | a in s.heap && a != t
      ensures SameTask(s, s', a) && (Needs(s, a).Some? ==> NeededAt(s, s', Needs(s, a).value))
      ensures forall w :: w in s.heap[a].standsFor ==> w != u && AgreesAt(s, s', w)
    {
      assert ShapeAt(s, {}, a);
      assert Holds(s, a) == Needs(s, a);
    }
    assert MeansAt(s, Firm, d, s.heap[d].uid);
    hide HeldOk, Shape;
    forall w | w in s'.heap[t].standsFor
      ensures MeansAt(s', Firm, t, w)
    {
      assert MeansAt(s, Firm, t, w);
    }
    assert MeansHere(s', Firm, t);
    MeaningExcept(s, s', Firm, Firm, t);
  }

  lemma TakeArgumentInv(s: State, s': State, t: Addr)
    requires Inv(s, Tight) && Getting(s, t) && s.heap[t].value.None?
    requires !s.calls[t].closure.BindResult? && TakesArgument(s, s', t)
    ensures Inv(s', Slack(Dying(s', s.calls[t].closure.src), {}, Firm))
  {
    var d := s.calls[t].closure.src;
    hide Shape, HeldOk, KeepOk, StacksOk, WaitsOk, ProgressOk, HistoryOk, MeaningOk, Takes, Getting;
    var s1 := s'.(arg := s.arg, applied := s.applied);
    TakeShape(s, s1, t);
    TakeHeld(s, s1, t);
    TakeKeep(s, s1, t);
    TakeStacks(s, s1, t);
    TakeRest(s, s1, t);
    TakeArgumentHistory(s, s', t);
    TakeArgumentMeaning(s, s', t);
    RecordOnly(s1, s', Dying(s', d));
  }

  // The clauses about storage do not read the history.
  lemma RecordOnly(s: State, s': State, dying: set<Addr>)
    requires Shape(s, dying) && HeldOk(s) && KeepOk(s) && StacksOk(s) && WaitsOk(s) && ProgressOk(s, {})
    requires s'.heap == s.heap && s'.stacks == s.stacks && s'.active == s.active && s'.calls == s.calls
    requires s'.queued == s.queued && s'.syncRegistered == s.syncRegistered && s'.syncDependents == s.syncDependents
    ensures Shape(s', dying) && HeldOk(s') && KeepOk(s') && StacksOk(s') && WaitsOk(s') && ProgressOk(s', {})
  {
    hide StacksOk, HeldOk, KeepOk, WaitsOk;
    StacksFrame(s, s');
    SameLoops(s, s');
    hide InLoop, Resolving;
    forall a | a in s'.heap
      ensures ShapeAt(s', dying, a)
    {
      assert ShapeAt(s, dying, a);
    }
    forall a | a in s'.heap && s'.heap[a].Closure().Some?
      ensures ProgressAt(s', a)
    {
      assert ProgressAt(s, a);
    }
    RecordOnlyOwners(s, s');
  }

  lemma RecordOnlyOwners(s: State, s': State)
    requires HeldOk(s) && KeepOk(s) && WaitsOk(s)
    requires s'.heap == s.heap && s'.stacks == s.stacks && s'.active == s.active && s'.calls == s.calls
    requires s'.queued == s.queued && s'.syncRegistered == s.syncRegistered && s'.syncDependents == s.syncDependents
    ensures HeldOk(s') && KeepOk(s') && WaitsOk(s')
  {
    forall a
      ensures Holds(s', a) == Holds(s, a)
    {
    }
    forall a, g, i
      ensures Keeps(s', g, i, a) <==> Keeps(s, g, i, a)
    {
    }
    hide Holds, Keeps;
  }
}
