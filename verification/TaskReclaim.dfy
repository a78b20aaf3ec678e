/** Releasing references: deactivate_task and what it releases in turn keep the
    invariant, and never free a task that something still holds. */
module TaskReclaim {
  import opened Wrappers
  import opened TaskMachine
  import opened TaskInvariant
  import opened TaskFrames

  function Reclaim(s: State, t: Addr): State
    requires t in s.heap
  {
    Free(Forget(s, t), t)
  }

  // `t` may go: nothing refers to it and it is not running.
  predicate Dead(s: State, t: Addr) {
    t in s.heap && s.heap[t].owners == {} && !s.heap[t].Running()
  }

  function Opt(d: Option<Addr>): set<Addr> {
    if d.Some? then {d.value} else {}
  }

  // `s'` is `s` without `t`: at most one other task changes, by an owner.
  ghost predicate Without(s: State, s': State, t: Addr)
    requires t in s.heap
  {
    var d := s.heap[t].Held();
    && SameStacks(s, s') && SameRecord(s, s')
    && s'.queued == s.queued - {t} && s'.syncRegistered == s.syncRegistered - {t}
    && s'.syncDependents == s.syncDependents - {t}
    && (forall a :: a in s'.heap <==> a in s.heap && a != t)
    && (d.Some? ==> d.value in s'.heap)
    && (forall a :: a in s'.heap ==>
          if d == Some(a) then s'.heap[a] == s.heap[a].Remove(HeldBy(t)) else s'.heap[a] == s.heap[a])
  }

  lemma ReclaimIsWithout(s: State, t: Addr)
    requires HeldOk(s) && Dead(s, t)
    ensures Without(s, Reclaim(s, t), t)
  {
    hide HeldOk, Holds, FreeTask;
    DeadHeld(s, t);
    FreedHeap(s.heap, t);
    assert Reclaim(s, t).heap == FreeTask(s.heap, t);
  }

  lemma DeadHeld(s: State, t: Addr)
    requires HeldOk(s) && Dead(s, t)
    ensures s.heap[t].Held().Some? ==> s.heap[t].Held().value in s.heap && s.heap[t].Held().value != t
  {
    assert HeldBy(t) !in s.heap[t].owners;
    assert s.heap[t].Held().Some? ==> Holds(s, t) == s.heap[t].Held();
  }

  // The storage goes, and the reference that its closure had.
  lemma FreedHeap(heap: map<Addr, Task>, t: Addr)
    requires t in heap
    ensures var d := heap[t].Held();
            && (forall a :: a in FreeTask(heap, t) <==> a in heap && a != t)
            && (forall a :: a in FreeTask(heap, t) ==>
                  if d == Some(a) then FreeTask(heap, t)[a] == heap[a].Remove(HeldBy(t)) else FreeTask(heap, t)[a] == heap[a])
  {
  }

  lemma WithoutHolds(s: State, s': State, t: Addr, dying: set<Addr>)
    requires Shape(s, dying) && HeldOk(s) && Dead(s, t) && Without(s, s', t)
    ensures forall a :: Holds(s', a) == if a == t then None else Holds(s, a)
    ensures forall a :: Holds(s, a) != Some(t)
  {
    assert ShapeAt(s, dying, t);
    forall a
      ensures Holds(s', a) == (if a == t then None else Holds(s, a)) && Holds(s, a) != Some(t)
    {
      assert HeldBy(a) !in s.heap[t].owners;
    }
  }

  lemma WithoutShape(s: State, s': State, t: Addr, dying: set<Addr>)
    requires Shape(s, dying) && Dead(s, t) && Without(s, s', t)
    ensures Shape(s', dying - {t} + Opt(s.heap[t].Held()))
  {
    forall a | a in s'.heap
      ensures ShapeAt(s', dying - {t} + Opt(s.heap[t].Held()), a)
    {
      assert ShapeAt(s, dying, a);
    }
    forall a | a in s'.calls
      ensures a in s'.heap
    {
      assert ShapeAt(s, dying, t);
    }
  }

  lemma WithoutHeld(s: State, s': State, t: Addr, dying: set<Addr>)
    requires Shape(s, dying) && HeldOk(s) && Dead(s, t) && Without(s, s', t)
    ensures HeldOk(s')
  {
    WithoutHolds(s, s', t, dying);
    assert ShapeAt(s, dying, t) && (Holds(s, t) == s.heap[t].Held());
    hide Holds, Shape;
    forall a, b | b in s'.heap
      ensures HeldBy(a) in s'.heap[b].owners <==> Holds(s', a) == Some(b)
    {
      assert HeldBy(a) in s.heap[b].owners <==> Holds(s, a) == Some(b);
    }
  }

  lemma WithoutKeep(s: State, s': State, t: Addr)
    requires Dead(s, t) && KeepOk(s) && Without(s, s', t)
    ensures KeepOk(s')
  {
    forall a, f, i | a in s'.heap
      ensures Frame(f, i) in s'.heap[a].owners <==> Keeps(s', f, i, a)
    {
      assert Frame(f, i) in s.heap[a].owners <==> Keeps(s, f, i, a);
    }
    forall a | a in s'.heap
      ensures (Scheduled in s'.heap[a].owners <==> s'.heap[a].Closure().Some? && s'.heap[a].imp.value.keepAlive)
      ensures Promise in s'.heap[a].owners ==> s'.heap[a].Closure().None? && !s'.heap[a].Running()
    {
      assert s'.heap[a].imp == s.heap[a].imp;
    }
    forall a, f, i | Keeps(s', f, i, a)
      ensures a in s'.heap
    {
      assert Keeps(s, f, i, a);
      assert a in s.heap && (Frame(f, i) in s.heap[a].owners <==> Keeps(s, f, i, a));
    }
  }

  lemma WithoutStacks(s: State, s': State, t: Addr, dying: set<Addr>)
    requires Shape(s, dying) && Dead(s, t) && StacksOk(s) && Without(s, s', t)
    ensures StacksOk(s')
  {
    hide StacksOk;
    forall a | a in s.calls && a in s.heap && s.heap[a].imp.Some?
      ensures SameKeepAlive(s, s', a)
    {
      assert ShapeAt(s, dying, a);
    }
    StacksFrame(s, s');
  }

  lemma WithoutWaits(s: State, s': State, t: Addr)
    requires WaitsOk(s) && Dead(s, t) && Without(s, s', t)
    ensures WaitsOk(s')
  {
    forall a | a in s'.heap
      ensures s'.heap[a].imp == s.heap[a].imp && s'.heap[a].value == s.heap[a].value
    {
    }
  }

  lemma WithoutProgress(s: State, s': State, t: Addr, dying: set<Addr>, idle: set<Addr>)
    requires Shape(s, dying) && HeldOk(s) && Dead(s, t) && WaitsOk(s) && ProgressOk(s, idle) && Without(s, s', t)
    ensures ProgressOk(s', idle - {t})
  {
    WithoutHolds(s, s', t, dying);
    SameLoops(s, s');
    hide Shape, HeldOk, InLoop, Resolving;
    forall a | a in s'.heap && s'.heap[a].Closure().Some? && a !in idle - {t}
      ensures ProgressAt(s', a)
    {
      assert s'.heap[a].imp == s.heap[a].imp;
      assert ProgressAt(s, a);
      assert Holds(s, a) == s.heap[a].Held() != Some(t);
    }
  }

  function After(loose: Loose, t: Addr): Loose {
    if loose.Firm? || loose.task == t then Firm else loose
  }

  lemma WithoutMeaning(s: State, s': State, t: Addr, dying: set<Addr>, loose: Loose)
    requires Shape(s, dying) && HeldOk(s) && Dead(s, t) && MeaningOk(s, loose) && Without(s, s', t)
    ensures MeaningOk(s', After(loose, t))
  {
    WithoutHolds(s, s', t, dying);
    forall a | a in s'.heap
      ensures SameTask(s, s', a) && (Needs(s, a).Some? ==> Needs(s, a).value in s'.heap)
    {
      assert ShapeAt(s, dying, a);
      assert Holds(s, a) == Needs(s, a);
    }
    hide Without, Shape;
    MeaningFrame(s, s', loose);
    LooseGone(s', loose, t);
  }

  lemma LooseGone(s: State, loose: Loose, t: Addr)
    requires MeaningOk(s, loose) && t !in s.heap
    ensures MeaningOk(s, After(loose, t))
  {
    forall a, u | a in s.heap && u in s.heap[a].standsFor
      ensures MeansAt(s, After(loose, t), a, u)
    {
      assert MeansAt(s, loose, a, u);
    }
    forall a | a in s.heap && Work(s, a).Some?
      ensures WorkAt(s, After(loose, t), a)
    {
      assert WorkAt(s, loose, a);
    }
  }

  lemma ReclaimInv(s: State, t: Addr, x: Slack)
    requires Inv(s, x) && Dead(s, t)
    ensures Inv(Reclaim(s, t), Slack(x.dying - {t} + Opt(s.heap[t].Held()), x.idle - {t}, After(x.loose, t)))
  {
    var s' := Reclaim(s, t);
    hide Shape, HeldOk, KeepOk, StacksOk, WaitsOk, ProgressOk, HistoryOk, MeaningOk;
    ReclaimIsWithout(s, t);
    WithoutShape(s, s', t, x.dying);
    WithoutHeld(s, s', t, x.dying);
    WithoutKeep(s, s', t);
    WithoutStacks(s, s', t, x.dying);
    WithoutWaits(s, s', t);
    WithoutProgress(s, s', t, x.dying, x.idle);
    SameHistory(s, s');
    WithoutMeaning(s, s', t, x.dying, x.loose);
  }

  // A running task whose references are all gone is only marked.
  function Marked(s: State, t: Addr): State
    requires t in s.heap && s.heap[t].imp.Some?
  {
    var s1 := Forget(s, t);
    s1.(heap := s1.heap[t := s1.heap[t].(imp := Some(s1.heap[t].imp.value.(deleted := true)))])
  }

  lemma MarkedInv(s: State, t: Addr, x: Slack)
    requires Inv(s, x) && t in s.heap && s.heap[t].owners == {} && s.heap[t].Running() && !s.heap[t].Deleted()
    ensures Inv(Marked(s, t), x.(dying := x.dying - {t}))
  {
    var s' := Marked(s, t);
    hide Shape, HeldOk, KeepOk, StacksOk, WaitsOk, ProgressOk, HistoryOk, MeaningOk;
    MarkedShape(s, t, x.dying);
    MarkedHeld(s, t);
    MarkedWaits(s, t, x.dying);
    MarkedProgress(s, t, x.dying, x.idle);
    MarkedKeep(s, t);
    MarkedStacks(s, t);
    SameHistory(s, s');
    MarkedMeaning(s, t, x.dying, x.loose);
  }

  predicate Unheld(s: State, t: Addr) {
    t in s.heap && s.heap[t].owners == {} && s.heap[t].Running()
  }

  lemma MarkedShape(s: State, t: Addr, dying: set<Addr>)
    requires Shape(s, dying) && KeepOk(s) && StacksOk(s) && Unheld(s, t)
    ensures Shape(Marked(s, t), dying - {t})
  {
    hide Current;
    assert ShapeAt(s, dying, t);
    var c := s.calls[t];
    assert ExecAt(s, c.fiber, c.depth);
    assert s.heap[t].imp.value.keepAlive ==> Keeps(s, c.fiber, c.depth, t);
    assert Frame(c.fiber, c.depth) !in s.heap[t].owners;
    hide KeepOk, StacksOk;
    var s' := Marked(s, t);
    forall a | a in s'.heap
      ensures ShapeAt(s', dying - {t}, a)
    {
      assert ShapeAt(s, dying, a);
    }
  }

  lemma MarkedHeld(s: State, t: Addr)
    requires HeldOk(s) && Unheld(s, t)
    ensures HeldOk(Marked(s, t))
  {
    var s' := Marked(s, t);
    forall a
      ensures Holds(s', a) == Holds(s, a)
    {
    }
    hide Holds;
  }

  lemma MarkedKeep(s: State, t: Addr)
    requires KeepOk(s) && Unheld(s, t)
    ensures KeepOk(Marked(s, t))
  {
    var s' := Marked(s, t);
    forall a, f, i
      ensures Keeps(s', f, i, a) <==> Keeps(s, f, i, a)
    {
    }
    hide Keeps;
  }

  lemma MarkedStacks(s: State, t: Addr)
    requires StacksOk(s) && Unheld(s, t)
    ensures StacksOk(Marked(s, t))
  {
    hide StacksOk;
    StacksFrame(s, Marked(s, t));
  }

  lemma MarkedWaits(s: State, t: Addr, dying: set<Addr>)
    requires Shape(s, dying) && WaitsOk(s) && Unheld(s, t)
    ensures WaitsOk(Marked(s, t))
  {
    assert ShapeAt(s, dying, t);
  }

  lemma MarkedProgress(s: State, t: Addr, dying: set<Addr>, idle: set<Addr>)
    requires Shape(s, dying) && HeldOk(s) && WaitsOk(s) && ProgressOk(s, idle) && Unheld(s, t)
    ensures ProgressOk(Marked(s, t), idle)
  {
    var s' := Marked(s, t);
    SameLoops(s, s');
    assert ShapeAt(s, dying, t);
    hide Shape, InLoop, Resolving;
    forall a | a in s'.heap && s'.heap[a].Closure().Some? && a !in idle
      ensures ProgressAt(s', a)
    {
      assert a != t && s'.heap[a] == s.heap[a];
      assert ProgressAt(s, a);
      assert Holds(s, a) == s.heap[a].Held();
      assert HeldBy(a) !in s.heap[t].owners;
    }
  }

  lemma MarkedMeaning(s: State, t: Addr, dying: set<Addr>, loose: Loose)
    requires Shape(s, dying) && HeldOk(s) && MeaningOk(s, loose) && Unheld(s, t)
    ensures MeaningOk(Marked(s, t), loose)
  {
    var s' := Marked(s, t);
    forall a | a in s'.heap
      ensures SameTask(s, s', a) && (Needs(s, a).Some? ==> Needs(s, a).value in s'.heap)
    {
      assert ShapeAt(s, dying, a);
      assert Holds(s, a) == Needs(s, a);
    }
    hide Shape;
    MeaningFrame(s, s', loose);
  }

  // ---- Cascades ----

  lemma DeadHolds(s: State, t: Addr, x: Slack)
    requires Inv(s, x) && t in s.heap && Holds(s, t).Some?
    ensures Holds(s, t).value in s.heap && HeldBy(t) in s.heap[Holds(s, t).value].owners
    ensures ShapeAt(s, x.dying, Holds(s, t).value)
  {
  }

  predicate Busy(s: State, t: Addr) {
    t in s.heap && s.heap[t].Running()
  }

  // The last reference of `t` is gone (or it was deleted while running, and has stopped).
  lemma {:induction false} DeactivateInv(s: State, t: Addr, x: Slack)
    requires Inv(s, x) && t in s.heap && s.heap[t].owners == {} && x.dying == {t} && x.idle <= {t}
    requires s.heap[t].Deleted() ==> !s.heap[t].Running()
    requires x.loose.Firm? || x.loose.task == t || Busy(s, x.loose.task)
    ensures !s.heap[t].Running() ==> Inv(Deactivate(s, t), Slack({}, {}, After(x.loose, t)))
    ensures s.heap[t].Running() ==> Inv(Deactivate(s, t), x.(dying := {}))
    decreases |s.heap|, 0
  {
    hide Shape, HeldOk, KeepOk, StacksOk, WaitsOk, ProgressOk, HistoryOk, MeaningOk;
    if s.heap[t].Running() {
      MarkedInv(s, t, x);
      assert Deactivate(s, t) == Marked(s, t);
    } else {
      var s2 := Reclaim(s, t);
      FreeShrinks(Forget(s, t), t);
      ReclaimInv(s, t, x);
      ReclaimIsWithout(s, t);
      var d := s.heap[t].Held();
      assert x.idle - {t} == {};
      if d.Some? {
        assert HeldBy(t) in s.heap[d.value].owners && ShapeAt(s, x.dying, d.value) by {
          assert s.heap[t].Closure().Some? && Holds(s, t) == d;
          DeadHolds(s, t, x);
        }
        assert {d.value} == x.dying - {t} + Opt(d);
        CollectInv(s2, d.value, Slack({d.value}, {}, After(x.loose, t)));
      }
    }
  }

  lemma {:induction false} CollectInv(s: State, t: Addr, x: Slack)
    requires Inv(s, x) && t in s.heap && x.dying == {t} && x.idle == {}
    requires s.heap[t].Deleted() ==> s.heap[t].Running()
    requires x.loose.Firm? || Busy(s, x.loose.task)
    ensures Inv(Collect(s, t), x.(dying := {}))
    decreases |s.heap|, 1
  {
    if s.heap[t].owners == {} && !s.heap[t].Deleted() {
      DeactivateInv(s, t, x);
    } else {
      hide HeldOk, KeepOk, StacksOk, WaitsOk, ProgressOk, HistoryOk, MeaningOk;
      assert Shape(s, {}) by {
        forall a | a in s.heap
          ensures ShapeAt(s, {}, a)
        {
          assert ShapeAt(s, {t}, a);
        }
      }
    }
  }
}
