/** Frames that hold a reference, and the functions of synchronous maps and binds. */
module TaskEnds {
  import opened Wrappers
  import opened TaskMachine
  import opened TaskInvariant
  import opened TaskFrames
  import opened TaskPreserve
  import opened TaskSettle
  import opened TaskLoops
  import opened TaskTokens

  // Owners of one task change; everything the other clauses read stays.
  ghost predicate Reowned(s: State, s': State, t: Addr) {
    && t in s.heap && s'.heap.Keys == s.heap.Keys
    && (forall a :: a in s.heap && a != t ==> s'.heap[a] == s.heap[a])
    && s'.heap[t] == s.heap[t].(owners := s'.heap[t].owners)
    && s'.calls == s.calls && SameRecord(s, s')
    && s'.queued == s.queued && s'.syncRegistered == s.syncRegistered && s'.syncDependents == s.syncDependents
    && (forall c :: HeldBy(c) in s'.heap[t].owners <==> HeldBy(c) in s.heap[t].owners)
    && (Scheduled in s'.heap[t].owners <==> Scheduled in s.heap[t].owners)
    && (Promise in s'.heap[t].owners ==> Promise in s.heap[t].owners)
    && s.heap[t].owners != {}
  }

  lemma ReownedShape(s: State, s': State, t: Addr)
    requires Shape(s, {}) && Reowned(s, s', t)
    ensures Shape(s', Dying(s', t))
  {
    forall a | a in s'.heap
      ensures ShapeAt(s', Dying(s', t), a)
    {
      assert ShapeAt(s, {}, a);
    }
  }

  lemma ReownedHeld(s: State, s': State, t: Addr)
    requires HeldOk(s) && Reowned(s, s', t)
    ensures HeldOk(s')
  {
    forall a
      ensures Holds(s', a) == Holds(s, a)
    {
    }
    hide Holds;
  }

  lemma ReownedMeaning(s: State, s': State, t: Addr)
    requires Shape(s, {}) && HeldOk(s) && MeaningOk(s, Firm) && Reowned(s, s', t)
    ensures MeaningOk(s', Firm)
  {
    hide MeaningOk;
    forall a | a in s'.heap
      ensures SameTask(s, s', a) && (Needs(s, a).Some? ==> Needs(s, a).value in s'.heap)
    {
      assert ShapeAt(s, {}, a);
      assert Holds(s, a) == Needs(s, a);
    }
    MeaningFrame(s, s', Firm);
  }

  lemma ReownedWaits(s: State, s': State, t: Addr)
    requires WaitsOk(s) && Reowned(s, s', t)
    ensures WaitsOk(s')
  {
    forall a | a in s.heap
      ensures a in s'.heap && s'.heap[a].imp == s.heap[a].imp && s'.heap[a].value == s.heap[a].value
    {
    }
  }

  lemma ReownedProgress(s: State, s': State, t: Addr)
    requires ProgressOk(s, {}) && Reowned(s, s', t)
    requires forall d, a :: InLoop(s, d, a) ==> InLoop(s', d, a)
    requires forall d :: Resolving(s, d) ==> Resolving(s', d)
    ensures ProgressOk(s', {})
  {
    hide InLoop, Resolving;
    forall a | a in s'.heap && s'.heap[a].Closure().Some?
      ensures ProgressAt(s', a)
    {
      assert s'.heap[a].imp == s.heap[a].imp;
      assert ProgressAt(s, a);
      forall c | c in s.heap
        ensures s'.heap[c].value == s.heap[c].value
      {
      }
    }
  }

  lemma ReownedKeepAlive(s: State, s': State, t: Addr)
    requires Reowned(s, s', t)
    ensures forall a :: a in s.calls && a in s.heap && s.heap[a].imp.Some? ==> SameKeepAlive(s, s', a)
  {
    forall a | a in s.calls && a in s.heap && s.heap[a].imp.Some?
      ensures SameKeepAlive(s, s', a)
    {
      assert s'.heap[a].imp == s.heap[a].imp;
    }
  }

  // ---- A frame ends and gives up its reference ----

  ghost predicate TailEnds(s: State, s': State, f: Fiber) {
    && Top(s, f).Some? && Top(s, f).value.Tail?
    && var t := Top(s, f).value.task;
    && Swaps(s, s', f, None) && Reowned(s, s', t)
    && s'.heap[t].owners == s.heap[t].owners - {Frame(f, |Stack(s, f)| - 1)}
  }

  lemma TailKeep(s: State, s': State, f: Fiber)
    requires KeepOk(s) && TailEnds(s, s', f)
    ensures KeepOk(s')
  {
    var t, n := Top(s, f).value.task, |Stack(s, f)| - 1;
    SwapsStack(s, s', f, None);
    hide Swaps;
    forall a, g, i
      ensures Keeps(s', g, i, a) <==> Keeps(s, g, i, a) && !(g == f && i == n)
    {
    }
    assert Keeps(s, f, n, t) && forall a :: Keeps(s, f, n, a) ==> a == t;
    hide Keeps;
    forall b, g, i | b in s'.heap
      ensures Frame(g, i) in s'.heap[b].owners <==> Keeps(s', g, i, b)
    {
      assert Frame(g, i) in s.heap[b].owners <==> Keeps(s, g, i, b);
    }
    forall a | a in s'.heap
      ensures s'.heap[a].imp == s.heap[a].imp
    {
    }
  }

  lemma TailInv(s: State, s': State, f: Fiber)
    requires Inv(s, Tight) && TailEnds(s, s', f)
    ensures Inv(s', Slack(Dying(s', Top(s, f).value.task), {}, Firm))
  {
    var t := Top(s, f).value.task;
    hide Shape, HeldOk, KeepOk, StacksOk, WaitsOk, ProgressOk, HistoryOk, MeaningOk, Reowned;
    ReownedShape(s, s', t);
    ReownedHeld(s, s', t);
    TailKeep(s, s', f);
    ReownedKeepAlive(s, s', t);
    SwapStacks(s, s', f, None);
    ReownedWaits(s, s', t);
    TailLoops(s, s', f);
    ReownedProgress(s, s', t);
    ReownedRecord(s, s', t);
    SwapHistory(s, s', f, None);
    ReownedMeaning(s, s', t);
  }

  lemma ReownedRecord(s: State, s': State, t: Addr)
    requires Reowned(s, s', t)
    ensures SameRecord(s, s')
  {
  }

  lemma TailLoops(s: State, s': State, f: Fiber)
    requires Swaps(s, s', f, None) && !Top(s, f).value.Resolve?
    ensures forall d, a :: InLoop(s, d, a) ==> InLoop(s', d, a)
    ensures forall d :: Resolving(s, d) ==> Resolving(s', d)
  {
    SwapLoops(s, s', f, None);
    SwapsStack(s, s', f, None);
    var n := |Stack(s, f)| - 1;
    hide Swaps, InLoop, Resolving;
    forall d, a | InLoop(s, d, a)
      ensures InLoop(s', d, a)
    {
      assert !LoopAt(s, f, n, d, a);
    }
    forall d | Resolving(s, d)
      ensures Resolving(s', d)
    {
      assert !ResolvesAt(s, f, n, d);
    }
  }

  // ---- deactivate_promise: its frame takes over the promise's reference ----

  ghost predicate PromiseFrame(s: State, s': State, f: Fiber, p: Addr) {
    && Pushes(s, s', f, Tail(p)) && Reowned(s, s', p)
    && s'.heap[p].owners == s.heap[p].owners - {Promise} + {Frame(f, |Stack(s, f)|)}
  }

  lemma PromiseKeep(s: State, s': State, f: Fiber, p: Addr)
    requires KeepOk(s) && PromiseFrame(s, s', f, p)
    ensures KeepOk(s')
  {
    PushesPushed(s, s', f, Tail(p));
    var n := |Stack(s, f)|;
    hide Pushes;
    forall a, g, i
      ensures Keeps(s', g, i, a) <==> Keeps(s, g, i, a) || (g == f && i == n && a == p)
    {
      if g == f && 0 <= i < n {
        assert Stack(s', f)[i] == Stack(s, f)[i];
      }
    }
    hide Keeps, Pushed;
    forall b, g, i | b in s'.heap
      ensures Frame(g, i) in s'.heap[b].owners <==> Keeps(s', g, i, b)
    {
      assert Frame(g, i) in s.heap[b].owners <==> Keeps(s, g, i, b);
    }
    forall a | a in s'.heap
      ensures s'.heap[a].imp == s.heap[a].imp
    {
    }
  }

  lemma PromiseFrameInv(s: State, s': State, f: Fiber, p: Addr)
    requires Inv(s, Tight) && PromiseFrame(s, s', f, p)
    ensures Inv(s', Tight)
  {
    hide Shape, HeldOk, KeepOk, StacksOk, WaitsOk, ProgressOk, HistoryOk, MeaningOk, Reowned;
    ReownedShape(s, s', p);
    assert Dying(s', p) == {};
    ReownedHeld(s, s', p);
    PromiseKeep(s, s', f, p);
    ReownedKeepAlive(s, s', p);
    PushStacks(s, s', f, Tail(p));
    ReownedWaits(s, s', p);
    PushesPushed(s, s', f, Tail(p));
    PushKeepsLoops(s, s', f);
    ReownedProgress(s, s', p);
    ReownedRecord(s, s', p);
    PushHistory(s, s', f, Tail(p));
    ReownedMeaning(s, s', p);
  }

  lemma PushHistory(s: State, s': State, f: Fiber, frame: StackFrame)
    requires HistoryOk(s) && Pushes(s, s', f, frame) && SameRecord(s, s') && FastAt(s', frame)
    ensures HistoryOk(s')
  {
    PushFast(s, s', f, frame);
    hide Pushes;
    forall u: Uid | u in s'.final
      ensures u in s'.origin && Equation(s', u)
    {
      assert Equation(s, u);
    }
  }

  // ---- A frame of a synchronous map or bind is pushed or popped ----

  ghost predicate OnlyStacks(s: State, s': State) {
    && SameHeap(s, s') && SameRecord(s, s')
    && s'.queued == s.queued && s'.syncRegistered == s.syncRegistered && s'.syncDependents == s.syncDependents
  }

  lemma StackWaits(s: State, s': State)
    requires WaitsOk(s) && ProgressOk(s, {}) && OnlyStacks(s, s')
    requires forall d, a :: InLoop(s, d, a) ==> InLoop(s', d, a)
    requires forall d :: Resolving(s, d) ==> Resolving(s', d)
    ensures WaitsOk(s') && ProgressOk(s', {})
  {
    hide InLoop, Resolving;
    forall a | a in s'.heap && s'.heap[a].Closure().Some?
      ensures ProgressAt(s', a)
    {
      assert ProgressAt(s, a);
    }
  }

  lemma PopFastInv(s: State, s': State, f: Fiber)
    requires Inv(s, Tight) && Swaps(s, s', f, None) && OnlyStacks(s, s')
    requires Top(s, f).value.FastMap? || Top(s, f).value.FastBind?
    ensures Inv(s', Tight)
  {
    hide Shape, HeldOk, KeepOk, StacksOk, WaitsOk, ProgressOk, HistoryOk, MeaningOk, Swaps;
    SwapStorage(s, s', f, None);
    TailLoops(s, s', f);
    StackWaits(s, s');
  }

  lemma PushFastInv(s: State, s': State, f: Fiber, frame: StackFrame)
    requires Inv(s, Tight) && Pushes(s, s', f, frame) && OnlyStacks(s, s')
    requires (frame.FastMap? || frame.FastBind?) && FastAt(s, frame)
    ensures Inv(s', Tight)
  {
    hide Shape, HeldOk, KeepOk, StacksOk, WaitsOk, ProgressOk, HistoryOk, MeaningOk;
    PushStacks(s, s', f, frame);
    PushKeeps(s, s', f, frame);
    PushHistory(s, s', f, frame);
    PushesPushed(s, s', f, frame);
    PushKeepsLoops(s, s', f);
    hide Pushes, InLoop, Resolving, Keeps;
    StackWaits(s, s');
    SameHeld(s, s');
    SwapKeepOk(s, s', f);
    PushMeaning(s, s');
  }

  lemma PushMeaning(s: State, s': State)
    requires Shape(s, {}) && HeldOk(s) && MeaningOk(s, Firm) && OnlyStacks(s, s')
    ensures MeaningOk(s', Firm) && Shape(s', {})
  {
    hide MeaningOk;
    forall a | a in s'.heap
      ensures SameTask(s, s', a) && (Needs(s, a).Some? ==> Needs(s, a).value in s'.heap)
      ensures ShapeAt(s', {}, a)
    {
      assert ShapeAt(s, {}, a);
      assert Holds(s, a) == Needs(s, a);
    }
    MeaningFrame(s, s', Firm);
  }

  // ---- The task that a synchronous bind returns stands for the bind too ----

  ghost predicate Joins(s: State, s': State, n: Addr, of: Uid) {
    && n in s.heap && of in s.final
    && SameStacks(s, s')
    && s'.queued == s.queued && s'.syncRegistered == s.syncRegistered && s'.syncDependents == s.syncDependents
    && s'.heap == s.heap[n := s.heap[n].Standing({s.next})]
    && s'.next == s.next + 1 && s'.origin == s.origin[s.next := Bind(of)]
    && s'.arg == s.arg[s.next := s.final[of]] && s'.returned == s.returned[s.next := Tsk(s.heap[n].uid)]
    && s'.final == (if s.heap[n].value.Some? then s.final[s.next := s.heap[n].value.value] else s.final)
    && s'.applied == s.applied + [s.next]
  }

  lemma JoinHistory(s: State, s': State, n: Addr, of: Uid)
    requires HistoryOk(s) && MeaningOk(s, Firm) && Joins(s, s', n, of)
    ensures HistoryOk(s')
  {
    assert MeansAt(s, Firm, n, s.heap[n].uid);
    hide MeaningOk;
    assert s.next !in s.origin && s.next !in s.final && s.next !in s.returned && s.next !in s.applied && of != s.next;
    forall u: Uid | u in s.final
      ensures KeptAt(s, s', u)
    {
      assert u in s.origin && u != s.next;
    }
    forall u: Uid | u in s'.final && u !in s.final
      ensures u in s'.origin && Equation(s', u)
    {
      assert u == s.next;
    }
    forall i, j | 0 <= i < j < |s'.applied|
      ensures s'.applied[i] != s'.applied[j]
    {
      if j == |s.applied| {
        assert s'.applied[i] in s.applied;
      }
    }
    forall g, i: int | 0 <= i < |Stack(s', g)|
      ensures FastAt(s', Stack(s', g)[i])
    {
      assert FastAt(s, Stack(s, g)[i]);
    }
    HistoryGrows(s, s');
  }

  lemma JoinMeaning(s: State, s': State, n: Addr, of: Uid)
    requires Shape(s, {}) && HeldOk(s) && HistoryOk(s) && MeaningOk(s, Firm) && Joins(s, s', n, of)
    ensures MeaningOk(s', Firm)
  {
    assert s.next !in s.origin && s.next !in s.final && s.next !in s.returned && s.next !in s.applied && of != s.next;
    hide HistoryOk;
    forall a, u | a in s.heap && u in s.heap[a].standsFor
      ensures u != s.next && AgreesAt(s, s', u)
    {
      assert MeansAt(s, Firm, a, u);
    }
    forall a | a in s.heap && a != n
      ensures SameTask(s, s', a)
    {
    }
    forall a | a in s.heap && Needs(s, a).Some?
      ensures NeededAt(s, s', Needs(s, a).value)
    {
      assert ShapeAt(s, {}, a);
      assert Holds(s, a) == Needs(s, a);
    }
    JoinMeans(s, s', n, of);
    assert forall u :: u in s'.heap[n].standsFor ==> u == s.next || u in s.heap[n].standsFor;
    hide Shape, HeldOk;
    MeaningExcept(s, s', Firm, Firm, n);
  }

  lemma JoinMeans(s: State, s': State, n: Addr, of: Uid)
    requires MeaningOk(s, Firm) && Joins(s, s', n, of)
    requires s.next !in s.origin && s.next !in s.final && s.next !in s.returned && s.next !in s.applied && of != s.next
    requires forall u :: u in s.heap[n].standsFor ==> u != s.next && AgreesAt(s, s', u)
    requires forall a :: a in s.heap && Needs(s, a).Some? ==> NeededAt(s, s', Needs(s, a).value)
    ensures MeansHere(s', Firm, n)
  {
    assert Work(s', n) == Work(s, n) && Called(s', n) == Called(s, n);
    assert Work(s, n).Some? ==> WorkAt(s, Firm, n);
    assert Needs(s, n).Some? ==> NeededAt(s, s', Needs(s, n).value);
    assert s.heap[n].uid in s.heap[n].standsFor;
    forall u | u in s'.heap[n].standsFor
      ensures MeansAt(s', Firm, n, u)
    {
      if u != s.next {
        assert MeansAt(s, Firm, n, u) && AgreesAt(s, s', u);
      }
    }
    if Work(s', n).Some? && !Work(s', n).value.BindResult? {
      assert AgreesAt(s, s', Work(s, n).value.fn);
    }
  }

  lemma JoinInv(s: State, s': State, n: Addr, of: Uid)
    requires Inv(s, Tight) && Joins(s, s', n, of)
    ensures Inv(s', Tight)
  {
    hide Shape, HeldOk, KeepOk, StacksOk, WaitsOk, ProgressOk, HistoryOk, MeaningOk;
    JoinHistory(s, s', n, of);
    JoinMeaning(s, s', n, of);
    JoinStorage(s, s', n, of);
  }

  lemma JoinStorage(s: State, s': State, n: Addr, of: Uid)
    requires Shape(s, {}) && HeldOk(s) && KeepOk(s) && StacksOk(s) && WaitsOk(s) && ProgressOk(s, {}) && Joins(s, s', n, of)
    ensures Shape(s', {}) && HeldOk(s') && KeepOk(s') && StacksOk(s') && WaitsOk(s') && ProgressOk(s', {})
  {
    hide HeldOk, KeepOk, StacksOk, WaitsOk;
    forall a | a in s.heap
      ensures SameButMeaning(s, s', a)
    {
    }
    forall a | a in s'.heap
      ensures ShapeAt(s', {}, a)
    {
      assert ShapeAt(s, {}, a);
    }
    StacksFrame(s, s');
    SameLoops(s, s');
    JoinOwners(s, s', n, of);
    hide InLoop, Resolving;
    forall a | a in s'.heap && s'.heap[a].Closure().Some?
      ensures ProgressAt(s', a)
    {
      assert ProgressAt(s, a);
    }
  }

  predicate SameButMeaning(s: State, s': State, a: Addr) {
    && a in s.heap && a in s'.heap && s'.heap[a].imp == s.heap[a].imp
    && s'.heap[a].owners == s.heap[a].owners && s'.heap[a].value == s.heap[a].value
  }

  lemma JoinOwners(s: State, s': State, n: Addr, of: Uid)
    requires HeldOk(s) && KeepOk(s) && WaitsOk(s) && Joins(s, s', n, of)
    requires forall a :: a in s.heap ==> SameButMeaning(s, s', a)
    ensures HeldOk(s') && KeepOk(s') && WaitsOk(s')
  {
    forall a
      ensures Holds(s', a) == Holds(s, a)
    {
    }
    forall a, g, i
      ensures Keeps(s', g, i, a) <==> Keeps(s, g, i, a)
    {
    }
    hide Holds, Keeps;
  }
}
