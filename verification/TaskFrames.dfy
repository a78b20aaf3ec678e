/** Changes that leave a clause of the invariant alone. */
module TaskFrames {
  import opened Wrappers
  import opened TaskMachine
  import opened TaskInvariant

  predicate SameStacks(s: State, s': State) {
    s'.stacks == s.stacks && s'.active == s.active && s'.calls == s.calls
  }

  predicate SameRecord(s: State, s': State) {
    && s'.next == s.next && s'.origin == s.origin && s'.arg == s.arg
    && s'.returned == s.returned && s'.final == s.final && s'.applied == s.applied
  }

  predicate SameKeepAlive(s: State, s': State, t: Addr)
    requires t in s.heap && s.heap[t].imp.Some?
  {
    t in s'.heap && s'.heap[t].imp.Some? && s'.heap[t].imp.value.keepAlive == s.heap[t].imp.value.keepAlive
  }

  lemma StacksFrame(s: State, s': State)
    requires StacksOk(s) && SameStacks(s, s')
    requires forall t :: t in s.calls && t in s.heap && s.heap[t].imp.Some? ==> SameKeepAlive(s, s', t)
    ensures StacksOk(s')
  {
    hide Current;
    forall f: Fiber
      ensures Stack(s', f) == Stack(s, f) && CurrentTask(s', f) == CurrentTask(s, f)
    {
    }
    forall f, i: int | 0 <= i < |Stack(s', f)| && Stack(s', f)[i].Exec?
      ensures ExecAt(s', f, i)
    {
      assert ExecAt(s, f, i);
    }
  }

  lemma SameLoops(s: State, s': State)
    requires s'.stacks == s.stacks
    ensures forall d, a :: InLoop(s, d, a) ==> InLoop(s', d, a)
    ensures forall d :: Resolving(s, d) ==> Resolving(s', d)
  {
    forall d, a | InLoop(s, d, a)
      ensures InLoop(s', d, a)
    {
      var g, i :| 0 <= i < |Stack(s, g)| && LoopAt(s, g, i, d, a);
      assert LoopAt(s', g, i, d, a);
    }
    forall d | Resolving(s, d)
      ensures Resolving(s', d)
    {
      var g, i :| 0 <= i < |Stack(s, g)| && ResolvesAt(s, g, i, d);
      assert ResolvesAt(s', g, i, d);
    }
  }

  lemma SameHistory(s: State, s': State)
    requires HistoryOk(s) && s'.stacks == s.stacks && SameRecord(s, s')
    ensures HistoryOk(s')
  {
    forall u: Uid | u in s'.final
      ensures u in s'.origin && Equation(s', u)
    {
      assert Equation(s, u);
    }
    forall g, i: int | 0 <= i < |Stack(s', g)|
      ensures FastAt(s', Stack(s', g)[i])
    {
      assert FastAt(s, Stack(s, g)[i]);
    }
  }

  // The same tasks mean the same, as long as what they wait for is still there.
  predicate SameTask(s: State, s': State, a: Addr) {
    && a in s.heap && a in s'.heap
    && s'.heap[a].uid == s.heap[a].uid && s'.heap[a].standsFor == s.heap[a].standsFor && s'.heap[a].value == s.heap[a].value
    && Work(s', a) == Work(s, a) && Called(s', a) == Called(s, a)
  }

  // The task whose value the work of `a` still needs.
  function Needs(s: State, a: Addr): Option<Addr>
    requires a in s.heap
  {
    if Work(s, a).Some? && !Called(s, a) then Work(s, a).value.Held() else None
  }

  lemma MeaningFrame(s: State, s': State, loose: Loose)
    requires MeaningOk(s, loose) && SameRecord(s, s')
    requires forall a :: a in s'.heap ==> SameTask(s, s', a)
    requires forall a :: a in s'.heap && a in s.heap && Needs(s, a).Some? ==> Needs(s, a).value in s'.heap
    ensures MeaningOk(s', loose)
  {
    forall a, u | a in s'.heap && u in s'.heap[a].standsFor
      ensures MeansAt(s', loose, a, u)
    {
      assert SameTask(s, s', a);
      MeansFrame(s, s', loose, a, u);
    }
    forall a | a in s'.heap && Work(s', a).Some?
      ensures WorkAt(s', loose, a)
    {
      assert SameTask(s, s', a);
      assert WorkAt(s, loose, a);
      if !Work(s', a).value.BindResult? && FunctionAt(s, a, Work(s, a).value.fn) {
        FunctionFrame(s, s', loose, a);
      }
    }
    forall a | a in s'.heap
      ensures s'.heap[a].uid in s'.heap[a].standsFor
    {
      assert SameTask(s, s', a);
    }
    forall a, b, u | a in s'.heap && b in s'.heap && u in s'.heap[a].standsFor && u in s'.heap[b].standsFor
      ensures a == b
    {
      assert SameTask(s, s', a) && SameTask(s, s', b);
    }
  }

  lemma MeansFrame(s: State, s': State, loose: Loose, a: Addr, u: Uid)
    requires MeaningOk(s, loose) && SameRecord(s, s')
    requires forall b :: b in s'.heap ==> SameTask(s, s', b)
    requires a in s'.heap && u in s'.heap[a].standsFor
    requires a in s.heap && Needs(s, a).Some? ==> Needs(s, a).value in s'.heap
    ensures MeansAt(s', loose, a, u)
  {
    assert SameTask(s, s', a);
    assert MeansAt(s, loose, a, u) && (Work(s, a).Some? ==> WorkAt(s, loose, a));
    hide MeaningOk;
    if Needs(s, a).Some? {
      assert SameTask(s, s', Needs(s, a).value);
    }
    hide SameTask, Work, Called;
  }

  lemma FunctionFrame(s: State, s': State, loose: Loose, a: Addr)
    requires MeaningOk(s, loose) && SameRecord(s, s')
    requires forall b :: b in s'.heap ==> SameTask(s, s', b)
    requires a in s'.heap && Work(s', a).Some? && !Work(s', a).value.BindResult?
    requires a in s.heap && Work(s, a) == Work(s', a) && FunctionAt(s, a, Work(s, a).value.fn)
    requires a in s.heap && Needs(s, a).Some? ==> Needs(s, a).value in s'.heap
    ensures FunctionAt(s', a, Work(s', a).value.fn)
  {
    assert SameTask(s, s', a);
    assert WorkAt(s, loose, a);
    hide MeaningOk;
    if Needs(s, a).Some? {
      assert SameTask(s, s', Needs(s, a).value);
    }
    hide SameTask, Work, Called;
  }

  // ---- Steps that change one task and the history ----

  // The history says the same of `u`.
  predicate AgreesAt(s: State, s': State, u: Uid) {
    && (u in s.origin ==> u in s'.origin && s'.origin[u] == s.origin[u])
    && (u in s'.returned <==> u in s.returned) && (u in s.returned ==> s'.returned[u] == s.returned[u])
    && (u in s.arg ==> u in s'.arg && s'.arg[u] == s.arg[u])
    && (u in s'.final <==> u in s.final)
    && (u in s'.applied <==> u in s.applied)
  }

  ghost predicate FinalKept(s: State, s': State) {
    forall u: Uid :: u in s.final ==> u in s'.final && s'.final[u] == s.final[u]
  }

  predicate Apart(loose: Loose, e: Addr) {
    loose.Firm? || loose.task == e
  }

  // Every task but `e` keeps its meaning.
  ghost predicate OthersSame(s: State, s': State, e: Addr) {
    && FinalKept(s, s')
    && (forall a :: a in s'.heap && a != e ==> SameTask(s, s', a))
    && (forall a :: a in s'.heap && a != e && a in s.heap && Needs(s, a).Some? ==> NeededAt(s, s', Needs(s, a).value))
    && (forall a, u :: a in s'.heap && a != e && u in s'.heap[a].standsFor ==> AgreesAt(s, s', u))
  }

  predicate NeededAt(s: State, s': State, d: Addr) {
    d in s'.heap && (d in s.heap ==> s'.heap[d].uid == s.heap[d].uid)
  }

  ghost predicate MeansHere(s: State, loose: Loose, e: Addr)
    requires e in s.heap
  {
    && s.heap[e].uid in s.heap[e].standsFor
    && (forall u :: u in s.heap[e].standsFor ==> MeansAt(s, loose, e, u))
    && (Work(s, e).Some? ==> WorkAt(s, loose, e))
  }

  lemma MeaningExcept(s: State, s': State, loose: Loose, loose': Loose, e: Addr)
    requires MeaningOk(s, loose) && OthersSame(s, s', e) && Apart(loose, e) && Apart(loose', e)
    requires e in s'.heap ==> MeansHere(s', loose', e)
    requires forall a, u :: e in s'.heap && a in s'.heap && a != e && u in s'.heap[e].standsFor ==> u !in s'.heap[a].standsFor
    ensures MeaningOk(s', loose')
  {
    forall a, u | a in s'.heap && u in s'.heap[a].standsFor
      ensures MeansAt(s', loose', a, u)
    {
      if a != e {
        assert SameTask(s, s', a) && AgreesAt(s, s', u);
        MeansExcept(s, s', loose, loose', e, a, u);
      }
    }
    forall a | a in s'.heap && Work(s', a).Some?
      ensures WorkAt(s', loose', a)
    {
      if a != e {
        WorkExcept(s, s', loose, loose', e, a);
      }
    }
    forall a | a in s'.heap
      ensures s'.heap[a].uid in s'.heap[a].standsFor
    {
      assert a != e ==> SameTask(s, s', a);
    }
    forall a, b, u | a in s'.heap && b in s'.heap && u in s'.heap[a].standsFor && u in s'.heap[b].standsFor
      ensures a == b
    {
      assert (a != e ==> SameTask(s, s', a)) && (b != e ==> SameTask(s, s', b));
    }
  }

  lemma MeansExcept(s: State, s': State, loose: Loose, loose': Loose, e: Addr, a: Addr, u: Uid)
    requires MeaningOk(s, loose) && OthersSame(s, s', e) && Apart(loose, e) && Apart(loose', e)
    requires a in s'.heap && a != e && u in s'.heap[a].standsFor
    ensures MeansAt(s', loose', a, u)
  {
    assert SameTask(s, s', a) && AgreesAt(s, s', u);
    assert MeansAt(s, loose, a, u) && (Work(s, a).Some? ==> WorkAt(s, loose, a));
    if Needs(s, a).Some? {
      assert NeededAt(s, s', Needs(s, a).value);
    }
    hide MeaningOk, SameTask, Work, Called;
  }

  lemma WorkExcept(s: State, s': State, loose: Loose, loose': Loose, e: Addr, a: Addr)
    requires MeaningOk(s, loose) && OthersSame(s, s', e) && Apart(loose, e) && Apart(loose', e)
    requires a in s'.heap && a != e && Work(s', a).Some?
    ensures WorkAt(s', loose', a)
  {
    assert SameTask(s, s', a);
    assert WorkAt(s, loose, a);
    if !Work(s, a).value.BindResult? {
      assert FunctionAt(s, a, Work(s, a).value.fn);
      assert AgreesAt(s, s', Work(s, a).value.fn);
    }
    if Needs(s, a).Some? {
      assert NeededAt(s, s', Needs(s, a).value);
    }
    hide MeaningOk, SameTask, Work, Called;
  }

  // The history grows: what was final stays, and what is new meets its equation.
  lemma HistoryGrows(s: State, s': State)
    requires HistoryOk(s) && FinalKept(s, s') && s.next <= s'.next
    requires forall u: Uid :: u in s'.origin <==> 0 <= u < s'.next
    requires forall u: Uid :: u in s.final ==> KeptAt(s, s', u)
    requires forall u: Uid :: u in s'.final && u !in s.final ==> u in s'.origin && Equation(s', u)
    requires forall u: Uid :: u in s'.returned ==> 0 <= u < s'.next
    requires forall i, j | 0 <= i < j < |s'.applied| :: s'.applied[i] != s'.applied[j]
    requires forall u: Uid :: u in s'.applied ==> 0 <= u < s'.next
    requires forall g, i: int | 0 <= i < |Stack(s', g)| :: FastAt(s', Stack(s', g)[i])
    ensures HistoryOk(s')
  {
    forall u: Uid | u in s'.final
      ensures u in s'.origin && Equation(s', u)
    {
      if u in s.final {
        assert Equation(s, u) && KeptAt(s, s', u);
      }
    }
  }

  predicate KeptAt(s: State, s': State, u: Uid) {
    && (u in s.origin ==> u in s'.origin && s'.origin[u] == s.origin[u])
    && (u in s.returned ==> u in s'.returned && s'.returned[u] == s.returned[u])
    && (u in s.arg ==> u in s'.arg && s'.arg[u] == s.arg[u])
  }
}
