/** The rest of task_bind_fn keeps the invariant: the running task takes over the
    closure of the nested task, or follows it. */
module TaskRebind {
  import opened Wrappers
  import opened TaskMachine
  import opened TaskInvariant
  import opened TaskFrames

  // `t` gets closure `c`; the task `c` owns is now held by `t` instead of by
  // `token`. With `gone`, that task's storage goes, and `t` stands for it too.
  datatype Plan = Plan(t: Addr, c: Closure, token: Owner, gone: Option<Addr>)

  predicate Isolated(s: State, n: Addr) {
    n in s.heap && forall w <- s.heap[n].owners :: w.Ext? || w == Scheduled
  }

  predicate PlanOk(s: State, p: Plan) {
    && p.t in s.heap && s.heap[p.t].imp.Some? && s.heap[p.t].Closure().None? && !s.heap[p.t].Running()

    && (p.c.Held().Some? ==> p.c.Held().value in s.heap && p.token in s.heap[p.c.Held().value].owners)
    && match p.gone
       case None => p.c.BindResult? && p.token.Ext?
       case Some(n) => n != p.t && Isolated(s, n) && Idle(s, n) && s.heap[n].Closure() == Some(p.c) && p.token == HeldBy(n)
  }

  function Stood(s: State, p: Plan): set<Uid>
    requires p.gone.Some? ==> p.gone.value in s.heap
  {
    if p.gone.Some? then s.heap[p.gone.value].standsFor else {}
  }

  // What `t` is with its new closure, before its owners change.
  function NewT(s: State, p: Plan): Task
    requires p.t in s.heap && s.heap[p.t].imp.Some? && (p.gone.Some? ==> p.gone.value in s.heap)
  {
    var k := s.heap[p.t];
    k.(imp := Some(k.imp.value.(closure := Some(p.c))), standsFor := k.standsFor + Stood(s, p)).KeepScheduled(p.c.Held())
  }

  ghost predicate Installs(s: State, s': State, p: Plan)
    requires PlanOk(s, p)
  {
    && SameStacks(s, s') && SameRecord(s, s')
    && s'.queued == s.queued - Opt(p.gone) && s'.syncRegistered == s.syncRegistered - Opt(p.gone)
    && s'.syncDependents == s.syncDependents - Opt(p.gone)
    && (forall a :: a in s'.heap <==> a in s.heap && p.gone != Some(a))
    && (forall a :: a in s'.heap ==>
          var k := if a == p.t then NewT(s, p) else s.heap[a];
          s'.heap[a] == if p.c.Held() == Some(a) then k.Remove(p.token).Add(HeldBy(p.t)) else k)
  }

  function Opt(d: Option<Addr>): set<Addr> {
    if d.Some? then {d.value} else {}
  }

  // The task that `p.t`'s function returned is one that `p.t` now stands for or follows.
  predicate Follows(s: State, p: Plan, u: Uid)
    requires PlanOk(s, p)
  {
    && u in s.origin && s.origin[u].Bind? && AppliedTo(s, u, s.origin[u].of)
    && u in s.returned && s.returned[u].Tsk?
    && if p.gone.Some? then s.returned[u].next == s.heap[p.gone.value].uid
       else s.heap[p.c.src].uid == s.returned[u].next
  }

  ghost predicate Step(s: State, s': State, p: Plan) {
    PlanOk(s, p) && Installs(s, s', p)
  }

  // Nothing but the token refers to a task that goes.
  lemma GoneUnheld(s: State, p: Plan)
    requires PlanOk(s, p) && HeldOk(s)
    ensures forall a :: Holds(s, a).Some? ==> p.gone != Holds(s, a)
    ensures p.gone.Some? ==> p.c.Held() != p.gone && Holds(s, p.gone.value) == p.c.Held()
  {
    forall a | Holds(s, a).Some?
      ensures p.gone != Holds(s, a)
    {
      assert p.gone.Some? ==> HeldBy(a) !in s.heap[p.gone.value].owners;
    }
  }

  lemma InstallHolds(s: State, s': State, p: Plan, dying: set<Addr>)
    requires Step(s, s', p) && Shape(s, dying)
    ensures forall a :: Holds(s', a) == (if a == p.t then p.c.Held() else if p.gone == Some(a) then None else Holds(s, a))
    ensures Holds(s, p.t) == None
    ensures forall a :: a in s.calls ==> p.gone != Some(a) && a != p.t
  {
    assert ShapeAt(s, dying, p.t);
    assert p.gone.Some? ==> ShapeAt(s, dying, p.gone.value);
    forall a
      ensures Holds(s', a) == (if a == p.t then p.c.Held() else if p.gone == Some(a) then None else Holds(s, a))
    {
    }
  }

  lemma InstallShape(s: State, s': State, p: Plan, dying: set<Addr>)
    requires Step(s, s', p) && Shape(s, dying) && HeldOk(s)
    ensures Shape(s', dying)
  {
    InstallHolds(s, s', p, dying);
    GoneUnheld(s, p);
    hide HeldOk, Holds;
    forall a | a in s'.heap
      ensures ShapeAt(s', dying, a)
    {
      assert ShapeAt(s, dying, a);
      InstallOwners(s, s', p, a);
    }
  }

  // Owners of a task after the step, one by one.
  lemma InstallOwners(s: State, s': State, p: Plan, a: Addr)
    requires Step(s, s', p) && a in s'.heap
    ensures a in s.heap
    ensures forall w :: w in s'.heap[a].owners <==>
      || (p.c.Held() == Some(a) && w == HeldBy(p.t))
      || (!(p.c.Held() == Some(a) && w == p.token)
          && (w in s.heap[a].owners || (a == p.t && w == Scheduled && s.heap[a].imp.value.keepAlive)))
    ensures a != p.t ==> s'.heap[a].imp == s.heap[a].imp && s'.heap[a].standsFor == s.heap[a].standsFor
    ensures s'.heap[a].value == s.heap[a].value && s'.heap[a].uid == s.heap[a].uid
    ensures a == p.t ==> s'.heap[a].imp == Some(s.heap[a].imp.value.(closure := Some(p.c), nextDep := p.c.Held()))
    ensures a == p.t ==> s'.heap[a].standsFor == s.heap[a].standsFor + Stood(s, p)
  {
  }

  lemma InstallHeld(s: State, s': State, p: Plan, dying: set<Addr>)
    requires Step(s, s', p) && Shape(s, dying) && HeldOk(s)
    ensures HeldOk(s')
  {
    InstallHolds(s, s', p, dying);
    GoneUnheld(s, p);
    forall a | Holds(s', a).Some?
      ensures Holds(s', a).value in s'.heap
    {
    }
    hide Shape, Holds;
    forall b, c | b in s'.heap
      ensures HeldBy(c) in s'.heap[b].owners <==> Holds(s', c) == Some(b)
    {
      InstallOwners(s, s', p, b);
      assert HeldBy(c) in s.heap[b].owners <==> Holds(s, c) == Some(b);
    }
  }

  lemma InstallKeep(s: State, s': State, p: Plan)
    requires Step(s, s', p) && KeepOk(s)
    requires Promise !in s.heap[p.t].owners
    ensures KeepOk(s')
  {
    forall a, g, i
      ensures Keeps(s', g, i, a) <==> Keeps(s, g, i, a)
    {
    }
    hide Keeps, NewT;
    forall b, f, i | b in s'.heap
      ensures Frame(f, i) in s'.heap[b].owners <==> Keeps(s', f, i, b)
    {
      InstallOwners(s, s', p, b);
      assert Frame(f, i) in s.heap[b].owners <==> Keeps(s, f, i, b);
    }
    forall b | b in s'.heap
      ensures (Scheduled in s'.heap[b].owners <==> s'.heap[b].Closure().Some? && s'.heap[b].imp.value.keepAlive)
      ensures Promise in s'.heap[b].owners ==> s'.heap[b].Closure().None? && !s'.heap[b].Running()
    {
      InstallOwners(s, s', p, b);
    }
    forall b, f, i | Keeps(s', f, i, b)
      ensures b in s'.heap
    {
      assert b in s.heap && Frame(f, i) in s.heap[b].owners;
    }
  }

  lemma InstallStacks(s: State, s': State, p: Plan, dying: set<Addr>)
    requires Step(s, s', p) && Shape(s, dying) && StacksOk(s)
    ensures StacksOk(s')
  {
    InstallHolds(s, s', p, dying);
    hide StacksOk, Holds;
    forall a | a in s.calls && a in s.heap && s.heap[a].imp.Some?
      ensures SameKeepAlive(s, s', a)
    {
      InstallOwners(s, s', p, a);
    }
    StacksFrame(s, s');
  }

  lemma InstallWaits(s: State, s': State, p: Plan)
    requires Step(s, s', p) && WaitsOk(s)
    ensures WaitsOk(s')
  {
    hide NewT;
    forall a | a in s'.heap
      ensures a in s.heap && s'.heap[a].value == s.heap[a].value && (a != p.t ==> s'.heap[a].imp == s.heap[a].imp)
    {
      InstallOwners(s, s', p, a);
    }
  }

  lemma InstallProgress(s: State, s': State, p: Plan, dying: set<Addr>)
    requires Step(s, s', p) && Shape(s, dying) && HeldOk(s) && WaitsOk(s) && ProgressOk(s, {})
    ensures ProgressOk(s', {p.t})
  {
    InstallHolds(s, s', p, dying);
    GoneUnheld(s, p);
    SameLoops(s, s');
    hide NewT, InLoop, Resolving, Shape;
    forall a | a in s'.heap && s'.heap[a].Closure().Some? && a !in {p.t}
      ensures ProgressAt(s', a)
    {
      InstallOwners(s, s', p, a);
      assert ProgressAt(s, a);
      assert Holds(s, a) == s.heap[a].Held();
      if Holds(s, a).Some? {
        InstallOwners(s, s', p, Holds(s, a).value);
      }
    }
  }

  lemma InstallMeaning(s: State, s': State, p: Plan, u: Uid, dying: set<Addr>)
    requires Step(s, s', p) && Shape(s, dying) && HeldOk(s) && MeaningOk(s, Rebinding(p.t, u)) && Follows(s, p, u)
    requires s.heap[p.t].value.None?
    ensures MeaningOk(s', Firm)
  {
    InstallHolds(s, s', p, dying);
    GoneUnheld(s, p);
    forall a | a in s'.heap && a != p.t
      ensures SameTask(s, s', a) && (Needs(s, a).Some? ==> NeededAt(s, s', Needs(s, a).value))
    {
      InstallOwners(s, s', p, a);
      assert ShapeAt(s, dying, a);
      assert Holds(s, a) == Needs(s, a);
      if Needs(s, a).Some? {
        InstallOwners(s, s', p, Needs(s, a).value);
      }
    }
    InstallMeans(s, s', p, u, dying);
    InstallOwners(s, s', p, p.t);
    hide Shape, HeldOk, Installs, NewT, Follows;
    MeaningExcept(s, s', Rebinding(p.t, u), Firm, p.t);
  }

  lemma InstallMeans(s: State, s': State, p: Plan, u: Uid, dying: set<Addr>)
    requires Step(s, s', p) && Shape(s, dying) && HeldOk(s) && MeaningOk(s, Rebinding(p.t, u)) && Follows(s, p, u)
    requires s.heap[p.t].value.None?
    ensures MeansHere(s', Firm, p.t)
    ensures forall v :: v in s'.heap[p.t].standsFor ==> v in s.heap[p.t].standsFor || (p.gone.Some? && v in s.heap[p.gone.value].standsFor)
  {
    InstallHolds(s, s', p, dying);
    GoneUnheld(s, p);
    InstallOwners(s, s', p, p.t);
    if p.c.Held().Some? {
      InstallOwners(s, s', p, p.c.Held().value);
    }
    assert ShapeAt(s, dying, p.t);
    var loose := Rebinding(p.t, u);
    if p.gone.Some? {
      assert ShapeAt(s, dying, p.gone.value) && WorkAt(s, loose, p.gone.value);
    }
    hide Shape, HeldOk, Holds, Installs, NewT;
    assert Work(s', p.t) == Some(p.c) && !Called(s', p.t) && Work(s, p.t).None?;
    forall v | v in s'.heap[p.t].standsFor
      ensures MeansAt(s', Firm, p.t, v)
    {
      if v in s.heap[p.t].standsFor {
        assert MeansAt(s, loose, p.t, v);
        OwnMeans(s, s', p, u, v);
      } else {
        assert MeansAt(s, loose, p.gone.value, v);
      }
    }
    assert WorkAt(s', Firm, p.t);
  }

  lemma OwnMeans(s: State, s': State, p: Plan, u: Uid, v: Uid)
    requires PlanOk(s, p) && Follows(s, p, u) && MeaningOk(s, Rebinding(p.t, u)) && SameRecord(s, s')
    requires v in s.heap[p.t].standsFor && MeansAt(s, Rebinding(p.t, u), p.t, v) && s.heap[p.t].value.None? && Work(s, p.t).None?
    requires p.t in s'.heap && s'.heap[p.t].standsFor == s.heap[p.t].standsFor + Stood(s, p) && s'.heap[p.t].value.None?
    requires Work(s', p.t) == Some(p.c)
    requires p.c.Held().Some? ==> p.c.Held().value in s'.heap && s'.heap[p.c.Held().value].uid == s.heap[p.c.Held().value].uid
    ensures MeansAt(s', Firm, p.t, v)
  {
    if v == u && p.gone.Some? {
      assert s.heap[p.gone.value].uid in s.heap[p.gone.value].standsFor;
    }
  }

  lemma InstallInv(s: State, s': State, p: Plan, u: Uid, dying: set<Addr>)
    requires Step(s, s', p) && Inv(s, Slack(dying, {}, Rebinding(p.t, u))) && Follows(s, p, u)
    requires s.heap[p.t].value.None? && Promise !in s.heap[p.t].owners
    ensures Inv(s', Slack(dying, {p.t}, Firm))
  {
    hide Shape, HeldOk, KeepOk, StacksOk, WaitsOk, ProgressOk, HistoryOk, MeaningOk, Step, Follows;
    InstallShape(s, s', p, dying);
    InstallHeld(s, s', p, dying);
    InstallKeep(s, s', p);
    InstallStacks(s, s', p, dying);
    InstallWaits(s, s', p);
    InstallProgress(s, s', p, dying);
    assert HistoryOk(s') by { StepRecord(s, s', p); SameHistory(s, s'); }
    InstallMeaning(s, s', p, u, dying);
  }

  lemma StepRecord(s: State, s': State, p: Plan)
    requires Step(s, s', p)
    ensures SameRecord(s, s') && s'.stacks == s.stacks
  {
  }

  // A task that was deleted while it ran gets no new owner.
  lemma StepOwners(s: State, s': State, p: Plan)
    requires Step(s, s', p)
    requires s.heap[p.t].owners == {} && !s.heap[p.t].imp.value.keepAlive
    ensures p.t in s'.heap && s'.heap[p.t].owners == {}
  {
    InstallOwners(s, s', p, p.t);
    assert p.c.Held() != Some(p.t);
  }
}
