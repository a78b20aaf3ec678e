/** New tasks and enqueue_task keep the invariant. */
module TaskSchedule {
  import opened Wrappers
  import opened TaskMachine
  import opened TaskInvariant
  import opened TaskFrames
  import opened TaskPreserve

  // A task that is about to be enqueued.
  predicate Ready(s: State, t: Addr) {
    Idle(s, t) && t !in s.queued && t !in s.syncRegistered
  }

  // ---- enqueue_task, when it does not execute the task at once ----

  predicate Queues(s: State, t: Addr) {
    Idle(s, t) && (!s.heap[t].imp.value.sync || Unresolved(s, s.heap[t].imp.value.nextDep))
  }

  // What enqueue_task changes then.
  predicate Enqueued(s: State, s': State, t: Addr) {
    && t in s.heap && s.heap[t].imp.Some?
    && SameStacks(s, s') && SameRecord(s, s') && s'.heap == s.heap
    && var imp := s.heap[t].imp.value;
    && var d := imp.nextDep;
    && if imp.sync then
         && d.Some? && d.value in s.heap && s.heap[d.value].value.None?
         && s'.queued == s.queued && s'.syncRegistered == s.syncRegistered[t := d.value]
         && s'.syncDependents == s.syncDependents[d.value := Dependents(s, d.value) + [t]]
       else
         && s'.queued == s.queued[t := if Unresolved(s, d) then d else None]
         && s'.syncRegistered == s.syncRegistered && s'.syncDependents == s.syncDependents
  }

  lemma QueueEnqueues(s: State, f: Fiber, t: Addr)
    requires Queues(s, t)
    ensures Enqueued(s, Enqueue(s, f, t), t)
  {
    hide Begin, Dependents;
    if s.heap[t].imp.value.sync {
      var d := s.heap[t].imp.value.nextDep;
      assert Enqueue(s, f, t) ==
             s.(syncRegistered := s.syncRegistered[t := d.value],
                syncDependents := s.syncDependents[d.value := Dependents(s, d.value) + [t]]);
    }
  }

  lemma QueueWaits(s: State, s': State, t: Addr, dying: set<Addr>)
    requires Shape(s, dying) && WaitsOk(s) && Queues(s, t) && Enqueued(s, s', t)
    ensures WaitsOk(s')
  {
    assert ShapeAt(s, dying, t);
    hide Shape;
    forall a | a in s'.queued
      ensures Idle(s', a) && !s'.heap[a].imp.value.sync && (s'.queued[a].Some? ==> s'.heap[a].Held() == s'.queued[a])
    {
    }
    forall a | a in s'.syncRegistered
      ensures Idle(s', a) && s'.heap[a].imp.value.sync && s'.heap[a].Held() == Some(s'.syncRegistered[a])
    {
    }
  }

  lemma QueueProgress(s: State, s': State, t: Addr, dying: set<Addr>, idle: set<Addr>)
    requires Shape(s, dying) && HeldOk(s) && ProgressOk(s, idle) && Queues(s, t) && Ready(s, t) && Enqueued(s, s', t)
    ensures ProgressOk(s', idle - {t})
  {
    SameLoops(s, s');
    assert ShapeAt(s, dying, t);
    assert Holds(s, t) == s.heap[t].Held();
    hide Shape, HeldOk, InLoop, Resolving, Holds;
    forall a | a in s'.heap && s'.heap[a].Closure().Some? && a !in idle - {t}
      ensures ProgressAt(s', a)
    {
      if a != t {
        assert ProgressAt(s, a);
      }
    }
  }

  lemma QueueShape(s: State, s': State, t: Addr, dying: set<Addr>)
    requires Shape(s, dying) && Enqueued(s, s', t)
    ensures Shape(s', dying)
  {
    forall a | a in s'.heap
      ensures ShapeAt(s', dying, a)
    {
      assert ShapeAt(s, dying, a);
    }
  }

  lemma QueueHeld(s: State, s': State, t: Addr)
    requires HeldOk(s) && Enqueued(s, s', t)
    ensures HeldOk(s')
  {
    forall a
      ensures Holds(s', a) == Holds(s, a)
    {
    }
    hide Holds;
  }

  lemma QueueKeep(s: State, s': State, t: Addr)
    requires KeepOk(s) && Enqueued(s, s', t)
    ensures KeepOk(s')
  {
    forall a, g, i
      ensures Keeps(s', g, i, a) <==> Keeps(s, g, i, a)
    {
    }
    hide Keeps;
  }

  lemma QueueMeaning(s: State, s': State, t: Addr, dying: set<Addr>, loose: Loose)
    requires Shape(s, dying) && HeldOk(s) && MeaningOk(s, loose) && Enqueued(s, s', t)
    ensures MeaningOk(s', loose)
  {
    forall a | a in s'.heap
      ensures SameTask(s, s', a) && (Needs(s, a).Some? ==> Needs(s, a).value in s'.heap)
    {
      assert ShapeAt(s, dying, a);
      assert Holds(s, a) == Needs(s, a);
    }
    hide Shape;
    MeaningFrame(s, s', loose);
  }

  lemma QueueInv(s: State, s': State, t: Addr, x: Slack)
    requires Inv(s, x) && Queues(s, t) && Ready(s, t) && Enqueued(s, s', t)
    ensures Inv(s', x.(idle := x.idle - {t}))
  {
    hide Shape, HeldOk, KeepOk, StacksOk, WaitsOk, ProgressOk, HistoryOk, MeaningOk;
    QueueShape(s, s', t, x.dying);
    QueueHeld(s, s', t);
    QueueKeep(s, s', t);
    StacksFrame(s, s');
    QueueWaits(s, s', t, x.dying);
    QueueProgress(s, s', t, x.dying, x.idle);
    SameHistory(s, s');
    QueueMeaning(s, s', t, x.dying, x.loose);
  }

  lemma EnqueueInv(s: State, f: Fiber, t: Addr, x: Slack)
    requires Inv(s, x) && x.loose.Firm? && Ready(s, t)
    ensures Inv(Enqueue(s, f, t), x.(idle := x.idle - {t}))
  {
    hide Inv;
    if Queues(s, t) {
      QueueEnqueues(s, f, t);
      QueueInv(s, Enqueue(s, f, t), t, x);
    } else {
      BeginInv(s, f, t, x);
    }
  }

  // ---- New tasks ----

  // What may be added at a free address: the new identity, held by user code or
  // a promise, with its keep-alive reference when it has a closure.
  predicate NewTask(s: State, k: Task, o: Origin, r: Record) {
    && k.uid == s.next && k.standsFor == {s.next}
    && (k.value.Some? <==> k.imp.None?) && k.value == r.final
    && k.owners != {} && (forall w <- k.owners :: w.Ext? || w == Promise || w == Scheduled)
    && (k.imp.Some? ==>
          var i := k.imp.value;
          !i.running && !i.deleted && i.nextDep == k.Held())
    && (Scheduled in k.owners <==> k.Closure().Some? && k.imp.value.keepAlive)
    && (Promise in k.owners ==> k.Closure().None?)
    && (k.value.None? && k.Closure().None? ==> o == PromiseResult)
    && (k.Closure().Some? ==> NewWork(s, k.Closure().value, o))
  }

  predicate NewWork(s: State, c: Closure, o: Origin) {
    match c
    case Call(u) => u == s.next && o == Spawn
    case MapFn(u, d) => u == s.next && d in s.heap && o == Map(s.heap[d].uid)
    case BindFn(u, d) => u == s.next && d in s.heap && o == Bind(s.heap[d].uid)
    case BindResult(_) => false
  }

  // What the history records at once about a new identity: the function of a
  // synchronous map has already been applied, and a pure task has its value.
  datatype Record = Record(arg: Option<Value>, returned: Option<Outcome>, final: Option<Value>)

  const Nothing := Record(None, None, None)

  predicate RecordMeets(s: State, o: Origin, r: Record) {
    && (r.arg.Some? <==> r.returned.Some?)
    && (r.final.None? ==> r == Nothing)
    && (r.final.Some? ==>
          match o
          case Pure(v) => r.final == Some(v)
          case Map(d) => d in s.final && r.arg == Some(s.final[d]) && r.returned == Some(Val(r.final.value))
          case _ => false)
  }

  function Put<V>(m: map<Uid, V>, u: Uid, v: Option<V>): map<Uid, V> {
    if v.Some? then m[u := v.value] else m
  }

  // The reference that the new closure takes over.
  predicate Gives(s: State, k: Task, token: Owner) {
    k.Held().Some? ==> k.Held().value in s.heap && token.Ext? && token in s.heap[k.Held().value].owners
  }

  function AddHeap(heap: map<Addr, Task>, a: Addr, k: Task, token: Owner): map<Addr, Task> {
    var h := heap[a := k];
    var d := k.Held();
    if d.Some? && d.value in heap then h[d.value := heap[d.value].Remove(token).Add(HeldBy(a))] else h
  }

  function Added(s: State, a: Addr, k: Task, o: Origin, token: Owner, r: Record): State {
    s.(heap := AddHeap(s.heap, a, k, token), next := s.next + 1, origin := s.origin[s.next := o],
       arg := Put(s.arg, s.next, r.arg), returned := Put(s.returned, s.next, r.returned),
       final := Put(s.final, s.next, r.final),
       applied := if r.arg.Some? then s.applied + [s.next] else s.applied)
  }

  // The facts about the new state that the clauses need.
  ghost predicate Adds(s: State, s': State, a: Addr, k: Task, o: Origin, token: Owner, r: Record) {
    var d := k.Held();
    && SameStacks(s, s') && s'.queued == s.queued && s'.syncRegistered == s.syncRegistered
    && s'.syncDependents == s.syncDependents
    && s'.next == s.next + 1 && s'.origin == s.origin[s.next := o]
    && s'.arg == Put(s.arg, s.next, r.arg) && s'.returned == Put(s.returned, s.next, r.returned)
    && s'.final == Put(s.final, s.next, r.final)
    && s'.applied == (if r.arg.Some? then s.applied + [s.next] else s.applied)
    && a !in s.heap && (forall b :: b in s'.heap <==> b == a || b in s.heap)
    && s'.heap[a] == k
    && (forall b :: b in s.heap ==>
          s'.heap[b] == if d == Some(b) then s.heap[b].Remove(token).Add(HeldBy(a)) else s.heap[b])
  }

  lemma AddedAdds(s: State, a: Addr, k: Task, o: Origin, token: Owner, r: Record)
    requires a !in s.heap
    ensures Adds(s, Added(s, a, k, o, token, r), a, k, o, token, r)
  {
  }

  // One step's worth of facts, to keep the signatures below short.
  ghost predicate AddStep(s: State, s': State, a: Addr, k: Task, o: Origin, token: Owner, r: Record) {
    Adds(s, s', a, k, o, token, r) && NewTask(s, k, o, r) && Gives(s, k, token) && RecordMeets(s, o, r)
  }

  lemma AddsShape(s: State, s': State, a: Addr, k: Task, o: Origin, token: Owner, r: Record, dying: set<Addr>)
    requires Shape(s, dying) && AddStep(s, s', a, k, o, token, r)
    ensures Shape(s', dying)
  {
    hide NewWork, RecordMeets;
    forall b | b in s'.heap
      ensures ShapeAt(s', dying, b)
    {
      if b != a {
        assert ShapeAt(s, dying, b);
        assert HeldBy(a) in s.heap[b].Remove(token).Add(HeldBy(a)).owners;
      }
    }
  }

  lemma AddsHeld(s: State, s': State, a: Addr, k: Task, o: Origin, token: Owner, r: Record, dying: set<Addr>)
    requires Shape(s, dying) && HeldOk(s) && AddStep(s, s', a, k, o, token, r)
    ensures HeldOk(s')
  {
    forall b
      ensures Holds(s', b) == if b == a then k.Held() else Holds(s, b)
    {
    }
    assert Holds(s, a) == None;
    hide Holds, Shape, NewWork, RecordMeets, Put;
    forall b, c | b in s'.heap
      ensures HeldBy(c) in s'.heap[b].owners <==> Holds(s', c) == Some(b)
    {
      if b != a {
        assert HeldBy(c) in s.heap[b].owners <==> Holds(s, c) == Some(b);
      }
    }
  }

  lemma AddsKeep(s: State, s': State, a: Addr, k: Task, o: Origin, token: Owner, r: Record)
    requires KeepOk(s) && AddStep(s, s', a, k, o, token, r)
    ensures KeepOk(s')
  {
    forall b, g, i
      ensures Keeps(s', g, i, b) <==> Keeps(s, g, i, b)
    {
    }
    hide Keeps, NewWork, RecordMeets, Put;
    forall b, f, i | b in s'.heap
      ensures Frame(f, i) in s'.heap[b].owners <==> Keeps(s', f, i, b)
    {
      if b != a {
        assert Frame(f, i) in s.heap[b].owners <==> Keeps(s, f, i, b);
      }
    }
    forall b | b in s'.heap
      ensures (Scheduled in s'.heap[b].owners <==> s'.heap[b].Closure().Some? && s'.heap[b].imp.value.keepAlive)
      ensures Promise in s'.heap[b].owners ==> s'.heap[b].Closure().None? && !s'.heap[b].Running()
    {
      if b != a {
        assert s'.heap[b].imp == s.heap[b].imp;
      }
    }
  }

  lemma AddsStacks(s: State, s': State, a: Addr, k: Task, o: Origin, token: Owner, r: Record, dying: set<Addr>)
    requires Shape(s, dying) && StacksOk(s) && AddStep(s, s', a, k, o, token, r)
    ensures StacksOk(s')
  {
    hide StacksOk, RecordMeets, NewTask;
    forall b | b in s.calls && b in s.heap && s.heap[b].imp.Some?
      ensures SameKeepAlive(s, s', b)
    {
      assert s'.heap[b].imp == s.heap[b].imp;
    }
    StacksFrame(s, s');
  }

  lemma AddsWaits(s: State, s': State, a: Addr, k: Task, o: Origin, token: Owner, r: Record)
    requires WaitsOk(s) && AddStep(s, s', a, k, o, token, r)
    ensures WaitsOk(s')
  {
    hide RecordMeets, NewTask, Put;
    forall b | b in s.heap
      ensures s'.heap[b].imp == s.heap[b].imp && s'.heap[b].value == s.heap[b].value
    {
    }
  }

  lemma AddsProgress(s: State, s': State, a: Addr, k: Task, o: Origin, token: Owner, r: Record, idle: set<Addr>)
    requires ProgressOk(s, idle) && AddStep(s, s', a, k, o, token, r)
    ensures ProgressOk(s', idle + {a})
  {
    SameLoops(s, s');
    hide InLoop, Resolving, RecordMeets, NewTask, Put;
    forall b | b in s'.heap && s'.heap[b].Closure().Some? && b !in idle + {a}
      ensures ProgressAt(s', b)
    {
      assert s'.heap[b].imp == s.heap[b].imp;
      assert ProgressAt(s, b);
      forall c | c in s.heap
        ensures s'.heap[c].value == s.heap[c].value
      {
      }
    }
  }

  lemma AddsHistory(s: State, s': State, a: Addr, k: Task, o: Origin, token: Owner, r: Record)
    requires HistoryOk(s) && AddStep(s, s', a, k, o, token, r)
    ensures HistoryOk(s')
  {
    hide NewTask, Gives;
    assert s.next !in s.origin && s.next !in s.final && s.next !in s.returned;
    forall u: Uid | u in s.final
      ensures KeptAt(s, s', u)
    {
      assert u in s.origin && u != s.next;
    }
    forall u: Uid | u in s'.final && u !in s.final
      ensures u in s'.origin && Equation(s', u)
    {
      assert u == s.next;
    }
    forall g, i: int | 0 <= i < |Stack(s', g)|
      ensures FastAt(s', Stack(s', g)[i])
    {
      assert Stack(s', g) == Stack(s, g);
      assert FastAt(s, Stack(s, g)[i]);
    }
    forall i, j | 0 <= i < j < |s'.applied|
      ensures s'.applied[i] != s'.applied[j]
    {
      if j == |s.applied| {
        assert s'.applied[i] in s.applied;
      }
    }
    HistoryGrows(s, s');
  }

  lemma AddsMeaning(s: State, s': State, a: Addr, k: Task, o: Origin, token: Owner, r: Record, dying: set<Addr>, loose: Loose)
    requires Shape(s, dying) && HeldOk(s) && HistoryOk(s) && MeaningOk(s, loose) && AddStep(s, s', a, k, o, token, r)
    requires loose.Firm?
    ensures MeaningOk(s', loose)
  {
    NewMeans(s, s', a, k, o, token, r, dying);
    OldMeans(s, s', a, k, o, token, r, dying);
    hide Shape, HeldOk, HistoryOk, NewTask, Gives, RecordMeets;
    MeaningExcept(s, s', loose, loose, a);
  }

  lemma OldMeans(s: State, s': State, a: Addr, k: Task, o: Origin, token: Owner, r: Record, dying: set<Addr>)
    requires Shape(s, dying) && HeldOk(s) && HistoryOk(s) && MeaningOk(s, Firm) && AddStep(s, s', a, k, o, token, r)
    ensures OthersSame(s, s', a)
    ensures forall b :: b in s.heap ==> s.next !in s.heap[b].standsFor
  {
    assert s.next !in s.origin && s.next !in s.final && s.next !in s.returned;
    hide HistoryOk, NewTask, RecordMeets;
    forall b, u | b in s.heap && u in s.heap[b].standsFor
      ensures u != s.next && AgreesAt(s, s', u)
    {
      assert MeansAt(s, Firm, b, u);
    }
    hide MeaningOk;
    forall b | b in s.heap
      ensures SameTask(s, s', b) && (Needs(s, b).Some? ==> NeededAt(s, s', Needs(s, b).value))
    {
      assert ShapeAt(s, dying, b);
      assert Holds(s, b) == Needs(s, b);
    }
  }

  lemma NewMeans(s: State, s': State, a: Addr, k: Task, o: Origin, token: Owner, r: Record, dying: set<Addr>)
    requires Shape(s, dying) && HistoryOk(s) && AddStep(s, s', a, k, o, token, r)
    ensures MeansHere(s', Firm, a)
  {
    assert a !in s'.calls;
    assert s.next !in s.origin && s.next !in s.final && s.next !in s.returned && s.next !in s.applied;
    hide Shape, HistoryOk;
    if k.Held().Some? {
      assert s'.heap[k.Held().value].uid == s.heap[k.Held().value].uid;
    }
    assert forall u :: u in s'.heap[a].standsFor ==> u == s.next;
  }

  lemma AddsInv(s: State, s': State, a: Addr, k: Task, o: Origin, token: Owner, r: Record, x: Slack)
    requires Inv(s, x) && x.loose.Firm? && AddStep(s, s', a, k, o, token, r)
    ensures Inv(s', x.(idle := x.idle + {a}))
  {
    hide Shape, HeldOk, KeepOk, StacksOk, WaitsOk, ProgressOk, HistoryOk, MeaningOk, AddStep;
    AddsShape(s, s', a, k, o, token, r, x.dying);
    AddsHeld(s, s', a, k, o, token, r, x.dying);
    AddsKeep(s, s', a, k, o, token, r);
    AddsStacks(s, s', a, k, o, token, r, x.dying);
    AddsWaits(s, s', a, k, o, token, r);
    AddsProgress(s, s', a, k, o, token, r, x.idle);
    AddsHistory(s, s', a, k, o, token, r);
    AddsMeaning(s, s', a, k, o, token, r, x.dying, x.loose);
  }
}
