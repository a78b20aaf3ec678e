/** Reference counts. The runtime keeps a counter in each task; the machine names what holds
    each reference. The counter is the number of holders, so whether a task is freed, or may be
    fused, can be read off it. */
module TaskCounts {
  import opened Wrappers
  import opened TaskMachine
  import opened TaskInvariant

  // A task object: m_rc, m_value, m_imp. `uid` names it and is not stored by the runtime.
  datatype Cell = Cell(uid: Uid, count: nat, value: Option<Value>, imp: Option<Imp>) {
    function Closure(): Option<Closure> {
      if imp.Some? then imp.value.closure else None
    }

    function Held(): Option<Addr> {
      if Closure().Some? then Closure().value.Held() else None
    }

    predicate Running() { imp.Some? && imp.value.running }

    predicate Deleted() { imp.Some? && imp.value.deleted }
  }

  function CellOf(k: Task): Cell { Cell(k.uid, k.Count(), k.value, k.imp) }

  ghost predicate Mirrors(cells: map<Addr, Cell>, heap: map<Addr, Task>) {
    cells.Keys == heap.Keys && forall a :: a in cells ==> cells[a] == CellOf(heap[a])
  }

  lemma CellAt(cells: map<Addr, Cell>, heap: map<Addr, Task>, a: Addr)
    requires Mirrors(cells, heap)
    ensures a in cells <==> a in heap
    ensures a in heap ==>
              && cells[a] == CellOf(heap[a]) && cells[a].value == heap[a].value && cells[a].imp == heap[a].imp
              && cells[a].uid == heap[a].uid && cells[a].Held() == heap[a].Held() && cells[a].Closure() == heap[a].Closure()
              && cells[a].Running() == heap[a].Running() && cells[a].Deleted() == heap[a].Deleted()
              && cells[a].count == |heap[a].owners|
  {
  }

  lemma MirrorsPut(cells: map<Addr, Cell>, heap: map<Addr, Task>, a: Addr, c: Cell, k: Task)
    requires Mirrors(cells, heap) && c == CellOf(k)
    ensures Mirrors(cells[a := c], heap[a := k])
  {
  }

  lemma MirrorsDrop(cells: map<Addr, Cell>, heap: map<Addr, Task>, a: Addr)
    requires Mirrors(cells, heap)
    ensures Mirrors(cells - {a}, heap - {a})
  {
  }

  // ---- One reference more, one less, one that changes hands ----

  lemma Gains(k: Task, o: Owner)
    requires o !in k.owners
    ensures CellOf(k.Add(o)) == CellOf(k).(count := k.Count() + 1)
  {
  }

  lemma Loses(k: Task, o: Owner)
    requires o in k.owners
    ensures k.Count() > 0 && CellOf(k.Remove(o)) == CellOf(k).(count := k.Count() - 1)
  {
  }

  lemma Moves(k: Task, o: Owner, o': Owner)
    requires o in k.owners && o' !in k.owners
    ensures CellOf(k.Remove(o).Add(o')) == CellOf(k)
  {
    Loses(k, o);
    Gains(k.Remove(o), o');
  }

  lemma NoneLeft(k: Task)
    ensures k.Count() == 0 <==> k.owners == {}
  {
  }

  // The keep-alive reference of the schedule becomes the frame's.
  lemma BegunCell(k: Task, f: Fiber, depth: int)
    requires k.imp.Some? && (k.imp.value.keepAlive ==> Scheduled in k.owners && Frame(f, depth) !in k.owners)
    ensures CellOf(k.Begun(f, depth)) == CellOf(k).(imp := Some(k.imp.value.(closure := None, nextDep := None, running := true)))
  {
    if k.imp.value.keepAlive {
      Moves(k, Scheduled, Frame(f, depth));
    }
  }

  lemma ScheduledCell(k: Task, d: Option<Addr>)
    requires k.imp.Some? && (k.imp.value.keepAlive ==> Scheduled !in k.owners)
    ensures CellOf(k.KeepScheduled(d)) ==
            Cell(k.uid, k.Count() + if k.imp.value.keepAlive then 1 else 0, k.value, Some(k.imp.value.(nextDep := d)))
    ensures k.KeepScheduled(d).imp == Some(k.imp.value.(nextDep := d))
  {
    if k.imp.value.keepAlive {
      Gains(k, Scheduled);
    }
  }

  // A closure's reference goes over to another task's closure.
  lemma ReholdMirrors(cells: map<Addr, Cell>, heap: map<Addr, Task>, d: Option<Addr>, o: Owner, o': Owner)
    requires Mirrors(cells, heap)
    requires d.Some? && d.value in heap ==> o in heap[d.value].owners && o' !in heap[d.value].owners
    ensures Mirrors(cells, Rehold(heap, d, o, o'))
  {
    if d.Some? && d.value in heap {
      var k := heap[d.value];
      Moves(k, o, o');
      MirrorsPut(cells, heap, d.value, cells[d.value], k.Remove(o).Add(o'));
      assert cells[d.value := cells[d.value]] == cells;
    }
  }

  // ---- Who holds what ----

  // A stored closure owns the task it waits for.
  ghost predicate Owned(heap: map<Addr, Task>) {
    forall a :: a in heap && heap[a].Held().Some? && heap[a].Held().value in heap ==> HeldBy(a) in heap[heap[a].Held().value].owners
  }

  lemma FreeOwned(heap: map<Addr, Task>, t: Addr)
    requires Owned(heap) && t in heap
    ensures Owned(FreeTask(heap, t))
  {
  }

  lemma FreeMirrors(cells: map<Addr, Cell>, heap: map<Addr, Task>, t: Addr)
    requires Mirrors(cells, heap) && Owned(heap) && t in heap
    ensures var d := heap[t].Held(); var c := cells - {t};
            && (d.Some? && d.value in c ==> c[d.value].count > 0)
            && Mirrors(if d.Some? && d.value in c then c[d.value := c[d.value].(count := c[d.value].count - 1)] else c, FreeTask(heap, t))
  {
    MirrorsDrop(cells, heap, t);
    var d, h := heap[t].Held(), heap - {t};
    if d.Some? && d.value in h {
      Loses(h[d.value], HeldBy(t));
      hide Mirrors;
      CellAt(cells - {t}, h, d.value);
      MirrorsPut(cells - {t}, h, d.value, CellOf(h[d.value].Remove(HeldBy(t))), h[d.value].Remove(HeldBy(t)));
    } else {
      CellAt(cells - {t}, h, if d.Some? then d.value else t);
      hide Mirrors;
    }
  }

  // Dropping a reference that is not a stored closure's.
  lemma RemoveOwned(heap: map<Addr, Task>, t: Addr, o: Owner)
    requires Owned(heap) && t in heap
    requires o.HeldBy? && o.task in heap ==> heap[o.task].Held() != Some(t)
    ensures Owned(heap[t := heap[t].Remove(o)])
  {
  }

  // Changes of a task that leave its owners and what its closure holds.
  lemma SameOwned(heap: map<Addr, Task>, t: Addr, k: Task)
    requires Owned(heap) && t in heap && k.owners == heap[t].owners && k.Held() == heap[t].Held()
    ensures Owned(heap[t := k])
  {
  }

  ghost predicate Refs(s: State) {
    && (forall t :: t in s.heap ==> (Scheduled in s.heap[t].owners <==> s.heap[t].Closure().Some? && s.heap[t].imp.value.keepAlive))
    && (forall t, f, i :: t in s.heap && Frame(f, i) in s.heap[t].owners ==> i < |Stack(s, f)|)
    && (forall t, a :: t in s.heap ==> (HeldBy(a) in s.heap[t].owners <==> Holds(s, a) == Some(t)))
  }

  lemma InvRefs(s: State)
    requires Inv(s, Tight)
    ensures Refs(s)
  {
    hide HeldOk, Shape, StacksOk, WaitsOk, ProgressOk, HistoryOk, MeaningOk;
    hide Holds;
    forall t, f, i | t in s.heap && Frame(f, i) in s.heap[t].owners
      ensures i < |Stack(s, f)|
    {
      assert Keeps(s, f, i, t);
    }
    HeldRefs(s);
  }

  lemma HeldRefs(s: State)
    requires Inv(s, Tight)
    ensures forall t, a :: t in s.heap ==> (HeldBy(a) in s.heap[t].owners <==> Holds(s, a) == Some(t))
  {
    hide Holds, KeepOk;
  }

  lemma RefsOwned(s: State)
    requires Refs(s)
    ensures Owned(s.heap)
  {
    forall a | a in s.heap && s.heap[a].Held().Some?
      ensures Holds(s, a) == s.heap[a].Held()
    {
    }
  }

  // The frame that ends holds the reference it releases.
  lemma TailRefs(s: State, f: Fiber)
    requires Inv(s, Tight) && Top(s, f).Some? && Top(s, f).value.Tail?
    ensures Top(s, f).value.task in s.heap && Frame(f, |Stack(s, f)| - 1) in s.heap[Top(s, f).value.task].owners
  {
    assert Keeps(s, f, |Stack(s, f)| - 1, Top(s, f).value.task);
  }
}
