/** Synchronous dependents over whole runs: a task that is registered with a dependency stays
    registered until that dependency's resolution executes it, or until it is reclaimed. */
module TaskDependents {
  import opened Wrappers
  import opened TaskMachine
  import opened TaskInvariant
  import opened TaskFrames
  import opened TaskRuns
  import opened TaskSteady
  import opened TaskTheorems

  // ---- Points of a run ----

  lemma {:induction false} PrefixRuns(acts: seq<Action>, i: nat)
    requires After(acts).Some? && i <= |acts|
    ensures After(acts[..i]).Some?
    decreases |acts|
  {
    hide Inv, Next, Enabled;
    if i == |acts| {
      assert acts[..i] == acts;
    } else {
      assert acts[..|acts| - 1][..i] == acts[..i];
      PrefixRuns(acts[..|acts| - 1], i);
    }
  }

  // The state before the `i`-th action.
  ghost function At(acts: seq<Action>, i: nat): (s: State)
    requires After(acts).Some? && i <= |acts|
    ensures After(acts[..i]) == Some(s)
  {
    PrefixRuns(acts, i);
    After(acts[..i]).value
  }

  lemma AtInv(acts: seq<Action>, i: nat)
    requires After(acts).Some? && i <= |acts|
    ensures Inv(At(acts, i), Tight)
  {
    hide Inv;
  }

  lemma AtNext(acts: seq<Action>, i: nat)
    requires After(acts).Some? && i < |acts|
    ensures Inv(At(acts, i), Tight) && Enabled(At(acts, i), acts[i]) && At(acts, i + 1) == Next(At(acts, i), acts[i])
  {
    hide Inv, Enabled, Next;
    PrefixRuns(acts, i + 1);
    assert acts[..i + 1][..i] == acts[..i];
  }

  // ---- One step ----

  // `n`, the task `u`, is registered with `d` and does not run.
  predicate Registered(s: State, n: Addr, u: Uid, d: Addr) {
    && n in s.syncRegistered && s.syncRegistered[n] == d
    && n in s.heap && s.heap[n].uid == u && s.heap[n].Closure().Some? && n !in s.calls && d in s.heap
  }

  // The loop of the resolution of `d` comes to `n` and executes it.
  predicate ExecutedByLoop(s: State, act: Action, s': State, n: Addr, u: Uid, d: Addr) {
    && act.LoopStep? && Top(s, act.f).Some? && Top(s, act.f).value.Resolve? && Top(s, act.f).value.task == d
    && Hits(s, Top(s, act.f).value) && Top(s, act.f).value.deps[0] == n
    && n in s'.calls && n in s'.heap && s'.heap[n].uid == u && s'.heap[n].Running() && n !in s'.syncRegistered
  }

  lemma RegisteredIdle(s: State, n: Addr)
    requires Inv(s, Tight) && n in s.syncRegistered
    ensures n in s.heap && Registered(s, n, s.heap[n].uid, s.syncRegistered[n])
    ensures !s.heap[n].Running() && s.heap[n].imp.value.sync && s.heap[n].Held() == Some(s.syncRegistered[n]) && n !in s.queued
  {
    hide KeepOk, StacksOk, HistoryOk, MeaningOk, ProgressOk;
    assert ShapeAt(s, {}, n);
    assert Holds(s, n) == s.heap[n].Held();
  }

  lemma StillRegistered(s: State, n: Addr, d: Addr)
    requires Inv(s, Tight) && n in s.heap && s.heap[n].imp.Some? && s.heap[n].imp.value.sync && s.heap[n].Held() == Some(d)
    ensures Registered(s, n, s.heap[n].uid, d)
  {
    hide KeepOk, HeldOk, StacksOk, HistoryOk, MeaningOk, InLoop;
    assert ProgressAt(s, n);
    RegisteredIdle(s, n);
  }

  lemma LoopExecutes(s: State, f: Fiber)
    requires Inv(s, Tight) && Top(s, f).Some? && Top(s, f).value.Resolve? && Hits(s, Top(s, f).value)
    requires forall n :: n in s.syncRegistered ==> n in s.heap && s.heap[n].Closure().Some?
    ensures var n := Top(s, f).value.deps[0];
            ExecutedByLoop(s, LoopStep(f), LoopTurn(s, f), n, s.heap[n].uid, Top(s, f).value.task)
  {
    hide Inv;
  }

  /** While a task is registered, a step leaves it so, reclaims it, or is the turn of its
      dependency's loop that executes it. */
  lemma RegistrationStep(s: State, act: Action, n: Addr, u: Uid, d: Addr)
    requires Inv(s, Tight) && Enabled(s, act) && Registered(s, n, u, d)
    ensures var s' := Next(s, act);
            || Registered(s', n, u, d)
            || n !in s'.heap
            || ExecutedByLoop(s, act, s', n, u, d)
  {
    var s' := Next(s, act);
    RegisteredIdle(s, n);
    StepLasts(s, act);
    StepInv(s, act);
    if n in s'.heap {
      if act.LoopStep? && Started(s, act) == Some(n) {
        CanTurn(s, act.f);
        hide Inv;
        assert s' == LoopTurn(s, act.f);
        LoopExecutes(s, act.f);
      } else {
        NotStarted(s, act, n);
        hide Inv, Next;
        assert KeptTask(s.heap[n], s'.heap[n], false);
        StillRegistered(s', n, d);
      }
    }
  }

  lemma NotStarted(s: State, act: Action, n: Addr)
    requires Enabled(s, act) && n !in s.queued && !(act.LoopStep? && Started(s, act) == Some(n))
    ensures Started(s, act) != Some(n)
  {
  }

  // ---- Runs ----

  predicate HasValue(s: State, d: Addr) { d in s.heap && s.heap[d].value.Some? }

  ghost predicate Throughout(acts: seq<Action>, i: nat, j: nat, n: Addr, u: Uid, d: Addr)
    requires After(acts).Some? && i <= j <= |acts|
  {
    forall k: nat :: i <= k <= j ==> Registered(At(acts, k), n, u, d)
  }

  // The registration ends with the `j`-th action: executed by the loop, or reclaimed.
  ghost predicate EndsWith(acts: seq<Action>, j: nat, n: Addr, u: Uid, d: Addr)
    requires After(acts).Some? && j < |acts|
  {
    n !in At(acts, j + 1).heap || ExecutedByLoop(At(acts, j), acts[j], At(acts, j + 1), n, u, d)
  }

  // How long a registration lasts.
  lemma {:induction false} Follow(acts: seq<Action>, i: nat, n: Addr, u: Uid, d: Addr) returns (j: nat)
    requires After(acts).Some? && i <= |acts| && Registered(At(acts, i), n, u, d)
    ensures i <= j <= |acts| && Throughout(acts, i, j, n, u, d)
    ensures HasValue(At(acts, i), d) ==> HasValue(At(acts, j), d)
    ensures j < |acts| ==> EndsWith(acts, j, n, u, d)
    decreases |acts| - i
  {
    hide Inv, Enabled, Next, Registered, ExecutedByLoop, After, At, HasValue;
    if i == |acts| {
      j := i;
    } else {
      AtNext(acts, i);
      RegistrationStep(At(acts, i), acts[i], n, u, d);
      if Registered(At(acts, i + 1), n, u, d) {
        ValueLasts(At(acts, i), acts[i], n, u, d);
        j := Follow(acts, i + 1, n, u, d);
      } else {
        j := i;
      }
    }
  }

  lemma ValueLasts(s: State, act: Action, n: Addr, u: Uid, d: Addr)
    requires Inv(s, Tight) && Enabled(s, act) && Registered(Next(s, act), n, u, d)
    ensures HasValue(s, d) ==> HasValue(Next(s, act), d)
  {
    StepKeepsFinal(s, act);
    hide Inv, Next, Enabled;
  }

  /** Every synchronous dependent that is registered when its dependency has a value is served:
      by the time no resolution of that dependency is in progress any more, there was one step
      that executed it from the dependency's own loop, or reclaimed it, and until that step it
      was registered and did not run. */
  lemma DependentServed(acts: seq<Action>, i: nat, n: Addr, u: Uid, d: Addr) returns (j: nat)
    requires After(acts).Some? && i <= |acts| && Registered(At(acts, i), n, u, d) && HasValue(At(acts, i), d)
    requires !Resolving(At(acts, |acts|), d)
    ensures i <= j < |acts| && Throughout(acts, i, j, n, u, d) && EndsWith(acts, j, n, u, d)
  {
    hide Throughout, EndsWith;
    j := Follow(acts, i, n, u, d);
    if j == |acts| {
      AtInv(acts, j);
      LastStill(acts, i, j, n, u, d);
      hide After, At;
      LoopInProgress(At(acts, j), n, u, d);
    }
  }

  lemma LastStill(acts: seq<Action>, i: nat, j: nat, n: Addr, u: Uid, d: Addr)
    requires After(acts).Some? && i <= j <= |acts| && Throughout(acts, i, j, n, u, d)
    ensures Registered(At(acts, j), n, u, d)
  {
    hide Registered, At, After;
  }

  lemma LoopInProgress(s: State, n: Addr, u: Uid, d: Addr)
    requires Inv(s, Tight) && Registered(s, n, u, d) && HasValue(s, d)
    ensures Resolving(s, d)
  {
    hide KeepOk, HeldOk, StacksOk, HistoryOk, MeaningOk, Shape;
    assert ProgressAt(s, n);
    LoopsResolve(s, d, n);
  }

  lemma LoopsResolve(s: State, d: Addr, n: Addr)
    ensures InLoop(s, d, n) ==> Resolving(s, d)
  {
    if InLoop(s, d, n) {
      var f, i :| 0 <= i < |Stack(s, f)| && LoopAt(s, f, i, d, n);
      assert ResolvesAt(s, f, i, d);
    }
  }

  /** Conversely, no loop executes a task that is not registered with the loop's own task: a
      stale entry of the vector is passed over. */
  lemma OnlyRegisteredExecuted(s: State, f: Fiber, n: Addr)
    requires Inv(s, Tight) && Enabled(s, LoopStep(f)) && n in s.heap && n !in s.calls
    ensures n in Next(s, LoopStep(f)).calls ==> Registered(s, n, s.heap[n].uid, Top(s, f).value.task)
  {
    CanTurn(s, f);
    var frame := Top(s, f).value;
    if Hits(s, frame) {
      RegisteredIdle(s, frame.deps[0]);
    }
    hide Inv, Registered;
    assert Next(s, LoopStep(f)) == LoopTurn(s, f);
    hide Next;
    LoopCalls(s, f);
  }

  lemma LoopCalls(s: State, f: Fiber)
    requires Top(s, f).Some? && Top(s, f).value.Resolve?
    requires forall n :: n in s.syncRegistered ==> n in s.heap && s.heap[n].Closure().Some?
    ensures var frame := Top(s, f).value;
            LoopTurn(s, f).calls.Keys == s.calls.Keys + if Hits(s, frame) then {frame.deps[0]} else {}
  {
    hide Begin, Skip, Pop, Woken;
    var frame := Top(s, f).value;
    SkipCalls(s, f, frame);
    SkipUntouched(s, f, frame);
    if Hits(s, frame) {
      BeginCalls(Skip(s, f, frame).(syncRegistered := s.syncRegistered - {frame.deps[0]}), f, frame.deps[0]);
    }
  }

  lemma BeginCalls(s: State, f: Fiber, t: Addr)
    requires t in s.heap && s.heap[t].Closure().Some?
    ensures Begin(s, f, t).calls.Keys == s.calls.Keys + {t}
  {
  }

  lemma SkipCalls(s: State, f: Fiber, frame: StackFrame)
    requires Stack(s, f) != []
    ensures Pop(s, f).calls == s.calls
    ensures frame.Resolve? && frame.deps != [] ==> Skip(s, f, frame).calls == s.calls
  {
  }
}
