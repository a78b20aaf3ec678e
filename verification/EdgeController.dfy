/** The controller between a JavaScript host and the single Lean stack: its methods, the
    host's events, Lean's own steps and the microtasks that are due. */
module EdgeController {
  import opened Bytes
  import opened Wrappers

  datatype Mode = Idle | Running | Suspended

  // What is on the JavaScript stack: an entry into Lean, Lean continued after a wait, or a
  // synchronous call from JavaScript into Lean and the mode it found.
  datatype Frame = Entry | Continued | Callback(previous: Mode)

  // A microtask that is due.
  datatype Task =
    | Resume                // the wait was woken: Lean may run again
    | Continue              // Lean's stack is switched in again
    | Finished              // an entry that suspended, or that promises its result, is over
    | Failed                // such an entry threw
    | PumpLater             // after a synchronous call that found the controller idle
    | Settled(call: nat)    // the host's promise of a call settled
    | Notify(call: nat)     // its result is recorded

  // A host call that waits, innermost last.
  datatype Pending = Pending(call: nat, result: Option<seq<Byte>>, done: bool)

  // One turn of a frame that awaits its call.
  datatype Turn = Took(call: nat, result: seq<Byte>) | Again | Waiting | Stopped

  datatype Outcome = Waits(call: nat) | Replied | CannotWait | Stops

  class Controller {
    // Whether Lean may suspend at all.
    const jspi: bool
    var mode: Mode
    var syncDepth: nat
    var poisoned: bool
    var waking: bool
    var scheduled: bool
    var pendingCalls: seq<Pending>
    // The host's queued events.
    var events: nat
    // The engine: the stack and the due microtasks.
    var frames: seq<Frame>
    var tasks: multiset<Task>
    var calls: nat
    // Lean's frames that await a host call (runtime/edge.cpp), innermost last.
    var awaiting: seq<nat>
    // Calls whose promise has settled; a promise settles once.
    ghost var settled: set<nat>

    predicate HostPending()
      reads this
    {
      events > 0
    }

    predicate CallReady()
      reads this
    {
      |pendingCalls| > 0 && pendingCalls[|pendingCalls| - 1].done
    }

    predicate CanSuspend()
      reads this
    {
      jspi && mode == Running && syncDepth == 0
    }

    // Lean's own stack: on the JavaScript stack, waiting, about to go on, or about to be over.
    ghost function Stacks(): nat
      reads this
    {
      (if |frames| > 0 && !frames[0].Callback? then 1 else 0) + (if waking then 1 else 0)
      + tasks[Resume] + tasks[Continue] + tasks[Finished] + tasks[Failed]
    }

    ghost predicate FramesOk()
      reads this
    {
      && (forall i :: 1 <= i < |frames| ==> frames[i].Callback?)
      && syncDepth == (if |frames| > 0 && !frames[0].Callback? then |frames| - 1 else |frames|)
      // A callback finds the controller running if it is called from Lean or from a callback.
      && (forall i :: 1 <= i < |frames| ==>
            frames[i].previous == if frames[0].Callback? && frames[0].previous == Suspended then Suspended else Running)
    }

    ghost predicate ModeOk()
      reads this
    {
      match mode
      case Idle => frames == [] && Stacks() == 0 && (events > 0 ==> scheduled)
      case Suspended =>
        && tasks[Resume] + (if waking then 1 else 0) == 1 && Stacks() == 1
        && (forall i :: 0 <= i < |frames| ==> frames[i] == Callback(Suspended))
        && (waking ==> events == 0 && !CallReady())
      case Running =>
        && tasks[Resume] == 0 && !waking
        && (Stacks() == 1 || (Stacks() == 0 && |frames| > 0 && frames[0] == Callback(Idle)))
        && (|frames| > 0 && frames[0].Callback? ==> if Stacks() == 0 then frames[0].previous == Idle else frames[0].previous == Running)
    }

    // Waiting calls nest as Lean's frames do.
    ghost predicate CallsOk()
      reads this
    {
      && |awaiting| == |pendingCalls|
      && (forall i :: 0 <= i < |awaiting| ==> awaiting[i] == pendingCalls[i].call < calls)
      && (forall i, j :: 0 <= i < j < |awaiting| ==> awaiting[i] != awaiting[j])
      && (forall i :: 0 <= i < |pendingCalls| && (pendingCalls[i].done || Notify(pendingCalls[i].call) in tasks) ==>
            pendingCalls[i].result.Some?)
      && (forall c: nat :: Settled(c) in tasks || Notify(c) in tasks ==> c < calls)
      && (Stacks() == 0 || tasks[Finished] > 0 ==> pendingCalls == [])
    }

    ghost predicate Valid()
      reads this
    {
      (scheduled <==> tasks[PumpLater] == 1) && tasks[PumpLater] <= 1 && (poisoned || (FramesOk() && ModeOk() && CallsOk()))
    }

    constructor (jspi: bool)
      ensures Valid() && mode == Idle && !poisoned && events == 0 && tasks == multiset{}
    {
      this.jspi := jspi;
      mode, syncDepth, poisoned, waking, scheduled, pendingCalls := Idle, 0, false, false, false, [];
      events, frames, tasks, calls, awaiting, settled := 0, [], multiset{}, 0, [], {};
    }

    // ---- The controller's methods ----

    // An event or a result is there: a waiting stack is woken, an idle controller pumps.
    method Notice()
      requires !poisoned ==> ValidButFor()
      requires (scheduled <==> tasks[PumpLater] == 1) && tasks[PumpLater] <= 1
      modifies this`mode, this`waking, this`frames, this`tasks
      ensures Valid()
      ensures !poisoned && old(mode) == Idle ==> mode == Running && frames == [Entry] && tasks == old(tasks)
      ensures !poisoned && old(waking) ==> !waking && mode == Suspended && frames == old(frames) && tasks == old(tasks) + multiset{Resume}
      ensures !poisoned && old(mode) != Idle && !old(waking) ==>
                mode == old(mode) && waking == old(waking) && frames == old(frames) && tasks == old(tasks)
    {
      if mode == Idle {
        Pump();
      } else if mode == Suspended && waking {
        Wake();
      }
    }

    // Valid, but for an event or a result that nobody was told of yet.
    ghost predicate ValidButFor()
      reads this
    {
      && FramesOk() && CallsOk()
      && match mode
         case Idle => frames == [] && Stacks() == 0
         case Suspended =>
           && tasks[Resume] + (if waking then 1 else 0) == 1 && Stacks() == 1
           && (forall i :: 0 <= i < |frames| ==> frames[i] == Callback(Suspended))
         case Running => ModeOk()
    }

    method Wake()
      requires mode == Suspended && waking
      modifies this`waking, this`tasks
      ensures !waking && tasks == old(tasks) + multiset{Resume}
    {
      waking := false;
      tasks := tasks + multiset{Resume};
    }

    method Pump()
      modifies this`mode, this`frames
      ensures poisoned || old(mode) != Idle ==> mode == old(mode) && frames == old(frames)
      ensures !poisoned && old(mode) == Idle ==> mode == Running && frames == old(frames) + [Entry]
    {
      if mode != Idle || poisoned {
        return;
      }
      Enter();
    }

    // Runs Lean: the entry is on the stack until Lean waits or is over.
    method Enter()
      requires !poisoned
      modifies this`mode, this`frames
      ensures mode == Running && frames == old(frames) + [Entry]
    {
      mode := Running;
      frames := frames + [Entry];
    }

    // An entry is over.
    method Done()
      requires !poisoned && FramesOk() && CallsOk() && frames == [] && Stacks() == 0
      requires (scheduled <==> tasks[PumpLater] == 1) && tasks[PumpLater] <= 1
      modifies this`mode, this`frames
      ensures Valid()
      ensures events > 0 ==> mode == Running && frames == [Entry]
      ensures events == 0 ==> mode == Idle && frames == []
    {
      mode := Idle;
      if !poisoned && events > 0 {
        Pump();
      }
    }

    // Lean's stack is in an unknown state: the instance stops.
    method Poison()
      requires (scheduled <==> tasks[PumpLater] == 1) && tasks[PumpLater] <= 1
      modifies this`poisoned, this`mode
      ensures Valid() && poisoned && mode == Idle
    {
      poisoned := true;
      mode := Idle;
    }

    // ---- What the host and JavaScript do, at any time ----

    // The host queues an event and notifies.
    method HostEvent()
      requires Valid()
      modifies this`events, this`mode, this`waking, this`frames, this`tasks
      ensures Valid() && events == old(events) + 1
      ensures !poisoned ==> mode != Idle && !waking
    {
      events := events + 1;
      Notice();
    }

    // A synchronous call from JavaScript: refused once the instance has stopped.
    method BeginCallback() returns (refused: bool)
      requires Valid()
      modifies this`mode, this`syncDepth, this`frames
      ensures Valid() && refused == poisoned
      ensures !refused ==>
                && frames == old(frames) + [Callback(old(mode))] && syncDepth == old(syncDepth) + 1
                && mode == if old(mode) == Idle then Running else old(mode)
    {
      if poisoned {
        return true;
      }
      var previous := mode;
      if mode == Idle {
        mode := Running;
      }
      syncDepth := syncDepth + 1;
      frames := frames + [Callback(previous)];
      return false;
    }

    method Close()
      requires Valid()
      modifies this`poisoned, this`mode
      ensures Valid() && poisoned
    {
      Poison();
    }

    // The host's promise of a waiting call settles.
    method HostSettles(call: nat)
      requires Valid() && call < calls && call !in settled
      modifies this`tasks, this`settled
      ensures Valid() && tasks == old(tasks) + multiset{Settled(call)} && settled == old(settled) + {call}
    {
      tasks := tasks + multiset{Settled(call)};
      settled := settled + {call};
    }

    // ---- What Lean does while it is on the stack ----

    // All queued events are taken.
    method Poll() returns (any: bool)
      requires Valid() && frames != []
      modifies this`events
      ensures Valid() && events == 0 && any == (old(events) > 0)
    {
      any := events > 0;
      events := 0;
    }

    // A host call; `promised` when the operation returned a promise.
    method Call(promised: bool, operation: nat) returns (outcome: Outcome)
      requires Valid() && !poisoned && frames != []
      modifies this`pendingCalls, this`awaiting, this`calls
      ensures Valid()
      ensures outcome.Waits? <==> promised && jspi && mode == Running && syncDepth == 0
      ensures outcome.Waits? ==>
                && outcome.call == old(calls) && calls == old(calls) + 1 && awaiting == old(awaiting) + [old(calls)]
                && pendingCalls == old(pendingCalls) + [Pending(old(calls), None, false)]
      ensures !outcome.Waits? ==> pendingCalls == old(pendingCalls) && awaiting == old(awaiting) && calls == old(calls)
      ensures outcome == Stops <==> promised && !(jspi && mode == Running && syncDepth == 0) && !(200 <= operation <= 219)
      ensures outcome == CannotWait <==> promised && !(jspi && mode == Running && syncDepth == 0) && 200 <= operation <= 219
      // Inside a synchronous callback nothing waits.
      ensures |frames| > 0 && frames[|frames| - 1].Callback? ==> !outcome.Waits?
    {
      if promised {
        if CanSuspend() {
          pendingCalls := pendingCalls + [Pending(calls, None, false)];
          awaiting := awaiting + [calls];
          calls := calls + 1;
          return Waits(calls - 1);
        }
        if operation < 200 || operation > 219 {
          return Stops;
        }
        return CannotWait;
      }
      return Replied;
    }

    // The innermost of Lean's frames that await a call takes the result of its own call.
    method TakeCall() returns (call: nat, result: seq<Byte>)
      requires Valid() && !poisoned && frames != [] && !frames[|frames| - 1].Callback? && |awaiting| > 0
      requires |pendingCalls| > 0 && pendingCalls[|pendingCalls| - 1].done
      modifies this`pendingCalls, this`awaiting
      ensures Valid() && |old(pendingCalls)| > 0 && |old(awaiting)| > 0
      ensures call == old(awaiting)[|old(awaiting)| - 1]
      ensures old(pendingCalls)[|old(pendingCalls)| - 1] == Pending(call, Some(result), true)
      ensures pendingCalls == old(pendingCalls)[..|old(pendingCalls)| - 1] && awaiting == old(awaiting)[..|old(awaiting)| - 1]
    {
      var last := pendingCalls[|pendingCalls| - 1];
      pendingCalls := pendingCalls[..|pendingCalls| - 1];
      awaiting := awaiting[..|awaiting| - 1];
      return last.call, last.result.value;
    }

    // One turn of the innermost frame that awaits a call: it takes its result, else other work is
    // run, else events are polled, else Lean's stack is switched out. `ran` says that a task ran.
    method AwaitTurn(ran: bool) returns (turn: Turn)
      requires Valid() && !poisoned && frames != [] && !frames[|frames| - 1].Callback? && |awaiting| > 0
      modifies this`pendingCalls, this`awaiting, this`events, this`mode, this`waking, this`frames, this`tasks
      ensures Valid() && |old(awaiting)| > 0
      ensures turn.Took? <==> |old(pendingCalls)| > 0 && old(pendingCalls)[|old(pendingCalls)| - 1].done
      // It takes the result recorded for its own call, and that entry only.
      ensures turn.Took? ==>
                && turn.call == old(awaiting)[|old(awaiting)| - 1]
                && old(pendingCalls)[|old(pendingCalls)| - 1] == Pending(turn.call, Some(turn.result), true)
                && pendingCalls == old(pendingCalls)[..|old(pendingCalls)| - 1] && awaiting == old(awaiting)[..|old(awaiting)| - 1]
                && events == old(events)
      ensures !turn.Took? ==> awaiting == old(awaiting) && pendingCalls == old(pendingCalls)
      ensures turn.Again? <==> !turn.Took? && (ran || old(events) > 0)
      ensures turn.Again? ==> events == (if ran then old(events) else 0)
      // It waits only when nothing is there, and then it is woken by the first thing that comes.
      ensures turn.Waiting? <==> !turn.Took? && !ran && old(events) == 0 && jspi && old(mode) == Running && syncDepth == 0
      ensures turn.Waiting? ==> mode == Suspended && waking && frames == []
      ensures turn.Stopped? <==> !turn.Took? && !ran && old(events) == 0 && !(jspi && old(mode) == Running && syncDepth == 0)
      ensures !turn.Waiting? ==> mode == old(mode) && frames == old(frames) && tasks == old(tasks)
    {
      if CallReady() {
        var call, result := TakeCall();
        return Took(call, result);
      }
      if ran {
        return Again;
      }
      var any := Poll();
      if any {
        return Again;
      }
      if !CanSuspend() {
        return Stopped;
      }
      Wait();
      return Waiting;
    }

    // Lean's stack is switched out; at once woken if something is there already.
    method Wait()
      requires Valid() && !poisoned && frames != [] && jspi && mode == Running && syncDepth == 0
      modifies this`mode, this`waking, this`frames, this`tasks
      ensures Valid() && mode == Suspended && frames == []
      ensures waking <==> events == 0 && (|pendingCalls| > 0 ==> !pendingCalls[|pendingCalls| - 1].done)
      ensures tasks == old(tasks) + if waking then multiset{} else multiset{Resume}
    {
      frames := [];
      mode := Suspended;
      waking := true;
      if HostPending() || CallReady() {
        Wake();
      }
    }

    // A callback returns to the JavaScript that made it.
    method EndCallback()
      requires Valid() && !poisoned && frames != [] && frames[|frames| - 1].Callback?
      modifies this`mode, this`frames, this`tasks, this`syncDepth, this`scheduled
      ensures Valid() && frames == old(frames)[..|old(frames)| - 1] && mode == old(frames)[|old(frames)| - 1].previous
      // Lean tasks the callback queued run when the JavaScript that called it has returned.
      ensures mode == Idle ==> scheduled
    {
      var previous := frames[|frames| - 1].previous;
      frames := frames[..|frames| - 1];
      syncDepth := syncDepth - 1;
      mode := previous;
      if previous == Idle && !scheduled {
        scheduled := true;
        tasks := tasks + multiset{PumpLater};
      }
    }

    // An entry returns; all of Lean's waits have returned before it.
    method EndEntry()
      requires Valid() && !poisoned && frames != [] && !frames[|frames| - 1].Callback? && awaiting == []
      modifies this`mode, this`frames, this`tasks
      ensures Valid()
      ensures if jspi then frames == [] && mode == Running && tasks == old(tasks) + multiset{Finished}
              else if events > 0 then frames == [Entry] && mode == Running
              else frames == [] && mode == Idle
    {
      frames := [];
      if jspi {
        tasks := tasks + multiset{Finished};
      } else {
        Done();
      }
    }

    // A trap or a JavaScript exception unwinds Lean's stack.
    method Trap()
      requires Valid() && !poisoned && frames != []
      modifies this`poisoned, this`mode, this`frames, this`tasks, this`syncDepth
      ensures Valid()
      ensures poisoned <==> !old(frames)[|old(frames)| - 1].Continued?
      ensures !poisoned ==> frames == [] && tasks == old(tasks) + multiset{Failed}
    {
      match frames[|frames| - 1] {
        case Callback(_) =>
          frames := frames[..|frames| - 1];
          syncDepth := syncDepth - 1;
          Poison();
        case Entry =>
          frames := [];
          Poison();
        case Continued =>
          frames := [];
          tasks := tasks + multiset{Failed};
      }
    }

    // ---- Microtasks, which run when the stack is empty ----

    method RunResume()
      requires Valid() && !poisoned && frames == [] && Resume in tasks
      modifies this`mode, this`tasks
      ensures Valid() && mode == Running && Continue in tasks
    {
      mode := Running;
      tasks := tasks - multiset{Resume} + multiset{Continue};
    }

    method RunContinue()
      requires Valid() && !poisoned && frames == [] && Continue in tasks
      modifies this`frames, this`tasks
      ensures Valid() && mode == Running && frames == [Continued]
    {
      tasks := tasks - multiset{Continue};
      frames := [Continued];
    }

    method RunFinished()
      requires Valid() && !poisoned && frames == [] && Finished in tasks
      modifies this`mode, this`frames, this`tasks
      ensures Valid()
      ensures if events > 0 then mode == Running && frames == [Entry] else mode == Idle && frames == []
    {
      tasks := tasks - multiset{Finished};
      Done();
    }

    method RunFailed()
      requires Valid() && !poisoned && frames == [] && Failed in tasks
      modifies this`mode, this`poisoned, this`tasks
      ensures Valid() && poisoned
    {
      tasks := tasks - multiset{Failed};
      Poison();
    }

    method RunPumpLater()
      requires Valid() && !poisoned && frames == [] && PumpLater in tasks
      modifies this`mode, this`frames, this`scheduled, this`tasks
      ensures Valid() && !scheduled
      ensures old(mode) == Idle ==> mode == Running && frames == [Entry]
      ensures old(mode) != Idle ==> mode == old(mode) && frames == []
    {
      tasks := tasks - multiset{PumpLater};
      scheduled := false;
      Pump();
    }

    // The result of a waiting call is recorded; then the call is done and the controller told.
    method RunSettled(call: nat, result: seq<Byte>)
      requires Valid() && !poisoned && frames == [] && Settled(call) in tasks
      modifies this`pendingCalls, this`tasks
      ensures Valid() && |pendingCalls| == |old(pendingCalls)|
      ensures forall i :: 0 <= i < |pendingCalls| ==>
                pendingCalls[i] == if old(pendingCalls)[i].call == call then Pending(call, Some(result), old(pendingCalls)[i].done)
                                   else old(pendingCalls)[i]
      ensures tasks == old(tasks) - multiset{Settled(call)} + multiset{Notify(call)}
    {
      tasks := tasks - multiset{Settled(call)} + multiset{Notify(call)};
      pendingCalls := Recorded(pendingCalls, call, result);
    }

    method RunNotify(call: nat)
      requires Valid() && !poisoned && frames == [] && Notify(call) in tasks
      modifies this`pendingCalls, this`mode, this`waking, this`frames, this`tasks
      ensures Valid() && |pendingCalls| == |old(pendingCalls)|
      ensures forall i :: 0 <= i < |pendingCalls| ==>
                pendingCalls[i] == if old(pendingCalls)[i].call == call then Pending(call, old(pendingCalls)[i].result, true)
                                   else old(pendingCalls)[i]
      ensures mode != Idle && !waking
    {
      MarkDone(call);
      Notice();
    }

    // The entry of the call is done, which nobody was told yet.
    method MarkDone(call: nat)
      requires Valid() && !poisoned && frames == [] && Notify(call) in tasks
      modifies this`pendingCalls, this`tasks
      ensures ValidButFor() && pendingCalls == Marked(old(pendingCalls), call)
      ensures tasks == old(tasks) - multiset{Notify(call)}
      ensures (scheduled <==> tasks[PumpLater] == 1) && tasks[PumpLater] <= 1
    {
      tasks := tasks - multiset{Notify(call)};
      pendingCalls := Marked(pendingCalls, call);
    }
  }

  function Recorded(calls: seq<Pending>, call: nat, result: seq<Byte>): (r: seq<Pending>)
    ensures |r| == |calls|
    ensures forall i :: 0 <= i < |calls| ==> r[i] == if calls[i].call == call then calls[i].(result := Some(result)) else calls[i]
  {
    seq(|calls|, i requires 0 <= i < |calls| =>
      if calls[i].call == call then calls[i].(result := Some(result)) else calls[i])
  }

  // The result is recorded before the call counts as done.
  function Marked(calls: seq<Pending>, call: nat): (r: seq<Pending>)
    ensures |r| == |calls|
    ensures forall i :: 0 <= i < |calls| ==> r[i] == if calls[i].call == call then calls[i].(done := true) else calls[i]
  {
    seq(|calls|, i requires 0 <= i < |calls| => if calls[i].call == call then calls[i].(done := true) else calls[i])
  }

  /** When a JavaScript turn is over and no microtask is due, nothing is left to do: the
      controller is idle or suspended, no event is queued, no result waits to be taken. */
  lemma TurnEnds(c: Controller)
    requires c.Valid() && !c.poisoned && c.frames == [] && c.tasks == multiset{}
    ensures c.mode != Running
    ensures c.events == 0 && (|c.pendingCalls| > 0 ==> !c.pendingCalls[|c.pendingCalls| - 1].done)
    ensures c.mode == Suspended ==> c.waking
    ensures c.mode == Idle ==> c.pendingCalls == [] && c.awaiting == []
  {
    assert c.tasks[Resume] == 0;
  }
}
