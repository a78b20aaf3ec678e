/** What the slot protocol promises over every run. */
module SlotTheorems {
  import opened Bytes
  import opened Wrappers
  import opened SlotMachine
  import opened SlotInvariant
  import opened SlotSteps

  // The state `s` is reached from a new slot.
  ghost predicate Reaches(deep: bool, host: bool, buffer: seq<Byte>, acts: seq<Action>, s: State) {
    Run(Init(deep, host, buffer), acts) == Some(s)
  }

  lemma ReachedInv(deep: bool, host: bool, buffer: seq<Byte>, acts: seq<Action>, s: State)
    requires Reaches(deep, host, buffer, acts, s)
    ensures Inv(s)
  {
    hide Inv, Run;
    InitInv(deep, host, buffer);
    RunKeeps(Init(deep, host, buffer), acts);
  }

  /** Each call is dispatched at most once, as the operation it asked for, in the order of the calls. */
  lemma DispatchedOnce(deep: bool, host: bool, buffer: seq<Byte>, acts: seq<Action>, s: State)
    requires Reaches(deep, host, buffer, acts, s)
    ensures forall i, j :: 0 <= i < j < |s.dispatched| ==> s.dispatched[i].call < s.dispatched[j].call
    ensures forall i :: 0 <= i < |s.dispatched| ==>
              s.dispatched[i].call < |s.asked| && s.dispatched[i].request == s.asked[s.dispatched[i].call]
  {
    hide JobsOk, SequenceOk, PostedOk, ReplyOk, WakeOk, Run, Init;
    ReachedInv(deep, host, buffer, acts, s);
  }

  /** At most two exchanges, and the second always finds the reply and has room for it. */
  lemma TwoExchanges(deep: bool, host: bool, buffer: seq<Byte>, acts: seq<Action>, s: State)
    requires Reaches(deep, host, buffer, acts, s)
    ensures s.job != Faulted && s.client != Overrun
    ensures InCall(s) ==> 1 <= s.exchanges <= 2
    ensures s.exchanges == 2 && s.client.Taking? ==> s.client.status < 3
    ensures s.job.Serving? && s.posted == Fetch ==> s.kept.Some? && |s.kept.value.bytes| == |s.buffer|
  {
    hide HistoryOk, WakeOk, Run, Init;
    ReachedInv(deep, host, buffer, acts, s);
  }

  // The host is on its way to the request: a task, a message, or a promise it waits for.
  predicate HostOwes(s: State) {
    s.job != Elsewhere || s.message || s.server.Runnable? || s.server.Loading? || s.server.Awaiting?
  }

  /** A sleeping thread is never forgotten. */
  lemma NoLostWakeUp(deep: bool, host: bool, buffer: seq<Byte>, acts: seq<Action>, s: State)
    requires Reaches(deep, host, buffer, acts, s) && s.client.Asleep?
    ensures HostOwes(s)
    ensures s.ready ==> s.job.Waking?
  {
    hide HistoryOk, ReplyOk, PostedOk, Run, Init;
    ReachedInv(deep, host, buffer, acts, s);
  }

  // ---- From every state of a call there is a way to its return ----

  // The next step on that way.
  function Guide(s: State): Action {
    match s.client
    case Filling(_) => Thread(Fill)
    case Clearing => Thread(Clear)
    case Counting => Thread(Count)
    case Notifying => Thread(Notify)
    case Reading => Thread(ReadStatus)
    case Sizing(_) => Thread(ReadLength)
    case Taking(status, size) =>
      if status == 3 && !s.fetching then Thread(Grow(seq(size, _ => 0))) else Thread(Take)
    case _ =>
      if s.ready then
        if s.client.Asleep? then Host(Wake) else if s.client.Sleeping? then Thread(Sleep) else Thread(Test)
      else Host(HostGuide(s))
  }

  function HostGuide(s: State): HostAct {
    match s.job
    case Looping => Load
    case Compared(_, _) => Compare
    case Serving(_) => Serve(Now(Reply(0, [])), [])
    case Sized(_, _) => Size
    case Copying(_, _) => Copy
    case Marking(_, _) => Mark
    case Setting(_) => Set
    case Waking(_) => Wake
    case _ =>
      if s.server.Loading? then HostLoaded(Now(Reply(0, [])))
      else if s.server.Awaiting? then Settle(Reply(0, []))
      else if s.server.Runnable? then Resume
      else Register
  }

  // How far it still is.
  function Rank(s: State): nat {
    (if s.fetching then 0 else 200) +
    match s.client
    case Filling(_) => 104
    case Clearing => 103
    case Counting => 102
    case Notifying => 101
    case Reading => 17
    case Sizing(_) => 16
    case Taking(_, _) => 15
    case Asleep => if s.ready then 20 else HostRank(s)
    case Sleeping => if s.ready then 19 else HostRank(s)
    case _ => if s.ready then 18 else HostRank(s)
  }

  function HostRank(s: State): nat {
    match s.job
    case Looping => 42
    case Compared(_, seen) => if seen == s.served then 46 else 41
    case Serving(_) => 40
    case Sized(_, _) => 30
    case Copying(_, _) => 29
    case Marking(_, _) => 28
    case Setting(_) => 27
    case Waking(_) => 45
    case _ => if s.server.Loading? || s.server.Awaiting? then 38 else if s.server.Runnable? then 43 else 44
  }

  predicate Returned(s: State, call: int) { s.client.Resting? && Current(s) == call && call in s.returned }

  predicate Closer(s: State, t: State) { InCall(t) && t.asked == s.asked && Rank(t) < Rank(s) }

  lemma FillGuided(s: State)
    requires Inv(s) && s.client.Filling?
    ensures ClientStep(s, Fill).Some? && Closer(s, ClientStep(s, Fill).value)
  {
    hide HistoryOk;
  }

  lemma ClearGuided(s: State)
    requires Inv(s) && s.client.Clearing?
    ensures ClientStep(s, Clear).Some? && Closer(s, ClientStep(s, Clear).value)
  {
    hide HistoryOk;
  }

  lemma CountGuided(s: State)
    requires Inv(s) && s.client.Counting?
    ensures ClientStep(s, Count).Some? && Closer(s, ClientStep(s, Count).value)
  {
    hide HistoryOk;
  }

  lemma NotifyGuided(s: State)
    requires Inv(s) && s.client.Notifying?
    ensures ClientStep(s, Notify).Some? && Closer(s, ClientStep(s, Notify).value)
  {
    hide HistoryOk;
  }

  lemma TestGuided(s: State)
    requires Inv(s) && s.client.Testing? && s.ready
    ensures ClientStep(s, Test).Some? && Closer(s, ClientStep(s, Test).value)
  {
    hide HistoryOk;
  }

  lemma SleepGuided(s: State)
    requires Inv(s) && s.client.Sleeping? && s.ready
    ensures ClientStep(s, Sleep).Some? && Closer(s, ClientStep(s, Sleep).value)
  {
    hide HistoryOk;
  }

  lemma ReadGuided(s: State)
    requires Inv(s) && s.client.Reading?
    ensures ClientStep(s, ReadStatus).Some? && Closer(s, ClientStep(s, ReadStatus).value)
  {
    hide HistoryOk;
  }

  lemma LengthGuided(s: State)
    requires Inv(s) && s.client.Sizing?
    ensures ClientStep(s, ReadLength).Some? && Closer(s, ClientStep(s, ReadLength).value)
  {
    hide HistoryOk;
  }

  lemma GrowGuided(s: State)
    requires Inv(s) && s.client.Taking? && s.client.status == 3
    ensures !s.fetching
    ensures var a := Grow(seq(s.client.size, _ => 0)); ClientStep(s, a).Some? && Closer(s, ClientStep(s, a).value)
  {
    hide HistoryOk;
  }

  lemma TakeGuided(s: State)
    requires Inv(s) && s.client.Taking? && (s.client.status != 3 || s.fetching)
    ensures ClientStep(s, Take).Some? && Returned(ClientStep(s, Take).value, Current(s))
  {
    hide HistoryOk;
  }

  lemma ThreadWhere(s: State)
    requires InCall(s) && Guide(s).Thread?
    ensures s.client.Testing? || s.client.Sleeping? ==> s.ready
    ensures Posting(s) || s.client.Notifying? || s.client.Testing? || s.client.Sleeping? || Collecting(s)
  {
  }

  lemma ThreadGuided(s: State)
    requires Inv(s) && InCall(s) && Guide(s).Thread?
    ensures Step(s, Guide(s)).Some?
    ensures var t := Step(s, Guide(s)).value; Returned(t, Current(s)) || Closer(s, t)
  {
    hide Inv, InCall, ClientStep, Closer, Returned;
    ThreadWhere(s);
    match s.client
    case Filling(_) => FillGuided(s);
    case Clearing => ClearGuided(s);
    case Counting => CountGuided(s);
    case Notifying => NotifyGuided(s);
    case Testing => TestGuided(s);
    case Sleeping => SleepGuided(s);
    case Reading => ReadGuided(s);
    case Sizing(_) => LengthGuided(s);
    case Taking(status, _) =>
      if status == 3 && !s.fetching {
        GrowGuided(s);
      } else {
        TakeGuided(s);
      }
    case _ =>
  }

  // The way goes on with the host.
  predicate OnHost(s: State) {
    InFlight(s) && !s.client.Notifying? && (s.ready ==> s.client.Asleep?)
  }

  lemma LoopGuided(s: State)
    requires Inv(s) && OnHost(s) && !s.ready && s.job.Looping?
    ensures HostStep(s, Load).Some? && Closer(s, HostStep(s, Load).value)
  {
    hide HistoryOk;
  }

  lemma TakenCompareGuided(s: State)
    requires Inv(s) && OnHost(s) && !s.ready && s.job.Compared? && s.job.seen != s.served
    ensures HostStep(s, Compare).Some? && Closer(s, HostStep(s, Compare).value)
  {
    hide HistoryOk;
  }

  lemma InlineCompareGuided(s: State)
    requires Inv(s) && OnHost(s) && !s.ready && s.job == Compared(true, s.served)
    ensures HostStep(s, Compare).Some? && Closer(s, HostStep(s, Compare).value)
  {
    hide HistoryOk;
  }

  lemma LoopCompareGuided(s: State)
    requires Inv(s) && OnHost(s) && !s.ready && s.job == Compared(false, s.served)
    ensures HostStep(s, Compare).Some? && Closer(s, HostStep(s, Compare).value)
  {
    hide HistoryOk;
  }

  lemma CompareGuided(s: State)
    requires Inv(s) && OnHost(s) && !s.ready && s.job.Compared?
    ensures HostStep(s, Compare).Some? && Closer(s, HostStep(s, Compare).value)
  {
    hide Inv, OnHost, HostStep, Closer;
    if s.job.seen != s.served {
      TakenCompareGuided(s);
    } else if s.job.inline {
      InlineCompareGuided(s);
    } else {
      LoopCompareGuided(s);
    }
  }

  lemma ServeGuided(s: State)
    requires Inv(s) && OnHost(s) && !s.ready && s.job.Serving?
    ensures HostStep(s, Serve(Now(Reply(0, [])), [])).Some? && Closer(s, HostStep(s, Serve(Now(Reply(0, [])), [])).value)
  {
    hide HistoryOk;
  }

  lemma SizeGuided(s: State)
    requires Inv(s) && OnHost(s) && !s.ready && s.job.Sized?
    ensures HostStep(s, Size).Some? && Closer(s, HostStep(s, Size).value)
  {
    hide HistoryOk;
  }

  lemma CopyGuided(s: State)
    requires Inv(s) && OnHost(s) && !s.ready && s.job.Copying?
    ensures HostStep(s, Copy).Some? && Closer(s, HostStep(s, Copy).value)
  {
    hide HistoryOk;
  }

  lemma MarkGuided(s: State)
    requires Inv(s) && OnHost(s) && !s.ready && s.job.Marking?
    ensures HostStep(s, Mark).Some? && Closer(s, HostStep(s, Mark).value)
  {
    hide HistoryOk;
  }

  lemma SetGuided(s: State)
    requires Inv(s) && OnHost(s) && !s.ready && s.job.Setting?
    ensures HostStep(s, Set).Some? && Closer(s, HostStep(s, Set).value)
  {
    hide HistoryOk;
  }

  lemma RouseThenLoopGuided(s: State)
    requires Inv(s) && OnHost(s) && s.client.Asleep? && s.job == Waking(ThenLoop)
    ensures HostStep(s, Wake).Some? && Closer(s, HostStep(s, Wake).value)
  {
    hide HistoryOk;
  }

  lemma RouseThenRunnableGuided(s: State)
    requires Inv(s) && OnHost(s) && s.client.Asleep? && s.job == Waking(ThenRunnable)
    ensures HostStep(s, Wake).Some? && Closer(s, HostStep(s, Wake).value)
  {
    hide HistoryOk;
  }

  lemma RouseThenElsewhereGuided(s: State)
    requires Inv(s) && OnHost(s) && s.client.Asleep? && s.job == Waking(ThenElsewhere)
    ensures HostStep(s, Wake).Some? && Closer(s, HostStep(s, Wake).value)
  {
    hide HistoryOk;
  }

  lemma RouseGuided(s: State)
    requires Inv(s) && OnHost(s) && s.client.Asleep? && s.job.Waking?
    ensures HostStep(s, Wake).Some? && Closer(s, HostStep(s, Wake).value)
  {
    hide Inv, OnHost, HostStep, Closer;
    match s.job.after
    case ThenLoop => RouseThenLoopGuided(s);
    case ThenRunnable => RouseThenRunnableGuided(s);
    case ThenElsewhere => RouseThenElsewhereGuided(s);
  }

  lemma WakeThenLoopGuided(s: State)
    requires Inv(s) && OnHost(s) && !s.client.Asleep? && !s.ready && s.job == Waking(ThenLoop)
    ensures HostStep(s, Wake).Some? && Closer(s, HostStep(s, Wake).value)
  {
    hide HistoryOk;
  }

  lemma WakeThenRunnableGuided(s: State)
    requires Inv(s) && OnHost(s) && !s.client.Asleep? && !s.ready && s.job == Waking(ThenRunnable)
    ensures HostStep(s, Wake).Some? && Closer(s, HostStep(s, Wake).value)
  {
    hide HistoryOk;
  }

  lemma WakeThenElsewhereGuided(s: State)
    requires Inv(s) && OnHost(s) && !s.client.Asleep? && !s.ready && s.job == Waking(ThenElsewhere)
    ensures HostStep(s, Wake).Some? && Closer(s, HostStep(s, Wake).value)
  {
    hide HistoryOk;
  }

  lemma WakeGuided(s: State)
    requires Inv(s) && OnHost(s) && !s.client.Asleep? && !s.ready && s.job.Waking?
    ensures HostStep(s, Wake).Some? && Closer(s, HostStep(s, Wake).value)
  {
    hide Inv, OnHost, HostStep, Closer;
    match s.job.after
    case ThenLoop => WakeThenLoopGuided(s);
    case ThenRunnable => WakeThenRunnableGuided(s);
    case ThenElsewhere => WakeThenElsewhereGuided(s);
  }

  lemma LoadedGuided(s: State)
    requires Inv(s) && OnHost(s) && !s.ready && s.job.Elsewhere? && s.server.Loading?
    ensures HostStep(s, HostLoaded(Now(Reply(0, [])))).Some? && Closer(s, HostStep(s, HostLoaded(Now(Reply(0, [])))).value)
  {
    hide HistoryOk;
  }

  lemma SettleGuided(s: State)
    requires Inv(s) && OnHost(s) && !s.ready && s.job.Elsewhere? && s.server.Awaiting?
    ensures HostStep(s, Settle(Reply(0, []))).Some? && Closer(s, HostStep(s, Settle(Reply(0, []))).value)
  {
    hide HistoryOk;
  }

  lemma ResumeGuided(s: State)
    requires Inv(s) && OnHost(s) && !s.ready && s.job.Elsewhere? && s.server.Runnable?
    ensures HostStep(s, Resume).Some? && Closer(s, HostStep(s, Resume).value)
  {
    hide HistoryOk;
  }

  lemma RegisterGuided(s: State)
    requires Inv(s) && OnHost(s) && !s.ready && s.job.Elsewhere? && !s.server.Loading? && !s.server.Awaiting? && !s.server.Runnable?
    ensures HostStep(s, Register).Some? && Closer(s, HostStep(s, Register).value)
  {
    hide HistoryOk;
  }

  lemma OnHostWhere(s: State)
    requires Inv(s) && InCall(s) && Guide(s).Host?
    ensures OnHost(s) && !s.job.Faulted? && (s.ready ==> s.client.Asleep? && s.job.Waking? && Guide(s) == Host(Wake))
    ensures !s.ready ==> Guide(s) == Host(HostGuide(s))
  {
    hide HistoryOk, ReplyOk, PostedOk;
  }

  lemma HostGuided(s: State)
    requires Inv(s) && InCall(s) && Guide(s).Host?
    ensures Step(s, Guide(s)).Some? && Closer(s, Step(s, Guide(s)).value)
  {
    hide Inv, InCall, Guide, HostStep, Closer, OnHost;
    OnHostWhere(s);
    if s.client.Asleep? && s.job.Waking? {
      RouseGuided(s);
    } else {
      match s.job
      case Looping => LoopGuided(s);
      case Compared(_, _) => CompareGuided(s);
      case Serving(_) => ServeGuided(s);
      case Sized(_, _) => SizeGuided(s);
      case Copying(_, _) => CopyGuided(s);
      case Marking(_, _) => MarkGuided(s);
      case Setting(_) => SetGuided(s);
      case Waking(_) => WakeGuided(s);
      case Elsewhere =>
        if s.server.Loading? {
          LoadedGuided(s);
        } else if s.server.Awaiting? {
          SettleGuided(s);
        } else if s.server.Runnable? {
          ResumeGuided(s);
        } else {
          RegisterGuided(s);
        }
      case Faulted =>
    }
  }

  lemma {:induction false} RunCons(s: State, a: Action, acts: seq<Action>)
    requires Step(s, a).Some?
    ensures Run(s, [a] + acts) == Run(Step(s, a).value, acts)
    decreases |acts|
  {
    hide Step;
    var all := [a] + acts;
    if acts == [] {
      assert all[..0] == [];
      assert Run(s, all[..0]) == Some(s);
    } else {
      assert all[..|all| - 1] == [a] + acts[..|acts| - 1];
      RunCons(s, a, acts[..|acts| - 1]);
    }
  }

  /** Whatever has happened, a call that was begun can still return. */
  lemma {:induction false} CallsCanReturn(s: State) returns (acts: seq<Action>, t: State)
    requires Inv(s) && InCall(s)
    ensures Run(s, acts) == Some(t) && Returned(t, Current(s))
    decreases Rank(s)
  {
    hide Inv, Step, Guide, Rank, Run, InCall;
    var a := Guide(s);
    if a.Thread? {
      ThreadGuided(s);
    } else {
      HostGuided(s);
    }
    StepKeeps(s, a);
    var next := Step(s, a).value;
    if Returned(next, Current(s)) {
      acts, t := [], next;
      RunNothing(next);
    } else {
      acts, t := CallsCanReturn(next);
    }
    RunCons(s, a, acts);
    acts := [a] + acts;
  }

  lemma RunNothing(s: State)
    ensures Run(s, []) == Some(s)
  {
  }
}
