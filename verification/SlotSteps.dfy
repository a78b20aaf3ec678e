/** Each step keeps the invariant. */
module SlotSteps {
  import opened Bytes
  import opened Wrappers
  import opened SlotMachine
  import opened SlotInvariant

  lemma InitInv(deep: bool, host: bool, buffer: seq<Byte>)
    ensures Inv(Init(deep, host, buffer))
  {
  }

  lemma MakeKeeps(s: State)
    requires Inv(s) && ClientStep(s, ClientAct.Make).Some?
    ensures Inv(ClientStep(s, ClientAct.Make).value)
  {
  }

  lemma LinkKeeps(s: State)
    requires Inv(s) && ClientStep(s, ClientAct.Link).Some?
    ensures Inv(ClientStep(s, ClientAct.Link).value)
  {
  }

  lemma BeginKeeps(s: State, request: Request)
    requires Inv(s) && ClientStep(s, ClientAct.Begin(request)).Some?
    ensures Inv(ClientStep(s, ClientAct.Begin(request)).value)
  {
  }

  lemma FillKeeps(s: State)
    requires Inv(s) && ClientStep(s, ClientAct.Fill).Some?
    ensures Inv(ClientStep(s, ClientAct.Fill).value)
  {
  }

  lemma ClearKeeps(s: State)
    requires Inv(s) && ClientStep(s, ClientAct.Clear).Some?
    ensures Inv(ClientStep(s, ClientAct.Clear).value)
  {
    ClearIs(s);
    hide ClientStep;
  }

  lemma ClearIs(s: State)
    requires ClientStep(s, ClientAct.Clear).Some?
    ensures s.client.Clearing? && ClientStep(s, ClientAct.Clear).value == s.(client := Counting, ready := false)
  {
  }

  lemma CountKeeps(s: State)
    requires Inv(s) && ClientStep(s, ClientAct.Count).Some?
    ensures Inv(ClientStep(s, ClientAct.Count).value)
  {
  }

  lemma NotifyKeeps(s: State)
    requires Inv(s) && ClientStep(s, ClientAct.Notify).Some?
    ensures Inv(ClientStep(s, ClientAct.Notify).value)
  {
  }

  lemma TestKeeps(s: State)
    requires Inv(s) && ClientStep(s, ClientAct.Test).Some?
    ensures Inv(ClientStep(s, ClientAct.Test).value)
  {
  }

  lemma SleepKeeps(s: State)
    requires Inv(s) && ClientStep(s, ClientAct.Sleep).Some?
    ensures Inv(ClientStep(s, ClientAct.Sleep).value)
  {
  }

  lemma StirKeeps(s: State)
    requires Inv(s) && ClientStep(s, ClientAct.Stir).Some?
    ensures Inv(ClientStep(s, ClientAct.Stir).value)
  {
  }

  lemma ReadStatusKeeps(s: State)
    requires Inv(s) && ClientStep(s, ClientAct.ReadStatus).Some?
    ensures Inv(ClientStep(s, ClientAct.ReadStatus).value)
  {
  }

  lemma ReadLengthKeeps(s: State)
    requires Inv(s) && ClientStep(s, ClientAct.ReadLength).Some?
    ensures Inv(ClientStep(s, ClientAct.ReadLength).value)
  {
  }

  lemma GrowKeeps(s: State, bytes: seq<Byte>)
    requires Inv(s) && ClientStep(s, ClientAct.Grow(bytes)).Some?
    ensures Inv(ClientStep(s, ClientAct.Grow(bytes)).value)
  {
  }

  lemma TakeKeeps(s: State)
    requires Inv(s) && ClientStep(s, ClientAct.Take).Some?
    ensures Inv(ClientStep(s, ClientAct.Take).value)
  {
  }

  lemma ResumeKeeps(s: State)
    requires Inv(s) && HostStep(s, HostAct.Resume).Some?
    ensures Inv(HostStep(s, HostAct.Resume).value)
  {
  }

  lemma LoadKeeps(s: State)
    requires Inv(s) && HostStep(s, HostAct.Load).Some?
    ensures Inv(HostStep(s, HostAct.Load).value)
  {
  }

  lemma HostReadyKeeps(s: State)
    requires Inv(s) && HostStep(s, HostAct.HostReady).Some?
    ensures Inv(HostStep(s, HostAct.HostReady).value)
  {
  }

  lemma SizeKeeps(s: State)
    requires Inv(s) && HostStep(s, HostAct.Size).Some?
    ensures Inv(HostStep(s, HostAct.Size).value)
  {
  }

  lemma MarkKeeps(s: State)
    requires Inv(s) && HostStep(s, HostAct.Mark).Some?
    ensures Inv(HostStep(s, HostAct.Mark).value)
  {
  }

  lemma SetKeeps(s: State)
    requires Inv(s) && HostStep(s, HostAct.Set).Some?
    ensures Inv(HostStep(s, HostAct.Set).value)
  {
  }

  lemma HostFailedKeeps(s: State, text: seq<Byte>)
    requires Inv(s) && HostStep(s, HostAct.HostFailed(text)).Some?
    ensures Inv(HostStep(s, HostAct.HostFailed(text)).value)
  {
  }

  lemma SettleKeeps(s: State, reply: Reply)
    requires Inv(s) && HostStep(s, HostAct.Settle(reply)).Some?
    ensures Inv(HostStep(s, HostAct.Settle(reply)).value)
  {
  }

  lemma TakenKeeps(s: State, inline: bool)
    requires Inv(s) && s.job == Compared(inline, s.sequence) && s.sequence != s.served
    ensures Inv(s.(served := s.sequence, job := Serving(inline)))
  {
  }

  lemma NothingInlineKeeps(s: State)
    requires Inv(s) && s.job == Compared(true, s.served)
    ensures Inv(s.(job := Elsewhere))
  {
  }

  lemma ParkKeeps(s: State)
    requires Inv(s) && s.job == Compared(false, s.served) && s.sequence == s.served
    ensures Inv(s.(job := Elsewhere, server := Parked))
  {
  }

  lemma AgainKeeps(s: State)
    requires Inv(s) && s.job == Compared(false, s.served)
    ensures Inv(s.(job := Looping))
  {
  }

  lemma CompareKeeps(s: State)
    requires Inv(s) && s.job.Compared?
    ensures Inv(CompareStep(s, s.job.inline, s.job.seen))
  {
    var inline, seen := s.job.inline, s.job.seen;
    SeenIsOne(s);
    hide Inv;
    if seen != s.served {
      TakenKeeps(s, inline);
    } else if inline {
      NothingInlineKeeps(s);
    } else if s.sequence == seen {
      ParkKeeps(s);
    } else {
      AgainKeeps(s);
    }
  }

  lemma SeenIsOne(s: State)
    requires Inv(s) && s.job.Compared?
    ensures s.job.seen == s.served || s.job.seen == s.sequence
  {
  }

  // ---- Serving ----

  lemma FetchKeeps(s: State, after: After)
    requires Inv(s) && s.job.Serving? && s.posted.Fetch? && after == (if s.job.inline then ThenElsewhere else ThenLoop)
    ensures s.kept.Some?
    ensures Inv(s.(kept := None, job := Sized(after, s.kept.value)))
  {
  }

  lemma AnswerKeeps(s: State, after: After, reply: Reply)
    requires Inv(s) && s.job.Serving? && s.posted.Ask? && (after.ThenElsewhere? <==> s.job.inline)
    ensures Inv(Answer(Dispatch(s, s.posted.call, s.posted.request), s.posted.call, after, reply))
  {
  }

  lemma LoadingKeeps(s: State)
    requires Inv(s) && s.job == Serving(false) && s.posted.Ask?
    ensures Inv(s.(server := Loading(s.posted.call, s.posted.request), job := Elsewhere))
  {
  }

  lemma AwaitingKeeps(s: State)
    requires Inv(s) && s.job == Serving(false) && s.posted.Ask?
    ensures Inv(Dispatch(s, s.posted.call, s.posted.request).(server := Awaiting(s.posted.call), job := Elsewhere))
  {
  }

  lemma ServeKeeps(s: State, outcome: Outcome, text: seq<Byte>)
    requires Inv(s) && s.job.Serving? && ServeStep(s, s.job.inline, outcome, text).Some?
    ensures Inv(ServeStep(s, s.job.inline, outcome, text).value)
  {
    hide Inv, Answer, Dispatch;
    var after := if s.job.inline then ThenElsewhere else ThenLoop;
    match s.posted
    case Fetch => FetchKeeps(s, after);
    case Ask(call, r) =>
      if s.job.inline {
        match outcome
        case Now(reply) => AnswerKeeps(s, after, reply);
        case Thrown(message) => AnswerKeeps(s, after, Reply(2, message));
        case Later => AnswerKeeps(s, after, Substitute(r, text));
      } else if !s.host {
        LoadingKeeps(s);
      } else {
        match outcome
        case Now(reply) => AnswerKeeps(s, after, reply);
        case Thrown(message) => AnswerKeeps(s, ThenRunnable, Reply(2, message));
        case Later => AwaitingKeeps(s);
      }
  }

  // ---- Replying ----

  lemma LargeKeeps(s: State)
    requires Inv(s) && s.job.Copying? && |s.job.reply.bytes| > |s.buffer|
    ensures Inv(s.(kept := Some(s.job.reply), job := Marking(s.job.after, 3)))
  {
  }

  lemma FitsKeeps(s: State)
    requires Inv(s) && s.job.Copying? && |s.job.reply.bytes| <= |s.buffer|
    ensures Inv(s.(buffer := s.job.reply.bytes + s.buffer[|s.job.reply.bytes|..], job := Marking(s.job.after, s.job.reply.status)))
  {
    var bytes := s.job.reply.bytes;
    var buffer := bytes + s.buffer[|bytes|..];
    assert |buffer| == |s.buffer| && buffer[..|bytes|] == bytes;
  }

  lemma CopyKeeps(s: State)
    requires Inv(s) && s.job.Copying?
    ensures Inv(CopyReply(s, s.job.after, s.job.reply))
  {
    hide Inv;
    if |s.job.reply.bytes| > |s.buffer| {
      LargeKeeps(s);
    } else {
      FitsKeeps(s);
    }
  }

  lemma RouseKeeps(s: State)
    requires Inv(s) && s.client.Asleep?
    ensures Inv(s.(client := Testing))
  {
  }

  lemma EndLoopKeeps(s: State)
    requires Inv(s) && s.job == Waking(ThenLoop) && !s.client.Asleep?
    ensures Inv(s.(job := Looping))
  {
  }

  lemma EndPromiseKeeps(s: State)
    requires Inv(s) && s.job == Waking(ThenRunnable) && !s.client.Asleep?
    ensures Inv(s.(job := Elsewhere, server := Runnable))
  {
  }

  lemma EndInlineKeeps(s: State)
    requires Inv(s) && s.job == Waking(ThenElsewhere) && !s.client.Asleep?
    ensures Inv(s.(job := Elsewhere))
  {
  }

  lemma EndKeeps(s: State)
    requires Inv(s) && s.job.Waking? && !s.client.Asleep?
    ensures Inv(AfterReply(s, s.job.after))
  {
    hide Inv;
    match s.job.after
    case ThenLoop => EndLoopKeeps(s);
    case ThenRunnable => EndPromiseKeeps(s);
    case ThenElsewhere => EndInlineKeeps(s);
  }

  lemma WakeKeeps(s: State)
    requires Inv(s) && s.job.Waking?
    ensures Inv(AfterReply(if s.client.Asleep? then s.(client := Testing) else s, s.job.after))
  {
    hide Inv, AfterReply;
    if s.client.Asleep? {
      RouseKeeps(s);
      EndKeeps(s.(client := Testing));
    } else {
      EndKeeps(s);
    }
  }

  // ---- Starting to serve ----

  lemma RegisterKnownKeeps(s: State)
    requires Inv(s) && s.job.Elsewhere? && s.message && s.known
    ensures Inv(s.(message := false, registered := true, server := Runnable))
  {
  }

  lemma RegisterNewKeeps(s: State)
    requires Inv(s) && s.job.Elsewhere? && s.message && !s.known
    ensures Inv(s.(message := false, known := true, registered := true, served := 0, server := Runnable))
  {
  }

  lemma RegisterKeeps(s: State)
    requires Inv(s) && HostStep(s, Register).Some?
    ensures Inv(HostStep(s, Register).value)
  {
    hide Inv;
    if s.known {
      RegisterKnownKeeps(s);
    } else {
      RegisterNewKeeps(s);
    }
  }

  lemma InlineKnownKeeps(s: State)
    requires Inv(s) && s.job.Elsewhere? && s.host && s.known
    ensures Inv(s.(job := Compared(true, s.sequence)))
  {
  }

  lemma InlineNewKeeps(s: State)
    requires Inv(s) && s.job.Elsewhere? && s.host && !s.known && s.linked
    ensures Inv(s.(known := true, served := 0, job := Compared(true, s.sequence)))
  {
  }

  lemma ServeInlineKeeps(s: State)
    requires Inv(s) && HostStep(s, ServeInline).Some?
    ensures Inv(HostStep(s, ServeInline).value)
  {
    hide Inv;
    if s.known {
      InlineKnownKeeps(s);
    } else {
      InlineNewKeeps(s);
    }
  }

  lemma LoadedNowKeeps(s: State, reply: Reply)
    requires Inv(s) && s.job.Elsewhere? && s.server.Loading?
    ensures Inv(Answer(Dispatch(s, s.server.call, s.server.request).(host := true), s.server.call, ThenRunnable, reply).(server := Active))
  {
  }

  lemma LoadedLaterKeeps(s: State)
    requires Inv(s) && s.job.Elsewhere? && s.server.Loading?
    ensures Inv(Dispatch(s, s.server.call, s.server.request).(host := true).(server := Awaiting(s.server.call)))
  {
  }

  lemma HostLoadedKeeps(s: State, outcome: Outcome)
    requires Inv(s) && HostStep(s, HostLoaded(outcome)).Some?
    ensures Inv(HostStep(s, HostLoaded(outcome)).value)
  {
    hide Inv, Answer, Dispatch;
    match outcome
    case Now(reply) => LoadedNowKeeps(s, reply);
    case Thrown(message) => LoadedNowKeeps(s, Reply(2, message));
    case Later => LoadedLaterKeeps(s);
  }

  // ---- Every step, every run ----

  lemma ClientKeeps(s: State, a: ClientAct)
    requires Inv(s) && ClientStep(s, a).Some?
    ensures Inv(ClientStep(s, a).value)
  {
    hide Inv, ClientStep;
    match a
    case Make => MakeKeeps(s);
    case Link => LinkKeeps(s);
    case Begin(r) => BeginKeeps(s, r);
    case Fill => FillKeeps(s);
    case Clear => ClearKeeps(s);
    case Count => CountKeeps(s);
    case Notify => NotifyKeeps(s);
    case Test => TestKeeps(s);
    case Sleep => SleepKeeps(s);
    case Stir => StirKeeps(s);
    case ReadStatus => ReadStatusKeeps(s);
    case ReadLength => ReadLengthKeeps(s);
    case Grow(bytes) => GrowKeeps(s, bytes);
    case Take => TakeKeeps(s);
  }

  lemma JobOf(s: State, a: HostAct)
    requires HostStep(s, a).Some?
    ensures a.Compare? ==> s.job.Compared? && HostStep(s, a).value == CompareStep(s, s.job.inline, s.job.seen)
    ensures a.Serve? ==> s.job.Serving? && HostStep(s, a) == ServeStep(s, s.job.inline, a.outcome, a.text)
    ensures a.Copy? ==> s.job.Copying? && HostStep(s, a).value == CopyReply(s, s.job.after, s.job.reply)
    ensures a.Wake? ==>
              && s.job.Waking?
              && HostStep(s, a).value == AfterReply(if s.client.Asleep? then s.(client := Testing) else s, s.job.after)
  {
    hide CompareStep, ServeStep, CopyReply, AfterReply;
  }

  lemma HostKeeps(s: State, a: HostAct)
    requires Inv(s) && HostStep(s, a).Some?
    ensures Inv(HostStep(s, a).value)
  {
    hide Inv, HostStep, CompareStep, ServeStep, CopyReply, AfterReply;
    JobOf(s, a);
    match a
    case Register => RegisterKeeps(s);
    case Resume => ResumeKeeps(s);
    case Load => LoadKeeps(s);
    case Compare => CompareKeeps(s);
    case Serve(outcome, text) => ServeKeeps(s, outcome, text);
    case HostLoaded(outcome) => HostLoadedKeeps(s, outcome);
    case HostFailed(text) => HostFailedKeeps(s, text);
    case HostReady => HostReadyKeeps(s);
    case Settle(reply) => SettleKeeps(s, reply);
    case ServeInline => ServeInlineKeeps(s);
    case Size => SizeKeeps(s);
    case Copy => CopyKeeps(s);
    case Mark => MarkKeeps(s);
    case Set => SetKeeps(s);
    case Wake => WakeKeeps(s);
  }

  lemma StepKeeps(s: State, a: Action)
    requires Inv(s) && Step(s, a).Some?
    ensures Inv(Step(s, a).value)
  {
    hide Inv, ClientStep, HostStep;
    match a
    case Thread(c) => ClientKeeps(s, c);
    case Host(h) => HostKeeps(s, h);
  }

  lemma {:induction false} RunKeeps(s: State, acts: seq<Action>)
    requires Inv(s) && Run(s, acts).Some?
    ensures Inv(Run(s, acts).value)
  {
    hide Inv, Step;
    if acts != [] {
      RunKeeps(s, acts[..|acts| - 1]);
      StepKeeps(Run(s, acts[..|acts| - 1]).value, acts[|acts| - 1]);
    }
  }
}
