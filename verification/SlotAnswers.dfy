/** What a call of the slot protocol returns: the outcome that the host gave for it. */
module SlotAnswers {
  import opened Bytes
  import opened Wrappers
  import opened SlotMachine
  import opened SlotInvariant
  import opened SlotSteps
  import opened SlotTheorems

  // ---- One step ----

  /** A request that is served at once, or inline, is dispatched and answered by the outcome:
      a reply as it is, an exception as a failure with its text. Inline, an operation that
      returned a promise counts as done if it is a write or a flush (kind 0, operations 3 and 4)
      and is answered as an error otherwise; the asynchronous server waits for the promise. */
  lemma Served(s: State, inline: bool, outcome: Outcome, text: seq<Byte>)
    requires Inv(s) && s.job == Serving(inline) && s.posted.Ask? && (inline || s.host)
    ensures var after := HostStep(s, Serve(outcome, text)); var c, r := s.posted.call, s.posted.request;
            && after.Some?
            && after.value.asked == s.asked && after.value.dispatched == s.dispatched + [Dispatched(c, r)]
            && (outcome.Now? ==> after.value.answers == s.answers[c := outcome.reply])
            && (outcome.Thrown? ==> after.value.answers == s.answers[c := Reply(2, outcome.message)])
            && (outcome.Later? && inline ==>
                  after.value.answers == s.answers[c := if r.kind == 0 && (r.operation == 3 || r.operation == 4) then Reply(0, []) else Reply(1, text)])
            && (outcome.Later? && !inline ==> after.value.answers == s.answers && after.value.server == Awaiting(c))
  {
    hide Inv;
    if inline {
      ServedInline(s, outcome, text);
    } else {
      ServedInTurn(s, outcome, text);
    }
  }

  lemma ServedInline(s: State, outcome: Outcome, text: seq<Byte>)
    requires s.job == Serving(true) && s.posted.Ask?
    ensures var after := HostStep(s, Serve(outcome, text)); var c, r := s.posted.call, s.posted.request;
            && after.Some?
            && after.value.asked == s.asked && after.value.dispatched == s.dispatched + [Dispatched(c, r)]
            && (outcome.Now? ==> after.value.answers == s.answers[c := outcome.reply])
            && (outcome.Thrown? ==> after.value.answers == s.answers[c := Reply(2, outcome.message)])
            && (outcome.Later? ==>
                  after.value.answers == s.answers[c := if r.kind == 0 && (r.operation == 3 || r.operation == 4) then Reply(0, []) else Reply(1, text)])
  {
    match outcome
    case Now(_) => case Thrown(_) => case Later =>
  }

  lemma ServedInTurn(s: State, outcome: Outcome, text: seq<Byte>)
    requires s.job == Serving(false) && s.posted.Ask? && s.host
    ensures var after := HostStep(s, Serve(outcome, text)); var c, r := s.posted.call, s.posted.request;
            && after.Some?
            && after.value.asked == s.asked && after.value.dispatched == s.dispatched + [Dispatched(c, r)]
            && (outcome.Now? ==> after.value.answers == s.answers[c := outcome.reply])
            && (outcome.Thrown? ==> after.value.answers == s.answers[c := Reply(2, outcome.message)])
            && (outcome.Later? ==> after.value.answers == s.answers && after.value.server == Awaiting(c))
  {
    match outcome
    case Now(_) => case Thrown(_) => case Later =>
  }

  /** A request for a host that is not loaded waits for it, with what it asks for. */
  lemma ServedLater(s: State, outcome: Outcome, text: seq<Byte>)
    requires Inv(s) && s.job == Serving(false) && s.posted.Ask? && !s.host
    ensures var after := HostStep(s, Serve(outcome, text));
            && after.Some?
            && after.value.asked == s.asked && after.value.dispatched == s.dispatched && after.value.answers == s.answers
            && after.value.server == Loading(s.posted.call, s.posted.request)
  {
    hide Inv;
  }

  /** The second exchange answers nothing anew. */
  lemma ServedAgain(s: State, outcome: Outcome, text: seq<Byte>)
    requires Inv(s) && s.job.Serving? && s.posted.Fetch?
    ensures var after := HostStep(s, Serve(outcome, text));
            after.Some? && after.value.asked == s.asked && after.value.dispatched == s.dispatched && after.value.answers == s.answers && after.value.server == s.server
  {
    KeptThere(s);
    hide Inv;
    if s.job.inline {
      AgainFrom(s, true, outcome, text);
    } else {
      AgainFrom(s, false, outcome, text);
    }
  }

  lemma KeptThere(s: State)
    requires Inv(s) && s.job.Serving? && s.posted.Fetch?
    ensures s.kept.Some?
  {
    hide HistoryOk, WakeOk;
  }

  lemma AgainFrom(s: State, inline: bool, outcome: Outcome, text: seq<Byte>)
    requires s.job == Serving(inline) && s.posted.Fetch? && s.kept.Some?
    ensures var after := HostStep(s, Serve(outcome, text));
            after.Some? && after.value.asked == s.asked && after.value.dispatched == s.dispatched && after.value.answers == s.answers && after.value.server == s.server
  {
  }

  /** Once the host is loaded the request is dispatched. */
  lemma Loaded(s: State, outcome: Outcome)
    requires Inv(s) && s.job.Elsewhere? && s.server.Loading?
    ensures var after := HostStep(s, HostLoaded(outcome)); var c := s.server.call;
            && after.Some?
            && after.value.asked == s.asked && after.value.dispatched == s.dispatched + [Dispatched(c, s.server.request)]
            && (outcome.Now? ==> after.value.answers == s.answers[c := outcome.reply])
            && (outcome.Thrown? ==> after.value.answers == s.answers[c := Reply(2, outcome.message)])
            && (outcome.Later? ==> after.value.answers == s.answers && after.value.server == Awaiting(c))
  {
    hide Inv;
    match outcome
    case Now(_) => case Thrown(_) => case Later =>
  }

  /** If it cannot be loaded the request fails. */
  lemma LoadFailed(s: State, text: seq<Byte>)
    requires Inv(s) && s.job.Elsewhere? && s.server.Loading?
    ensures var after := HostStep(s, HostFailed(text));
            after.Some? && after.value.asked == s.asked && after.value.dispatched == s.dispatched && after.value.answers == s.answers[s.server.call := Reply(2, text)]
  {
    hide Inv;
  }

  /** A promise that settles answers the call that waits for it. */
  lemma SettledReply(s: State, reply: Reply)
    requires Inv(s) && s.job.Elsewhere? && s.server.Awaiting?
    ensures var after := HostStep(s, Settle(reply));
            after.Some? && after.value.asked == s.asked && after.value.dispatched == s.dispatched && after.value.answers == s.answers[s.server.call := reply]
  {
    hide Inv;
  }

  /** All other steps of the host neither dispatch nor answer, and nobody begins to wait. */
  lemma OtherSteps(s: State, h: HostAct)
    requires Inv(s) && HostStep(s, h).Some? && !h.Serve? && !h.HostLoaded? && !h.HostFailed? && !h.Settle?
    ensures var after := HostStep(s, h).value;
            && after.dispatched == s.dispatched && after.answers == s.answers && after.asked == s.asked
            && (after.server.Awaiting? ==> after.server == s.server)
  {
    hide Inv;
    OtherJobs(s, h);
  }

  lemma OtherJobs(s: State, h: HostAct)
    requires HostStep(s, h).Some? && !h.Serve? && !h.HostLoaded? && !h.HostFailed? && !h.Settle?
    ensures SameHistory(s, HostStep(s, h).value)
  {
    hide HostStep, ServeStep, CompareStep, CopyReply, AfterReply, SameHistory;
    JobOf(s, h);
    match h
    case Compare => CompareSame(s, s.job.inline, s.job.seen);
    case Copy => CopySame(s, s.job.after, s.job.reply);
    case Wake => WakeSame(s, s.job.after);
    case _ => PlainSame(s, h);
  }

  predicate SameHistory(s: State, t: State) {
    t.dispatched == s.dispatched && t.answers == s.answers && t.asked == s.asked && (t.server.Awaiting? ==> t.server == s.server)
  }

  lemma PlainSame(s: State, h: HostAct)
    requires HostStep(s, h).Some?
    requires h.Register? || h.Resume? || h.Load? || h.HostReady? || h.ServeInline? || h.Size? || h.Mark? || h.Set?
    ensures SameHistory(s, HostStep(s, h).value)
  {
    hide ServeStep, CompareStep, CopyReply, AfterReply;
  }

  lemma CompareTaken(s: State, inline: bool, seen: nat)
    requires seen != s.served
    ensures SameHistory(s, CompareStep(s, inline, seen))
  {
  }

  lemma CompareInline(s: State)
    ensures SameHistory(s, CompareStep(s, true, s.served))
  {
  }

  lemma ComparePark(s: State)
    requires s.sequence == s.served
    ensures SameHistory(s, CompareStep(s, false, s.served))
  {
  }

  lemma CompareAgain(s: State)
    requires s.sequence != s.served
    ensures SameHistory(s, CompareStep(s, false, s.served))
  {
  }

  lemma CompareSame(s: State, inline: bool, seen: nat)
    ensures SameHistory(s, CompareStep(s, inline, seen))
  {
    hide CompareStep, SameHistory;
    if seen != s.served {
      CompareTaken(s, inline, seen);
    } else if inline {
      CompareInline(s);
    } else if s.sequence == s.served {
      ComparePark(s);
    } else {
      CompareAgain(s);
    }
  }

  lemma CopySame(s: State, after: After, reply: Reply)
    ensures SameHistory(s, CopyReply(s, after, reply))
  {
    if |reply.bytes| > |s.buffer| {
      assert CopyReply(s, after, reply) == s.(kept := Some(reply), job := Marking(after, 3));
    } else {
      assert CopyReply(s, after, reply) == s.(buffer := reply.bytes + s.buffer[|reply.bytes|..], job := Marking(after, reply.status));
    }
  }

  lemma AfterSame(s: State, after: After)
    ensures SameHistory(s, AfterReply(s, after))
  {
    match after
    case ThenLoop => case ThenRunnable => case ThenElsewhere =>
  }

  lemma RoseSame(s: State, t: State)
    requires SameHistory(s.(client := Testing), t)
    ensures SameHistory(s, t)
  {
  }

  lemma WakeSame(s: State, after: After)
    ensures SameHistory(s, AfterReply(if s.client.Asleep? then s.(client := Testing) else s, after))
  {
    hide AfterReply, SameHistory;
    if s.client.Asleep? {
      AfterSame(s.(client := Testing), after);
      RoseSame(s, AfterReply(s.(client := Testing), after));
    } else {
      AfterSame(s, after);
    }
  }

  // The thread's part of it: it may ask for something.
  predicate SameBut(s: State, t: State, more: seq<Request>) {
    t.dispatched == s.dispatched && t.answers == s.answers && t.asked == s.asked + more && (t.server.Awaiting? ==> t.server == s.server)
  }

  lemma BeginSame(s: State, r: Request)
    requires ClientStep(s, ClientAct.Begin(r)).Some?
    ensures SameBut(s, ClientStep(s, ClientAct.Begin(r)).value, [r])
  {
  }

  lemma PostingSame(s: State, c: ClientAct)
    requires ClientStep(s, c).Some? && (c.Make? || c.Link? || c.Fill? || c.Clear?)
    ensures SameBut(s, ClientStep(s, c).value, [])
  {
  }

  lemma WaitingSame(s: State, c: ClientAct)
    requires ClientStep(s, c).Some? && (c.Count? || c.Notify? || c.Test? || c.Sleep? || c.Stir?)
    ensures SameBut(s, ClientStep(s, c).value, [])
  {
  }

  lemma ReadingSame(s: State, c: ClientAct)
    requires ClientStep(s, c).Some? && (c.ReadStatus? || c.ReadLength? || c.Grow?)
    ensures SameBut(s, ClientStep(s, c).value, [])
  {
  }

  lemma TakesWhen(s: State)
    requires ClientStep(s, Take).Some?
    ensures s.client.Taking?
  {
  }

  lemma OverranSame(s: State, status: int, size: nat)
    requires s.client == Taking(status, size) && size > |s.buffer| && ClientStep(s, Take).Some?
    ensures SameBut(s, ClientStep(s, Take).value, [])
  {
  }

  lemma TookSame(s: State, status: int, size: nat)
    requires s.client == Taking(status, size) && size <= |s.buffer| && ClientStep(s, Take).Some?
    ensures SameBut(s, ClientStep(s, Take).value, [])
  {
  }

  lemma TakingSame(s: State)
    requires ClientStep(s, Take).Some?
    ensures SameBut(s, ClientStep(s, Take).value, [])
  {
    TakesWhen(s);
    hide ClientStep, SameBut;
    if s.client.size > |s.buffer| {
      OverranSame(s, s.client.status, s.client.size);
    } else {
      TookSame(s, s.client.status, s.client.size);
    }
  }

  /** The thread's steps neither dispatch nor answer. */
  lemma ThreadSteps(s: State, c: ClientAct)
    requires ClientStep(s, c).Some?
    ensures var after := ClientStep(s, c).value;
            && after.dispatched == s.dispatched && after.answers == s.answers
            && after.asked == s.asked + (if c.Begin? then [c.request] else [])
            && (after.server.Awaiting? ==> after.server == s.server)
  {
    hide ClientStep;
    match c
    case Begin(r) => BeginSame(s, r);
    case Take => TakingSame(s);
    case Count => WaitingSame(s, c);
    case Notify => WaitingSame(s, c);
    case Test => WaitingSame(s, c);
    case Sleep => WaitingSame(s, c);
    case Stir => WaitingSame(s, c);
    case ReadStatus => ReadingSame(s, c);
    case ReadLength => ReadingSame(s, c);
    case Grow(_) => ReadingSame(s, c);
    case _ => PostingSame(s, c);
  }

  // ---- Answers over a run ----

  /** The host's step in the state `s` gives call `c` this status and these bytes. */
  predicate Gives(s: State, h: HostAct, c: nat, status: int, bytes: seq<Byte>) {
    match h
    case Serve(outcome, text) =>
      && s.job.Serving? && s.posted.Ask? && s.posted.call == c && (s.job.inline || s.host)
      && (match outcome
          case Now(reply) => status == reply.status && bytes == reply.bytes
          case Thrown(message) => status == 2 && bytes == message
          case Later =>
            && s.job.inline
            && if s.posted.request.kind == 0 && (s.posted.request.operation == 3 || s.posted.request.operation == 4)
               then status == 0 && bytes == [] else status == 1 && bytes == text)
    case HostLoaded(outcome) =>
      && s.server.Loading? && s.server.call == c
      && (match outcome
          case Now(reply) => status == reply.status && bytes == reply.bytes
          case Thrown(message) => status == 2 && bytes == message
          case Later => false)
    case HostFailed(text) => s.server.Loading? && s.server.call == c && status == 2 && bytes == text
    case Settle(reply) => s.server.Awaiting? && s.server.call == c && status == reply.status && bytes == reply.bytes
    case _ => false
  }

  // Asked for in this order.
  function Begun(acts: seq<Action>): seq<Request> {
    if acts == [] then []
    else Begun(acts[..|acts| - 1]) + if acts[|acts| - 1].Thread? && acts[|acts| - 1].c.Begin? then [acts[|acts| - 1].c.request] else []
  }

  predicate IsDispatched(s: State, c: nat) {
    exists i :: 0 <= i < |s.dispatched| && s.dispatched[i].call == c
  }

  // One step of a run, seen from the answers: the calls in `t.answers` that `s` had not are
  // given by the step; what waits for a promise was dispatched.
  ghost predicate Goes(s: State, a: Action, t: State) {
    && (forall c :: c in s.answers ==> c in t.answers && t.answers[c] == s.answers[c])
    && (forall c :: c in t.answers && c !in s.answers ==>
          a.Host? && Gives(s, a.h, c, t.answers[c].status, t.answers[c].bytes) &&
          (IsDispatched(t, c) || a.h.HostFailed? || (a.h.Settle? && s.server == Awaiting(c))))
    && (forall c :: IsDispatched(s, c) ==> IsDispatched(t, c))
    && (t.server.Awaiting? ==> t.server == s.server || IsDispatched(t, t.server.call))
    && t.asked == s.asked + if a.Thread? && a.c.Begin? then [a.c.request] else []
  }

  lemma MoreDispatched(s: State, t: State, d: Dispatched)
    requires t.dispatched == s.dispatched + [d]
    ensures IsDispatched(t, d.call) && forall c :: IsDispatched(s, c) ==> IsDispatched(t, c)
  {
    assert t.dispatched[|s.dispatched|] == d;
    assert forall i :: 0 <= i < |s.dispatched| ==> t.dispatched[i] == s.dispatched[i];
  }

  // Who is about to be answered has no answer.
  lemma NotAnswered(s: State)
    requires Inv(s)
    ensures s.job.Serving? && s.posted.Ask? ==> s.posted.call == Current(s) && Current(s) !in s.answers
    ensures s.job.Elsewhere? && (s.server.Loading? || s.server.Awaiting?) ==> s.server.call == Current(s) && Current(s) !in s.answers
  {
    hide HistoryOk, WakeOk;
  }

  lemma ServeGoes(s: State, outcome: Outcome, text: seq<Byte>)
    requires Inv(s) && HostStep(s, Serve(outcome, text)).Some?
    ensures Goes(s, Host(Serve(outcome, text)), HostStep(s, Serve(outcome, text)).value)
  {
    var h := Serve(outcome, text);
    ServesWhen(s, outcome, text);
    NotAnswered(s);
    hide Inv, HostStep;
    var t := HostStep(s, h).value;
    if s.posted.Fetch? {
      ServedAgain(s, outcome, text);
    } else if !s.job.inline && !s.host {
      ServedLater(s, outcome, text);
    } else {
      Served(s, s.job.inline, outcome, text);
      MoreDispatched(s, t, Dispatched(s.posted.call, s.posted.request));
    }
  }

  lemma ServesWhen(s: State, outcome: Outcome, text: seq<Byte>)
    requires HostStep(s, Serve(outcome, text)).Some?
    ensures s.job.Serving? && !s.posted.Torn?
  {
  }

  lemma LoadedGoes(s: State, outcome: Outcome)
    requires Inv(s) && HostStep(s, HostLoaded(outcome)).Some?
    ensures Goes(s, Host(HostLoaded(outcome)), HostStep(s, HostLoaded(outcome)).value)
  {
    var h := HostLoaded(outcome);
    assert s.job.Elsewhere? && s.server.Loading?;
    NotAnswered(s);
    hide Inv, HostStep;
    Loaded(s, outcome);
    MoreDispatched(s, HostStep(s, h).value, Dispatched(s.server.call, s.server.request));
  }

  lemma FailedGoes(s: State, text: seq<Byte>)
    requires Inv(s) && HostStep(s, HostFailed(text)).Some?
    ensures Goes(s, Host(HostFailed(text)), HostStep(s, HostFailed(text)).value)
  {
    assert s.job.Elsewhere? && s.server.Loading?;
    NotAnswered(s);
    FailedServer(s, text);
    hide Inv, HostStep;
    LoadFailed(s, text);
  }

  lemma FailedServer(s: State, text: seq<Byte>)
    requires HostStep(s, HostFailed(text)).Some?
    ensures HostStep(s, HostFailed(text)).value.server.Active?
  {
  }

  lemma SettleGoes(s: State, reply: Reply)
    requires Inv(s) && HostStep(s, Settle(reply)).Some?
    ensures Goes(s, Host(Settle(reply)), HostStep(s, Settle(reply)).value)
  {
    assert s.job.Elsewhere? && s.server.Awaiting?;
    NotAnswered(s);
    SettledServer(s, reply);
    hide Inv, HostStep;
    SettledReply(s, reply);
  }

  lemma SettledServer(s: State, reply: Reply)
    requires HostStep(s, Settle(reply)).Some?
    ensures HostStep(s, Settle(reply)).value.server.Active?
  {
  }

  lemma StepGoes(s: State, a: Action)
    requires Inv(s) && Step(s, a).Some?
    ensures Goes(s, a, Step(s, a).value)
  {
    hide Inv, HostStep, ClientStep;
    match a
    case Thread(c) => ThreadSteps(s, c);
    case Host(h) =>
      if h.Serve? || h.HostLoaded? || h.HostFailed? || h.Settle? {
        hide Goes;
        match h
        case Serve(outcome, text) => ServeGoes(s, outcome, text);
        case HostLoaded(outcome) => LoadedGoes(s, outcome);
        case HostFailed(text) => FailedGoes(s, text);
        case Settle(reply) => SettleGoes(s, reply);
      } else {
        OtherSteps(s, h);
      }
  }

  /** An answer is given once: no later step replaces it. */
  lemma AnswerStays(s: State, a: Action, c: nat)
    requires Inv(s) && Step(s, a).Some? && c in s.answers
    ensures c in Step(s, a).value.answers && Step(s, a).value.answers[c] == s.answers[c]
  {
    hide Inv, Step;
    StepGoes(s, a);
  }

  // The state before the `i`-th action.
  lemma {:induction false} PrefixRuns(s: State, acts: seq<Action>, i: nat)
    requires Run(s, acts).Some? && i <= |acts|
    ensures Run(s, acts[..i]).Some?
    decreases |acts|
  {
    hide Step;
    if i == |acts| {
      assert acts[..i] == acts;
    } else {
      PrefixRuns(s, acts[..|acts| - 1], i);
      assert acts[..|acts| - 1][..i] == acts[..i];
    }
  }

  // What a run has given so far.
  ghost predicate Given(start: State, acts: seq<Action>, s: State) {
    && (forall c :: c in s.answers ==> GivenBy(start, acts, c, s.answers[c].status, s.answers[c].bytes))
    && (forall c :: c in s.answers ==> IsDispatched(s, c) || FailedBy(start, acts, c))
    && (s.server.Awaiting? ==> IsDispatched(s, s.server.call))
    && s.asked == Begun(acts)
  }

  /** Some step of the run gave call `c` this status and these bytes. */
  ghost predicate GivenBy(start: State, acts: seq<Action>, c: nat, status: int, bytes: seq<Byte>) {
    exists i :: 0 <= i < |acts| && acts[i].Host? && Run(start, acts[..i]).Some? && Gives(Run(start, acts[..i]).value, acts[i].h, c, status, bytes)
  }

  /** The host could not be loaded for call `c`. */
  ghost predicate FailedBy(start: State, acts: seq<Action>, c: nat) {
    exists i :: 0 <= i < |acts| && acts[i].Host? && acts[i].h.HostFailed? && Run(start, acts[..i]).Some?
      && Run(start, acts[..i]).value.server.Loading? && Run(start, acts[..i]).value.server.call == c
  }

  lemma GivenLater(start: State, acts: seq<Action>, more: seq<Action>)
    requires acts <= more
    ensures forall c, status, bytes :: GivenBy(start, acts, c, status, bytes) ==> GivenBy(start, more, c, status, bytes)
    ensures forall c :: FailedBy(start, acts, c) ==> FailedBy(start, more, c)
  {
    hide Run, Gives;
    assert forall i :: 0 <= i < |acts| ==> more[i] == acts[i] && more[..i] == acts[..i];
  }

  lemma GivenNow(start: State, acts: seq<Action>, s: State, h: HostAct, c: nat, status: int, bytes: seq<Byte>)
    requires acts != [] && acts[|acts| - 1] == Host(h) && Run(start, acts[..|acts| - 1]) == Some(s) && Gives(s, h, c, status, bytes)
    ensures GivenBy(start, acts, c, status, bytes) && (h.HostFailed? ==> FailedBy(start, acts, c))
  {
    hide Run;
    var i := |acts| - 1;
    assert acts[i].Host?;
  }

  lemma GivenStep(start: State, acts: seq<Action>, s: State, t: State)
    requires acts != [] && Run(start, acts[..|acts| - 1]) == Some(s) && Given(start, acts[..|acts| - 1], s) && Goes(s, acts[|acts| - 1], t)
    ensures Given(start, acts, t)
  {
    hide Run, Gives, GivenBy, FailedBy, IsDispatched;
    var a := acts[|acts| - 1];
    GivenLater(start, acts[..|acts| - 1], acts);
    forall c | c in t.answers
      ensures GivenBy(start, acts, c, t.answers[c].status, t.answers[c].bytes)
      ensures IsDispatched(t, c) || FailedBy(start, acts, c)
    {
      if c !in s.answers {
        GivenNow(start, acts, s, a.h, c, t.answers[c].status, t.answers[c].bytes);
      }
    }
  }

  lemma {:induction false} RunGives(deep: bool, host: bool, buffer: seq<Byte>, acts: seq<Action>, s: State)
    requires Reaches(deep, host, buffer, acts, s)
    ensures Given(Init(deep, host, buffer), acts, s)
  {
    hide Step, Inv, Given, Goes;
    var start := Init(deep, host, buffer);
    if acts == [] {
      StartGives(deep, host, buffer);
    } else {
      var before := Run(start, acts[..|acts| - 1]).value;
      ReachedInv(deep, host, buffer, acts[..|acts| - 1], before);
      RunGives(deep, host, buffer, acts[..|acts| - 1], before);
      StepGoes(before, acts[|acts| - 1]);
      GivenStep(start, acts, before, s);
    }
  }

  lemma StartGives(deep: bool, host: bool, buffer: seq<Byte>)
    ensures Given(Init(deep, host, buffer), [], Init(deep, host, buffer))
  {
  }

  /** Exactly the calls that are over have returned. Each was begun with the thread's own request,
      and dispatched unless the host could not be loaded; and its status and bytes are those that
      the host gave for it, in the step that `Gives` describes. */
  lemma ReplyIsTheAnswer(deep: bool, host: bool, buffer: seq<Byte>, acts: seq<Action>, s: State)
    requires Reaches(deep, host, buffer, acts, s)
    ensures s.asked == Begun(acts)
    ensures forall c :: c in s.returned <==> 0 <= c < if InCall(s) then |s.asked| - 1 else |s.asked|
    ensures forall c :: c in s.returned ==> GivenBy(Init(deep, host, buffer), acts, c, s.returned[c].status, s.returned[c].bytes)
    ensures forall c :: c in s.returned ==>
              || (exists i :: 0 <= i < |s.dispatched| && s.dispatched[i] == Dispatched(c, Begun(acts)[c]))
              || FailedBy(Init(deep, host, buffer), acts, c)
  {
    ReachedInv(deep, host, buffer, acts, s);
    RunGives(deep, host, buffer, acts, s);
    hide JobsOk, SequenceOk, PostedOk, ReplyOk, WakeOk, Run, Init, GivenBy, FailedBy;
    forall c | c in s.returned
      ensures (exists i :: 0 <= i < |s.dispatched| && s.dispatched[i] == Dispatched(c, Begun(acts)[c])) || FailedBy(Init(deep, host, buffer), acts, c)
    {
      if IsDispatched(s, c) {
        var i :| 0 <= i < |s.dispatched| && s.dispatched[i].call == c;
        assert s.dispatched[i] == Dispatched(c, s.asked[c]);
      }
    }
  }
}
