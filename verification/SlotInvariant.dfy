/** What every step of the slot protocol keeps. */
module SlotInvariant {
  import opened Bytes
  import opened Wrappers
  import opened SlotMachine

  // ---- Where a call stands ----

  predicate Posting(s: State) {
    s.client.Filling? || s.client.Clearing? || s.client.Counting?
  }

  predicate InFlight(s: State) {
    s.client.Notifying? || s.client.Testing? || s.client.Sleeping? || s.client.Asleep?
  }

  predicate Collecting(s: State) {
    s.client.Reading? || s.client.Sizing? || s.client.Taking?
  }

  predicate Replying(j: Job) {
    j.Sized? || j.Copying? || j.Marking? || j.Setting?
  }

  predicate Busy(j: Job) { j.Serving? || Replying(j) }

  predicate Working(s: State) { Busy(s.job) || s.server.Loading? || s.server.Awaiting? }

  predicate InCall(s: State) { Posting(s) || InFlight(s) || Collecting(s) }

  // Posted, counted, but not taken by either server.
  predicate Unserved(s: State) { InFlight(s) && !s.ready && !Working(s) }

  function Current(s: State): int { |s.asked| - 1 }

  // ---- The parts of the invariant ----

  // The host's jobs and its asynchronous server.
  predicate JobsOk(s: State) {
    && (s.server.Active? <==> Asynchronous(s.job))
    && (s.server.Absent? <==> !s.registered)
    && (s.registered ==> s.known && !s.message)
    && (s.client.Unmade? ==> !s.message && !s.registered && !s.linked && !s.known)
    && (!s.client.Unmade? ==> s.message || s.registered)
    && (s.linked ==> s.deep && !s.client.Linking?)
    && (!s.known ==> !Inline(s.job) && s.served == 0)
    && !s.job.Faulted? && !s.client.Overrun?
    && (Busy(s.job) ==> !s.server.Loading? && !s.server.Awaiting?)
  }

  predicate Asynchronous(j: Job) {
    || j.Looping? || (j.Compared? && !j.inline) || (j.Serving? && !j.inline)
    || ((Replying(j) || j.Waking?) && !j.after.ThenElsewhere?)
  }

  predicate Inline(j: Job) {
    || (j.Compared? && j.inline) || (j.Serving? && j.inline)
    || ((Replying(j) || j.Waking?) && j.after.ThenElsewhere?)
  }

  // The sequence tells whether the request is still to be served.
  predicate SequenceOk(s: State) {
    && s.sequence < WRAP && s.served < WRAP
    && (Working(s) ==> InFlight(s) && !s.ready)
    && (Collecting(s) ==> s.ready)
    && (s.client.Counting? ==> !s.ready)
    && s.sequence == (if Unserved(s) then Increment(s.served) else s.served)
    && (s.job.Compared? ==> s.job.seen == s.served || s.job.seen == s.sequence)
  }

  // The request fields are whole whenever a server may read them.
  predicate PostedOk(s: State) {
    && (InCall(s) ==> |s.asked| > 0)
    && (s.client.Filling? ==> s.client.next == Request0(s))
    && (s.client.Clearing? || s.client.Counting? || InFlight(s) ==> s.posted == Request0(s))
    && (s.server.Loading? ==> !s.fetching && Ask(s.server.call, s.server.request) == Request0(s))
    && (s.server.Awaiting? ==> !s.fetching && s.server.call == Current(s))
  }

  // What the thread asks for in the current exchange.
  function Request0(s: State): Posted {
    if s.fetching || s.asked == [] then Fetch else Ask(|s.asked| - 1, s.asked[|s.asked| - 1])
  }

  // ---- The reply on its way ----

  // The slot says `status`: the reply is in the buffer, or kept because it is larger.
  predicate Placed(s: State, status: int) {
    && Current(s) in s.answers && s.length == |s.answers[Current(s)].bytes|
    && if status == 3 then !s.fetching && s.kept == Some(s.answers[Current(s)]) && |s.buffer| < s.length
       else s.kept == None && status == s.answers[Current(s)].status
            && s.length <= |s.buffer| && s.buffer[..s.length] == s.answers[Current(s)].bytes
  }

  // No server has answered the current exchange yet.
  predicate Early(s: State) {
    Posting(s) || (InFlight(s) && !s.ready && !Replying(s.job))
  }

  predicate ReplyOk(s: State) {
    && (Early(s) && !s.fetching ==> s.kept == None && Current(s) !in s.answers)
    && (Early(s) && s.fetching ==>
          Current(s) in s.answers && s.kept == Some(s.answers[Current(s)]) && |s.buffer| == |s.answers[Current(s)].bytes|)
    && (s.job.Sized? || s.job.Copying? ==>
          && s.kept == None && Current(s) in s.answers && s.job.reply == s.answers[Current(s)]
          && (s.fetching ==> |s.buffer| == |s.job.reply.bytes|))
    && (s.job.Copying? ==> s.length == |s.job.reply.bytes|)
    && (s.job.Marking? ==> Placed(s, s.job.status))
    && (s.job.Setting? || (InFlight(s) && s.ready) || Collecting(s) ==> Placed(s, s.status))
    && (s.client.Sizing? || s.client.Taking? ==> s.client.status == s.status)
    && (s.client.Taking? ==> s.client.size == s.length)
    && (!InCall(s) ==> s.kept == None)
    && (InCall(s) ==> s.exchanges == if s.fetching then 2 else 1)
  }

  // ---- History ----

  ghost predicate HistoryOk(s: State) {
    && (forall i :: 0 <= i < |s.dispatched| ==>
          s.dispatched[i].call < |s.asked| && s.dispatched[i].request == s.asked[s.dispatched[i].call])
    && (forall i, j :: 0 <= i < j < |s.dispatched| ==> s.dispatched[i].call < s.dispatched[j].call)
    && (Early(s) && !s.fetching && !s.server.Awaiting? ==> forall i :: 0 <= i < |s.dispatched| ==> s.dispatched[i].call < Current(s))
    && (forall c :: c in s.answers ==> c < |s.asked|)
    && (forall c :: c in s.returned <==> 0 <= c < (if InCall(s) then |s.asked| - 1 else |s.asked|))
    && (forall c :: c in s.returned ==> c in s.answers && s.returned[c] == Got(s.answers[c].status, s.answers[c].bytes))
  }

  // ---- Wake-ups ----

  predicate WakeOk(s: State) {
    && (s.client.Asleep? && s.ready ==> s.job.Waking?)
    && (s.server.Parked? && s.sequence != s.served ==> s.client.Notifying?)
  }

  ghost predicate Inv(s: State) {
    JobsOk(s) && SequenceOk(s) && PostedOk(s) && ReplyOk(s) && HistoryOk(s) && WakeOk(s)
  }
}
