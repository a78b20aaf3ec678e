/** One shared-memory slot through which a Lean thread asks the host: the thread, the
    asynchronous server and the inline server as interleaved atomic steps. Several slots
    only meet in the host's single thread, whose work on other slots is a pause here. */
module SlotMachine {
  import opened Bytes
  import opened Wrappers

  const WRAP: nat := 0x1_0000_0000

  // What the host is asked; `kind` 0 request, 1 release, 2 start.
  datatype Request = Request(kind: int, operation: int, handle: int, argument: int, input: seq<Byte>)

  // The slot's request fields: a call, or the second exchange (kind 3) that fetches a large reply.
  // Calls are numbered so that the history below can name them.
  datatype Posted = Torn | Ask(call: nat, request: Request) | Fetch

  // 0 is ok, 1 a Lean error, 2 a host failure.
  type Status = x: int | 0 <= x <= 2

  datatype Reply = Reply(status: Status, bytes: seq<Byte>)

  // The thread, between two atomic steps on the slot.
  datatype Client =
    | Unmade                                // the slot does not exist
    | Linking                               // posted its registration, not yet linked from the previous depth
    | Resting                               // between calls
    | Filling(next: Posted)                 // writing the request fields
    | Clearing                              // about to clear the ready flag
    | Counting                              // about to count the request
    | Notifying                             // about to wake the server
    | Testing                               // about to test the ready flag
    | Sleeping                              // about to wait on the ready flag
    | Asleep
    | Reading                               // about to read the status
    | Sizing(status: int)                   // about to read the length
    | Taking(status: int, size: nat)        // about to read the bytes
    | Overrun                               // reading past the reply buffer

  // The asynchronous server between the host's tasks.
  datatype Server =
    | Absent                                // no registration message handled
    | Runnable                              // a microtask will serve
    | Active                                // serving, or about to finish a promise
    | Parked                                // waits on the sequence
    | Loading(call: nat, request: Request)  // the host module is being loaded
    | Awaiting(call: nat)                   // the operation's promise is not settled

  // What the host's thread does for this slot right now.
  datatype Job =
    | Elsewhere
    | Looping                               // at the top of the serving loop
    | Compared(inline: bool, seen: nat)     // loaded the sequence
    | Serving(inline: bool)                 // took the request
    | Sized(after: After, reply: Reply)     // about to write the reply's length
    | Copying(after: After, reply: Reply)   // about to copy its bytes, or keep them
    | Marking(after: After, status: int)    // about to write the status
    | Setting(after: After)                 // about to set the ready flag
    | Waking(after: After)                  // about to wake the thread
    | Faulted                               // a kind 3 request without a kept reply

  // What follows a reply: the loop, the end of a promise, or the end of inline service.
  datatype After = ThenLoop | ThenRunnable | ThenElsewhere

  datatype State = State(
    // shared memory
    sequence: nat, ready: bool, posted: Posted, status: int, length: nat, buffer: seq<Byte>, deep: bool, linked: bool,
    // the thread
    client: Client, fetching: bool,
    // the host: its record of the slot
    message: bool, known: bool, registered: bool, served: nat, kept: Option<Reply>, host: bool,
    server: Server, job: Job,
    // history: the calls begun, the operations dispatched, the host's answers, what the thread got
    asked: seq<Request>, dispatched: seq<Dispatched>, answers: map<nat, Reply>, returned: map<nat, Got>, exchanges: nat)

  // What the thread reads: a status and bytes.
  datatype Got = Got(status: int, bytes: seq<Byte>)

  datatype Dispatched = Dispatched(call: nat, request: Request)

  // `deep`: the slot of a nested call, linked from the slot of the depth before.
  function Init(deep: bool, host: bool, buffer: seq<Byte>): State {
    State(0, false, Torn, 0, 0, buffer, deep, false,
          Unmade, false,
          false, false, false, 0, None, host, Absent, Elsewhere,
          [], [], map[], map[], 0)
  }

  // The host's answer to a dispatched operation: at once, by an exception, or through a promise.
  datatype Outcome = Now(reply: Reply) | Thrown(message: seq<Byte>) | Later

  // What an inline server answers to an operation that returns a promise.
  function Substitute(request: Request, text: seq<Byte>): Reply {
    if request.kind == 0 && request.operation in {3, 4} then Reply(0, []) else Reply(1, text)
  }

  // ---- The thread's steps ----

  datatype ClientAct =
    | Make | Link
    | Begin(request: Request) | Fill | Clear | Count | Notify | Test | Sleep | Stir
    | ReadStatus | ReadLength | Grow(bytes: seq<Byte>) | Take

  function Increment(n: nat): nat { (n + 1) % WRAP }

  function Notified(server: Server): Server { if server.Parked? then Runnable else server }

  function Tested(ready: bool): Client { if ready then Reading else Sleeping }

  function Slept(ready: bool): Client { if ready then Testing else Asleep }

  function ClientStep(s: State, a: ClientAct): Option<State> {
    match (s.client, a)
    case (Unmade, Make) => Some(s.(client := Linking, message := true))
    // Depth 0 has no previous slot.
    case (Linking, Link) => Some(s.(client := Resting, linked := s.deep))
    case (Resting, Begin(r)) =>
      Some(s.(client := Filling(Ask(|s.asked|, r)), posted := Torn, asked := s.asked + [r], fetching := false, exchanges := 1))
    case (Filling(p), Fill) => Some(s.(client := Clearing, posted := p))
    case (Clearing, Clear) => Some(s.(client := Counting, ready := false))
    case (Counting, Count) => Some(s.(client := Notifying, sequence := Increment(s.sequence)))
    case (Notifying, Notify) => Some(s.(client := Testing, server := Notified(s.server)))
    case (Testing, Test) => Some(s.(client := Tested(s.ready)))
    // Sleeps only if the flag is still clear.
    case (Sleeping, Sleep) => Some(s.(client := Slept(s.ready)))
    // A wait may end without a wake-up.
    case (Asleep, Stir) => Some(s.(client := Testing))
    case (Reading, ReadStatus) => Some(s.(client := Sizing(s.status)))
    case (Sizing(status), ReadLength) => Some(s.(client := Taking(status, s.length)))
    case (Taking(status, size), Grow(bytes)) =>
      // A reply that does not fit: a buffer of its size, then a second exchange.
      if status == 3 && !s.fetching && |bytes| == size
      then Some(s.(client := Filling(Fetch), posted := Torn, buffer := bytes, fetching := true, exchanges := s.exchanges + 1))
      else None
    case (Taking(status, size), Take) =>
      if (status == 3 && !s.fetching) || s.asked == [] then None
      else if size > |s.buffer| then Some(s.(client := Overrun))
      else Some(s.(client := Resting, returned := s.returned[|s.asked| - 1 := Got(status, s.buffer[..size])]))
    case _ => None
  }

  // ---- The host's steps ----

  datatype HostAct =
    | Register                              // handle the registration message
    | Resume                                // run the microtask
    | Load                                  // load the sequence
    | Compare
    | Serve(outcome: Outcome, text: seq<Byte>)
    | HostLoaded(outcome: Outcome)          // the module is there: dispatch
    | HostFailed(text: seq<Byte>)           // it is not
    | HostReady                             // another slot's call loaded the module
    | Settle(reply: Reply)                  // the operation's promise settles
    | ServeInline                           // inside a synchronous callback
    | Size | Copy | Mark | Set | Wake

  // A reply that is larger than the buffer is kept, and status 3 says so.
  function CopyReply(s: State, after: After, reply: Reply): State {
    if |reply.bytes| > |s.buffer| then s.(kept := Some(reply), job := Marking(after, 3))
    else s.(buffer := reply.bytes + s.buffer[|reply.bytes|..], job := Marking(after, reply.status))
  }

  // Dispatch a call's operation.
  function Dispatch(s: State, call: nat, request: Request): State {
    s.(dispatched := s.dispatched + [Dispatched(call, request)])
  }

  function Answer(s: State, call: nat, after: After, reply: Reply): State {
    s.(answers := s.answers[call := reply], job := Sized(after, reply))
  }

  function ServeStep(s: State, inline: bool, outcome: Outcome, text: seq<Byte>): Option<State> {
    match s.posted
    case Torn => None
    case Fetch =>
      if s.kept.None? then Some(s.(job := Faulted))
      else Some(s.(kept := None, job := Sized(if inline then ThenElsewhere else ThenLoop, s.kept.value)))
    case Ask(call, r) =>
      if inline then
        match outcome
        case Now(reply) => Some(Answer(Dispatch(s, call, r), call, ThenElsewhere, reply))
        case Thrown(message) => Some(Answer(Dispatch(s, call, r), call, ThenElsewhere, Reply(2, message)))
        case Later => Some(Answer(Dispatch(s, call, r), call, ThenElsewhere, Substitute(r, text)))
      else if !s.host then Some(s.(server := Loading(call, r), job := Elsewhere))
      else
        match outcome
        case Now(reply) => Some(Answer(Dispatch(s, call, r), call, ThenLoop, reply))
        // The failure is a host failure's: the loop goes on in a microtask.
        case Thrown(message) => Some(Answer(Dispatch(s, call, r), call, ThenRunnable, Reply(2, message)))
        case Later => Some(Dispatch(s, call, r).(server := Awaiting(call), job := Elsewhere))
  }

  function AfterReply(s: State, after: After): State {
    match after
    case ThenLoop => s.(job := Looping)
    case ThenRunnable => s.(job := Elsewhere, server := Runnable)
    case ThenElsewhere => s.(job := Elsewhere)
  }

  function CompareStep(s: State, inline: bool, seen: nat): State {
    if seen != s.served then s.(served := seen, job := Serving(inline))
    else if inline then s.(job := Elsewhere)
    // Waits only if the sequence is still the one it served.
    else if s.sequence == seen then s.(job := Elsewhere, server := Parked)
    else s.(job := Looping)
  }

  function HostStep(s: State, a: HostAct): Option<State> {
    match (s.job, a)
    case (Elsewhere, Register) =>
      // A slot already known from inline service keeps the sequence it served.
      if !s.message then None
      else if s.known then Some(s.(message := false, registered := true, server := Runnable))
      else Some(s.(message := false, known := true, registered := true, served := 0, server := Runnable))
    case (Elsewhere, Resume) => if s.server.Runnable? then Some(s.(job := Looping, server := Active)) else None
    case (Elsewhere, HostLoaded(outcome)) =>
      if !s.server.Loading? then None
      else
        var call, t := s.server.call, Dispatch(s, s.server.call, s.server.request).(host := true);
        (match outcome
         case Now(reply) => Some(Answer(t, call, ThenRunnable, reply).(server := Active))
         case Thrown(message) => Some(Answer(t, call, ThenRunnable, Reply(2, message)).(server := Active))
         case Later => Some(t.(server := Awaiting(call))))
    case (Elsewhere, HostFailed(text)) =>
      if s.server.Loading? then Some(Answer(s, s.server.call, ThenRunnable, Reply(2, text)).(server := Active)) else None
    case (Elsewhere, HostReady) => Some(s.(host := true))
    case (Elsewhere, Settle(reply)) =>
      if s.server.Awaiting? then Some(Answer(s, s.server.call, ThenRunnable, reply).(server := Active)) else None
    case (Elsewhere, ServeInline) =>
      // Known, or linked from the slot of the depth before.
      if !s.host || !(s.known || s.linked) then None
      else if s.known then Some(s.(job := Compared(true, s.sequence)))
      else Some(s.(known := true, served := 0, job := Compared(true, s.sequence)))
    case (Looping, Load) => Some(s.(job := Compared(false, s.sequence)))
    case (Compared(inline, seen), Compare) => Some(CompareStep(s, inline, seen))
    case (Serving(inline), Serve(outcome, text)) => ServeStep(s, inline, outcome, text)
    case (Sized(after, reply), Size) => Some(s.(length := |reply.bytes|, job := Copying(after, reply)))
    case (Copying(after, reply), Copy) => Some(CopyReply(s, after, reply))
    case (Marking(after, status), Mark) => Some(s.(status := status, job := Setting(after)))
    case (Setting(after), Set) => Some(s.(ready := true, job := Waking(after)))
    case (Waking(after), Wake) =>
      Some(AfterReply(if s.client.Asleep? then s.(client := Testing) else s, after))
    case _ => None
  }

  datatype Action = Thread(c: ClientAct) | Host(h: HostAct)

  function Step(s: State, a: Action): Option<State> {
    match a
    case Thread(c) => ClientStep(s, c)
    case Host(h) => HostStep(s, h)
  }

  // The state after a run, if every step was possible.
  function Run(s: State, acts: seq<Action>): Option<State> {
    if acts == [] then Some(s)
    else
      var before := Run(s, acts[..|acts| - 1]);
      if before.None? then None else Step(before.value, acts[|acts| - 1])
  }
}
