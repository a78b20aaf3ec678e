/** The WASI host's event loop: timers, the asynchronous waits for them, blocking calls,
    and the wait for the next event. */
module WasiTimers {
  import opened Bytes
  import opened Wrappers
  import opened Packets

  const MS: nat := 1_000_000

  // Phase 0 initial, 1 running, 2 finished.
  datatype Timer = Timer(timeout: nat, repeating: bool, phase: nat, generation: nat, hasPromise: bool, done: bool, armed: bool, due: nat) {
    predicate Unsettled() { hasPromise && !done }

    predicate Ok() {
      phase <= 2 && (armed <==> phase == 1) && (Unsettled() ==> armed)
    }

    predicate Due(now: nat) { armed && due <= now }

    function Arm(now: nat, delay: nat): Timer { this.(armed := true, due := now + delay * MS) }

    function Fresh(): Timer { this.(generation := generation + 1, done := false, hasPromise := true) }

    function Drop(): Timer { this.(hasPromise := false, generation := generation + 1) }
  }

  // An asynchronous wait (op 94 of op 72). Waits are numbered in the order they were started.
  datatype Waiter = Waiter(wait: nat, header: Header, timer: nat, generation: nat)

  datatype Blocked = Sleep(due: nat) | ForTimer(timer: nat, generation: nat)

  datatype Completion = Waited(wait: nat, header: Header, cancelled: bool) | Other(packet: Packet)

  datatype WaitPlace = Pending | Completed | Never | Lost

  // What the loop finds when it waits once: an event, nothing that can ever happen, or more time passed.
  datatype Turn = Event | Deadlock | Slept

  datatype Reply = Number(value: nat) | Empty | Invalid | Cancelled | Blocking

  // ---- The invariant, on values ----

  ghost predicate TimersOk(timers: map<nat, Timer>, capacity: nat) {
    && (forall id :: id in timers ==> 10 <= id < capacity && timers[id].Ok())
  }

  // A wait belongs to the current, unsettled promise of its timer.
  ghost predicate WaitersOk(waiters: seq<Waiter>, timers: map<nat, Timer>) {
    forall i :: 0 <= i < |waiters| ==>
      && waiters[i].timer in timers && timers[waiters[i].timer].Unsettled()
      && timers[waiters[i].timer].generation == waiters[i].generation
  }

  // Each wait is in exactly one place.
  ghost predicate PlacesOk(waits: nat, waiters: seq<Waiter>, record: seq<Completion>, place: map<nat, WaitPlace>) {
    && (forall w :: w in place <==> 0 <= w < waits)
    && (forall i :: 0 <= i < |waiters| ==> waiters[i].wait in place && place[waiters[i].wait] == Pending)
    && (forall i, j :: 0 <= i < j < |waiters| ==> waiters[i].wait != waiters[j].wait)
    && (forall w :: w in place && place[w] == Pending ==> exists i :: 0 <= i < |waiters| && waiters[i].wait == w)
    && (forall i :: 0 <= i < |record| && record[i].Waited? ==> record[i].wait in place && place[record[i].wait] == Completed)
    && (forall i, j :: 0 <= i < j < |record| && record[i].Waited? && record[j].Waited? ==> record[i].wait != record[j].wait)
    && (forall w :: w in place && place[w] == Completed ==> exists i :: 0 <= i < |record| && record[i].Waited? && record[i].wait == w)
  }

  // A blocked call names a timer whose promise it waits for, or an older promise of it.
  ghost predicate BlockedOk(blocking: seq<Blocked>, timers: map<nat, Timer>) {
    forall i :: 0 <= i < |blocking| && blocking[i].ForTimer? ==>
      && blocking[i].timer in timers && blocking[i].generation <= timers[blocking[i].timer].generation
      && (blocking[i].generation == timers[blocking[i].timer].generation ==> timers[blocking[i].timer].hasPromise)
  }

  predicate Ready(b: Blocked, timers: map<nat, Timer>, now: nat) {
    match b
    case Sleep(due) => now >= due
    case ForTimer(timer, generation) =>
      timer !in timers || timers[timer].generation != generation || timers[timer].done
  }

  // ---- Steps of the invariant ----

  // One waiter completes: the last one takes its place.
  function RemoveAt(waiters: seq<Waiter>, i: nat): seq<Waiter>
    requires i < |waiters|
  {
    waiters[i := waiters[|waiters| - 1]][..|waiters| - 1]
  }

  lemma RemoveAtMembers(waiters: seq<Waiter>, i: nat)
    requires i < |waiters|
    requires forall j, k :: 0 <= j < k < |waiters| ==> waiters[j].wait != waiters[k].wait
    ensures forall w :: w in RemoveAt(waiters, i) <==> w in waiters && w != waiters[i]
    ensures forall j, k :: 0 <= j < k < |RemoveAt(waiters, i)| ==> RemoveAt(waiters, i)[j].wait != RemoveAt(waiters, i)[k].wait
  {
    var n := |waiters| - 1;
    var after := RemoveAt(waiters, i);
    assert forall j :: 0 <= j < n ==> after[j] == if j == i then waiters[n] else waiters[j];
    forall w | w in waiters && w != waiters[i]
      ensures w in after
    {
      var j :| 0 <= j < |waiters| && waiters[j] == w;
      assert after[if j == n then i else j] == w;
    }
  }

  lemma CompleteKeeps(waits: nat, waiters: seq<Waiter>, record: seq<Completion>, place: map<nat, WaitPlace>, i: nat, cancelled: bool)
    requires PlacesOk(waits, waiters, record, place) && i < |waiters|
    ensures var w := waiters[i];
            PlacesOk(waits, RemoveAt(waiters, i), record + [Waited(w.wait, w.header, cancelled)], place[w.wait := Completed])
  {
    hide RemoveAt;
    RemoveAtMembers(waiters, i);
    var w := waiters[i];
    var rest, all, after := RemoveAt(waiters, i), record + [Waited(w.wait, w.header, cancelled)], place[w.wait := Completed];
    assert all[|record|].wait == w.wait;
    forall id | id in after && after[id] == Completed
      ensures exists j :: 0 <= j < |all| && all[j].Waited? && all[j].wait == id
    {
      if id != w.wait {
        var j :| 0 <= j < |record| && record[j].Waited? && record[j].wait == id;
        assert all[j].wait == id;
      }
    }
    forall j | 0 <= j < |rest|
      ensures rest[j].wait in after && after[rest[j].wait] == Pending
    {
      assert rest[j] in waiters && rest[j] != w;
    }
    forall id | id in after && after[id] == Pending
      ensures exists j :: 0 <= j < |rest| && rest[j].wait == id
    {
      var j :| 0 <= j < |waiters| && waiters[j].wait == id;
      assert waiters[j] in rest;
    }
  }

  lemma OtherKeeps(waits: nat, waiters: seq<Waiter>, record: seq<Completion>, place: map<nat, WaitPlace>, p: Packet)
    requires PlacesOk(waits, waiters, record, place)
    ensures PlacesOk(waits, waiters, record + [Other(p)], place)
  {
    var all := record + [Other(p)];
    assert forall j :: 0 <= j < |record| ==> all[j] == record[j];
  }

  lemma StartedWaits(waits: nat, waiters: seq<Waiter>, record: seq<Completion>, place: map<nat, WaitPlace>, w: Waiter)
    requires PlacesOk(waits, waiters, record, place) && w.wait == waits
    ensures PlacesOk(waits + 1, waiters + [w], record, place[waits := Pending])
  {
    var more := waiters + [w];
    assert more[|waiters|] == w;
    assert forall j :: 0 <= j < |waiters| ==> more[j] == waiters[j];
  }

  lemma StartedCompletes(waits: nat, waiters: seq<Waiter>, record: seq<Completion>, place: map<nat, WaitPlace>, header: Header)
    requires PlacesOk(waits, waiters, record, place)
    ensures PlacesOk(waits + 1, waiters, record + [Waited(waits, header, false)], place[waits := Completed])
  {
    var all := record + [Waited(waits, header, false)];
    assert all[|record|].wait == waits;
    assert forall j :: 0 <= j < |record| ==> all[j] == record[j];
  }

  lemma StartedNever(waits: nat, waiters: seq<Waiter>, record: seq<Completion>, place: map<nat, WaitPlace>)
    requires PlacesOk(waits, waiters, record, place)
    ensures PlacesOk(waits + 1, waiters, record, place[waits := Never])
  {
    assert forall j :: 0 <= j < |waiters| ==> waiters[j].wait < waits;
  }

  // Released with its timer, a wait never completes.
  lemma LostKeeps(waits: nat, waiters: seq<Waiter>, record: seq<Completion>, place: map<nat, WaitPlace>, i: nat)
    requires PlacesOk(waits, waiters, record, place) && i < |waiters|
    ensures PlacesOk(waits, RemoveAt(waiters, i), record, place[waiters[i].wait := Lost])
  {
    hide RemoveAt;
    RemoveAtMembers(waiters, i);
    var rest, after := RemoveAt(waiters, i), place[waiters[i].wait := Lost];
    forall j | 0 <= j < |rest|
      ensures rest[j].wait in after && after[rest[j].wait] == Pending
    {
      assert rest[j] in waiters && rest[j] != waiters[i];
    }
    forall id | id in after && after[id] == Pending
      ensures exists j :: 0 <= j < |rest| && rest[j].wait == id
    {
      var j :| 0 <= j < |waiters| && waiters[j].wait == id;
      assert waiters[j] in rest;
    }
  }

  // Of the waiters of a promise, none is left.
  predicate Of(w: Waiter, timer: nat, generation: nat) { w.timer == timer && w.generation == generation }

  // The completion of one of them.
  ghost predicate OfOne(c: Completion, waiters: seq<Waiter>, timer: nat, generation: nat, cancelled: bool) {
    exists w :: w in waiters && Of(w, timer, generation) && c == Waited(w.wait, w.header, cancelled)
  }

  // The first `i` waiters are not of the promise; those of it that are gone have completed.
  ghost predicate SettledSoFar(first: seq<Waiter>, waiters: seq<Waiter>, before: seq<Completion>, record: seq<Completion>,
                               i: nat, timer: nat, generation: nat, cancelled: bool) {
    && i <= |waiters| && |before| <= |record| && record[..|before|] == before
    && (forall w :: w in waiters ==> w in first)
    && (forall w :: w in first && w !in waiters ==>
          Of(w, timer, generation) && Waited(w.wait, w.header, cancelled) in record[|before|..])
    && (forall j :: 0 <= j < i ==> !Of(waiters[j], timer, generation))
    && (record == before || exists w :: w in first && Of(w, timer, generation))
    && (forall k :: |before| <= k < |record| ==> OfOne(record[k], first, timer, generation, cancelled))
  }

  lemma NoneSettled(waiters: seq<Waiter>, record: seq<Completion>, timer: nat, generation: nat, cancelled: bool)
    ensures SettledSoFar(waiters, waiters, record, record, 0, timer, generation, cancelled)
  {
  }

  lemma OneSkipped(first: seq<Waiter>, waiters: seq<Waiter>, before: seq<Completion>, record: seq<Completion>,
                   i: nat, timer: nat, generation: nat, cancelled: bool)
    requires SettledSoFar(first, waiters, before, record, i, timer, generation, cancelled)
    requires i < |waiters| && !Of(waiters[i], timer, generation)
    ensures SettledSoFar(first, waiters, before, record, i + 1, timer, generation, cancelled)
  {
    hide OfOne;
  }

  lemma OneSettled(first: seq<Waiter>, waiters: seq<Waiter>, before: seq<Completion>, record: seq<Completion>,
                   i: nat, timer: nat, generation: nat, cancelled: bool)
    requires SettledSoFar(first, waiters, before, record, i, timer, generation, cancelled)
    requires i < |waiters| && Of(waiters[i], timer, generation)
    requires forall j, k :: 0 <= j < k < |waiters| ==> waiters[j].wait != waiters[k].wait
    ensures |RemoveAt(waiters, i)| < |waiters|
    ensures var c := Waited(waiters[i].wait, waiters[i].header, cancelled);
            SettledSoFar(first, RemoveAt(waiters, i), before, record + [c], i, timer, generation, cancelled)
  {
    var c := Waited(waiters[i].wait, waiters[i].header, cancelled);
    RemoveAtMembers(waiters, i);
    RemoveAtBefore(waiters, i);
    hide RemoveAt;
    assert OfOne(c, first, timer, generation, cancelled);
    TailGrows(|before|, record, record + [c]);
  }

  lemma AllSettled(first: seq<Waiter>, waiters: seq<Waiter>, before: seq<Completion>, record: seq<Completion>,
                   i: nat, timer: nat, generation: nat, cancelled: bool)
    requires SettledSoFar(first, waiters, before, record, i, timer, generation, cancelled) && i >= |waiters|
    ensures forall w :: w in waiters <==> w in first && !Of(w, timer, generation)
    ensures |before| <= |record| && record[..|before|] == before
    ensures forall w :: w in first && Of(w, timer, generation) ==> Waited(w.wait, w.header, cancelled) in record[|before|..]
    ensures record == before || exists w :: w in first && Of(w, timer, generation)
    ensures forall c :: c in record[|before|..] ==>
              exists w :: w in first && w.timer == timer && w.generation == generation && c == Waited(w.wait, w.header, cancelled)
  {
    forall c | c in record[|before|..]
      ensures exists w :: w in first && w.timer == timer && w.generation == generation && c == Waited(w.wait, w.header, cancelled)
    {
      assert OfOne(c, first, timer, generation, cancelled);
    }
  }

  // What firing makes of a timer; `now` is when it fires, `later` when it is armed again.
  predicate Fired(t: Timer, after: Timer, now: nat, later: nat) {
    if !t.Due(now) then after == t
    else
      && after.(done := t.done, armed := t.armed, due := t.due, phase := t.phase) == t
      && after.done == (t.done || t.hasPromise)
      && if t.repeating && t.timeout > 0 then after.armed && after.phase == t.phase && now + t.timeout * MS <= after.due <= later + t.timeout * MS
         else !after.armed && after.phase == 2 && after.due == t.due
  }

  class EventLoop {
    var clock: nat
    var timers: map<nat, Timer>
    var others: set<nat>
    var capacity: nat
    var waiters: seq<Waiter>
    var blocking: seq<Blocked>
    var completions: seq<Completion>
    var io: nat
    var waits: nat
    ghost var place: map<nat, WaitPlace>
    ghost var record: seq<Completion>
    ghost var taken: seq<Completion>
    // A timer was released while a blocking call named it.
    ghost var orphaned: bool

    ghost predicate Valid()
      reads this
    {
      && TimersOk(timers, capacity) && WaitersOk(waiters, timers)
      && PlacesOk(waits, waiters, record, place)
      && (!orphaned ==> BlockedOk(blocking, timers))
      && record == taken + completions
      && (forall id :: id in others ==> 10 <= id < capacity && id !in timers)
      && (capacity == 0 || capacity >= 64)
    }

    constructor ()
      ensures Valid() && timers == map[] && waiters == [] && blocking == [] && completions == []
      ensures record == [] && io == 0 && others == {} && !orphaned
    {
      clock, timers, others, capacity, waiters, blocking, completions, io, waits := 0, map[], {}, 0, [], [], [], 0, 0;
      place, record, taken, orphaned := map[], [], [], false;
    }

    // The monotonic clock.
    method Now() returns (t: nat)
      modifies this`clock
      ensures old(clock) <= t == clock
    {
      t :| t >= clock;
      clock := t;
    }

    method SettleWaiters(timer: nat, generation: nat, cancelled: bool)
      requires PlacesOk(waits, waiters, record, place) && record == taken + completions
      modifies this`waiters, this`completions, this`place, this`record
      ensures PlacesOk(waits, waiters, record, place) && record == taken + completions
      ensures forall w :: w in waiters <==> w in old(waiters) && !(w.timer == timer && w.generation == generation)
      ensures |old(record)| <= |record| && record[..|old(record)|] == old(record)
      ensures completions == old(completions) + record[|old(record)|..]
      ensures forall c :: c in record[|old(record)|..] ==>
                exists w :: w in old(waiters) && w.timer == timer && w.generation == generation && c == Waited(w.wait, w.header, cancelled)
      ensures forall w :: w in old(waiters) && w.timer == timer && w.generation == generation ==> Waited(w.wait, w.header, cancelled) in record[|old(record)|..]
      ensures record == old(record) || exists w :: w in old(waiters) && w.timer == timer && w.generation == generation
    {
      hide PlacesOk, RemoveAt, SettledSoFar, OfOne;
      var i := 0;
      NoneSettled(waiters, record, timer, generation, cancelled);
      while i < |waiters|
        invariant PlacesOk(waits, waiters, record, place) && record == taken + completions
        invariant SettledSoFar(old(waiters), waiters, old(record), record, i, timer, generation, cancelled)
        invariant |old(record)| <= |record| && completions == old(completions) + record[|old(record)|..]
        decreases |waiters| - i
      {
        if waiters[i].timer == timer && waiters[i].generation == generation {
          var w := waiters[i];
          var c := Waited(w.wait, w.header, cancelled);
          CompleteKeeps(waits, waiters, record, place, i, cancelled);
          WaitersDiffer(waits, waiters, record, place);
          OneSettled(old(waiters), waiters, old(record), record, i, timer, generation, cancelled);
          TailGrows(|old(record)|, record, record + [c]);
          completions := completions + [c];
          record := record + [c];
          place := place[w.wait := Completed];
          waiters := RemoveAt(waiters, i);
        } else {
          OneSkipped(old(waiters), waiters, old(record), record, i, timer, generation, cancelled);
          i := i + 1;
        }
      }
      AllSettled(old(waiters), waiters, old(record), record, i, timer, generation, cancelled);
    }

    // ---- Timers ----

    // The lowest free handle from 10 on; the table doubles when it is full.
    method AddResource() returns (id: nat)
      requires Valid()
      modifies this`capacity
      ensures Valid() && 10 <= id < capacity && id !in timers && id !in others
      ensures forall k :: 10 <= k < id ==> k in timers || k in others
    {
      hide WaitersOk, PlacesOk, BlockedOk;
      id := 10;
      while id in timers || id in others
        invariant 10 <= id && forall k :: 10 <= k < id ==> k in timers || k in others
        invariant id <= capacity || id == 10
        decreases capacity - id
      {
        id := id + 1;
      }
      if id >= capacity {
        capacity := if capacity > 0 then capacity * 2 else 64;
      }
    }

    // Op 70.
    method MakeTimer(timeout: nat, repeating: bool) returns (id: nat)
      requires Valid()
      modifies this`capacity, this`timers
      ensures Valid() && id >= 10 && id !in old(timers) && id !in others
      ensures timers == old(timers)[id := Timer(timeout, repeating, 0, 0, false, false, false, 0)]
      ensures forall k :: 10 <= k < id ==> k in old(timers) || k in others
    {
      hide PlacesOk;
      id := AddResource();
      timers := timers[id := Timer(timeout, repeating, 0, 0, false, false, false, 0)];
    }

    // A file or another resource gets a handle from the same table.
    method OpenOther() returns (id: nat)
      requires Valid()
      modifies this`capacity, this`others
      ensures Valid() && id >= 10 && id !in timers && id !in old(others) && others == old(others) + {id}
    {
      hide PlacesOk, WaitersOk, BlockedOk;
      id := AddResource();
      others := others + {id};
    }

    // Op 71: a running timer with a promise; a new one unless the current one is unsettled.
    method Promise(id: nat) returns (reply: Reply)
      requires Valid()
      modifies this`timers, this`clock
      ensures Valid()
      ensures id !in old(timers) ==> reply == Invalid && timers == old(timers)
      ensures id in old(timers) ==>
                var t := old(timers)[id];
                && id in timers && timers == old(timers)[id := timers[id]] && reply == Number(timers[id].generation)
                && timers[id].timeout == t.timeout && timers[id].repeating == t.repeating
                && (t.phase == 2 || (t.hasPromise && !t.done) || (t.phase == 1 && !t.repeating) ==> timers[id] == t)
                && (t.phase == 0 || (t.phase == 1 && t.repeating && !(t.hasPromise && !t.done)) ==>
                      (timers[id].hasPromise && !timers[id].done) && timers[id].armed && timers[id].generation == t.generation + 1 && timers[id].phase == 1)
                && (t.phase == 0 ==> timers[id].due == clock + if t.repeating then 0 else t.timeout * 1_000_000)
    {
      hide PlacesOk;
      if id !in timers {
        return Invalid;
      }
      var t := timers[id];
      if t.phase == 0 {
        t := t.Fresh();
        t := t.(phase := 1);
        var now := Now();
        t := t.Arm(now, if t.repeating then 0 else t.timeout);
      } else if t.repeating && t.phase == 1 && (t.done || !t.hasPromise) {
        t := t.Fresh();
      }
      timers := timers[id := t];
      return Number(t.generation);
    }

    // Op 73: the delay starts again.
    method Reset(id: nat) returns (reply: Reply)
      requires Valid()
      modifies this`timers, this`clock
      ensures Valid()
      ensures reply == if id in old(timers) then Empty else Invalid
      ensures timers == if id in old(timers) && old(timers)[id].phase == 1
                        then old(timers)[id := old(timers)[id].(armed := true, due := clock + old(timers)[id].timeout * 1_000_000)] else old(timers)
    {
      hide PlacesOk;
      if id !in timers {
        return Invalid;
      }
      if timers[id].phase == 1 {
        var now := Now();
        timers := timers[id := timers[id].Arm(now, timers[id].timeout)];
      }
      return Empty;
    }

    // The promise is dropped: whoever waits for it is told.
    method DropPromise(id: nat)
      requires Valid() && id in timers
      modifies this`timers, this`waiters, this`completions, this`place, this`record
      ensures PlacesOk(waits, waiters, record, place) && record == taken + completions
      ensures timers == old(timers)[id := old(timers)[id].(hasPromise := false, generation := old(timers)[id].generation + 1)]
      ensures forall w :: w in waiters <==> w in old(waiters) && w.timer != id
      ensures |old(record)| <= |record| && record[..|old(record)|] == old(record)
      ensures completions == old(completions) + record[|old(record)|..]
      ensures forall w :: w in old(waiters) && w.timer == id ==> Waited(w.wait, w.header, true) in record[|old(record)|..]
      ensures record == old(record) || exists w :: w in old(waiters) && w.timer == id
      ensures forall c :: c in record[|old(record)|..] ==>
                exists w :: w in old(waiters) && w.timer == id && w.generation == old(timers)[id].generation && c == Waited(w.wait, w.header, true)
    {
      hide PlacesOk, BlockedOk, TimersOk;
      var t := timers[id];
      WaitersNamed(waiters, timers, id);
      if t.hasPromise && !t.done {
        SettleWaiters(id, t.generation, true);
      }
      timers := timers[id := t.Drop()];
    }

    // Op 74.
    method Stop(id: nat) returns (reply: Reply)
      requires Valid()
      modifies this`timers, this`waiters, this`completions, this`place, this`record
      ensures Valid()
      ensures id !in old(timers) ==> reply == Invalid && timers == old(timers) && waiters == old(waiters) && record == old(record)
      ensures id in old(timers) ==>
                && reply == Number(1)
                && timers == old(timers)[id := old(timers)[id].(hasPromise := false, generation := old(timers)[id].generation + 1, armed := false, phase := 2)]
                && (forall w :: w in waiters <==> w in old(waiters) && w.timer != id)
                && |old(record)| <= |record| && record[..|old(record)|] == old(record)
                && completions == old(completions) + record[|old(record)|..]
                && (forall w :: w in old(waiters) && w.timer == id ==> Waited(w.wait, w.header, true) in record[|old(record)|..])
                && (forall c :: c in record[|old(record)|..] ==>
                exists w :: w in old(waiters) && w.timer == id && w.generation == old(timers)[id].generation && c == Waited(w.wait, w.header, true))
    {
      hide PlacesOk, OfOne;
      if id !in timers {
        return Invalid;
      }
      DropPromise(id);
      timers := timers[id := timers[id].(armed := false, phase := 2)];
      WaitersIn(waiters);
      return Number(1);
    }

    // Op 75: of a running timer only the promise is dropped, unless it does not repeat.
    method Cancel(id: nat) returns (reply: Reply)
      requires Valid()
      modifies this`timers, this`waiters, this`completions, this`place, this`record
      ensures Valid()
      ensures id !in old(timers) ==> reply == Invalid && timers == old(timers) && waiters == old(waiters) && record == old(record)
      ensures id in old(timers) ==>
                var t := old(timers)[id];
                && (t.phase != 1 || !t.hasPromise ==>
                      reply == Number(0) && timers == old(timers) && waiters == old(waiters) && record == old(record))
                && (t.phase == 1 && t.hasPromise ==>
                      && reply == Number(1) && (record == old(record) || exists w :: w in old(waiters) && w.timer == id)
                      && timers == old(timers)[id := if t.repeating then t.(hasPromise := false, generation := t.generation + 1)
                                           else t.(hasPromise := false, generation := t.generation + 1, armed := false, phase := 0)]
                      && (forall w :: w in waiters <==> w in old(waiters) && w.timer != id)
                      && |old(record)| <= |record| && record[..|old(record)|] == old(record)
                      && completions == old(completions) + record[|old(record)|..]
                      && (forall w :: w in old(waiters) && w.timer == id ==> Waited(w.wait, w.header, true) in record[|old(record)|..])
                      && (forall c :: c in record[|old(record)|..] ==>
                exists w :: w in old(waiters) && w.timer == id && w.generation == t.generation && c == Waited(w.wait, w.header, true)))
    {
      hide PlacesOk, OfOne;
      if id !in timers {
        return Invalid;
      }
      if timers[id].phase != 1 || !timers[id].hasPromise {
        return Number(0);
      }
      DropPromise(id);
      if !timers[id].repeating {
        timers := timers[id := timers[id].(armed := false, phase := 0)];
      }
      WaitersIn(waiters);
      return Number(1);
    }

    // ---- Waits ----

    // Op 94 of op 72: completes at once, when the timer fires, or never.
    method StartWait(id: nat, header: Header) returns (reply: Reply)
      requires Valid()
      modifies this`waiters, this`completions, this`waits, this`place, this`record
      ensures Valid() && waits == old(waits) + (if id in timers then 1 else 0)
      ensures reply == if id in timers then Empty else Invalid
      ensures id !in timers ==> waiters == old(waiters) && record == old(record)
      ensures id in timers && (timers[id].hasPromise && !timers[id].done) ==>
                waiters == old(waiters) + [Waiter(old(waits), header, id, timers[id].generation)] && record == old(record)
      ensures id in timers && timers[id].hasPromise && timers[id].done ==>
                waiters == old(waiters) && record == old(record) + [Waited(old(waits), header, false)]
      ensures id in timers && !timers[id].hasPromise ==>
                waiters == old(waiters) && record == old(record) && place == old(place)[old(waits) := Never]
    {
      hide PlacesOk;
      if id !in timers {
        return Invalid;
      }
      var w := Waiter(waits, header, id, timers[id].generation);
      StartedWaits(waits, waiters, record, place, w);
      StartedCompletes(waits, waiters, record, place, header);
      StartedNever(waits, waiters, record, place);
      if timers[id].hasPromise {
        if timers[id].done {
          completions := completions + [Waited(waits, header, false)];
          record := record + [Waited(waits, header, false)];
          place := place[waits := Completed];
        } else {
          waiters := waiters + [w];
          place := place[waits := Pending];
        }
      } else {
        place := place[waits := Never];
      }
      waits := waits + 1;
      return Empty;
    }

    // Op 72 on its own; a wait for a timer without a promise would never end, and `fatal` says so.
    method BlockOnTimer(id: nat) returns (reply: Reply, fatal: bool)
      requires Valid()
      modifies this`blocking
      ensures Valid()
      ensures fatal <==> id in timers && !timers[id].hasPromise
      ensures blocking == if id in timers && (timers[id].hasPromise && !timers[id].done)
                          then old(blocking) + [ForTimer(id, timers[id].generation)] else old(blocking)
      ensures !fatal ==> reply == if id !in timers then Invalid else if timers[id].done then Empty else Blocking
    {
      hide PlacesOk;
      if id !in timers {
        return Invalid, false;
      }
      if timers[id].hasPromise && timers[id].done {
        return Empty, false;
      }
      if !timers[id].hasPromise {
        return Empty, true;
      }
      blocking := blocking + [ForTimer(id, timers[id].generation)];
      return Blocking, false;
    }

    // Op 35.
    method BlockFor(delay: nat) returns (reply: Reply)
      requires Valid()
      modifies this`blocking, this`clock
      ensures Valid()
      ensures delay == 0 ==> reply == Empty && blocking == old(blocking)
      ensures delay > 0 ==> reply == Blocking && blocking == old(blocking) + [Sleep(clock + delay * 1_000_000)]
    {
      hide PlacesOk;
      if delay == 0 {
        return Empty;
      }
      var now := Now();
      blocking := blocking + [Sleep(now + delay * MS)];
      return Blocking;
    }

    // The innermost blocking call returns.
    method TakeCall() returns (reply: Reply)
      requires Valid() && |blocking| > 0
      modifies this`blocking
      ensures Valid() && blocking == old(blocking)[..|old(blocking)| - 1]
      ensures var b := old(blocking)[|old(blocking)| - 1];
              reply == Cancelled <==> b.ForTimer? && (b.timer !in timers || timers[b.timer].generation != b.generation || !timers[b.timer].done)
    {
      hide PlacesOk;
      var b := blocking[|blocking| - 1];
      blocking := blocking[..|blocking| - 1];
      if b.ForTimer? {
        if b.timer !in timers || timers[b.timer].generation != b.generation || !timers[b.timer].done {
          return Cancelled;
        }
      }
      return Empty;
    }

    // The timer's last reference is gone: its waits never complete.
    method Release(id: nat)
      requires Valid()
      modifies this`timers, this`others, this`waiters, this`place, this`orphaned
      ensures Valid() && timers == old(timers) - {id} && others == old(others) - {id}
      ensures forall w :: w in waiters <==> w in old(waiters) && w.timer != id
      ensures orphaned <==> old(orphaned) || (id in old(timers) && exists b :: b in blocking && b.ForTimer? && b.timer == id)
    {
      hide PlacesOk, RemoveAt;
      if id in others {
        others := others - {id};
        assert timers - {id} == timers;
        NotNamed(waiters, timers, id);
        NotBlocked(blocking, timers, id);
        return;
      }
      if id !in timers {
        assert timers - {id} == timers && others - {id} == others;
        NotNamed(waiters, timers, id);
        return;
      }
      var i := 0;
      while i < |waiters|
        invariant i <= |waiters| && PlacesOk(waits, waiters, record, place)
        invariant forall w :: w in waiters ==> w in old(waiters)
        invariant forall w :: w in old(waiters) && w !in waiters ==> w.timer == id
        invariant forall j :: 0 <= j < i ==> waiters[j].timer != id
        decreases |waiters| - i
        modifies this`waiters, this`place
      {
        if waiters[i].timer == id {
          LostKeeps(waits, waiters, record, place, i);
          WaitersDiffer(waits, waiters, record, place);
          RemoveAtMembers(waiters, i);
          RemoveAtBefore(waiters, i);
          place := place[waiters[i].wait := Lost];
          waiters := RemoveAt(waiters, i);
        } else {
          i := i + 1;
        }
      }
      WaitersIn(waiters);
      assert others - {id} == others;
      orphaned := orphaned || exists b :: b in blocking && b.ForTimer? && b.timer == id;
      timers := timers - {id};
    }

    // ---- Firing ----

    method FireOne(id: nat, ghost now: nat) returns (any: bool)
      requires Valid() && id in timers && now <= clock && timers[id].Due(now)
      modifies this`clock, this`timers, this`waiters, this`completions, this`place, this`record
      ensures Valid() && old(clock) <= clock
      ensures id in timers && timers == old(timers)[id := timers[id]] && Fired(old(timers)[id], timers[id], now, clock)
      ensures any == (old(timers)[id].hasPromise && !old(timers)[id].done)
      ensures !any ==> record == old(record)
      ensures record == old(record) || exists w :: w in old(waiters) && w.timer == id
      ensures forall w :: w in waiters <==> w in old(waiters) && w.timer != id
      ensures |old(record)| <= |record| && record[..|old(record)|] == old(record)
      ensures completions == old(completions) + record[|old(record)|..]
      ensures forall w :: w in old(waiters) && w.timer == id ==> Waited(w.wait, w.header, false) in record[|old(record)|..]
      ensures forall c :: c in record[|old(record)|..] ==>
                exists w :: w in old(waiters) && w.timer == id && w.generation == old(timers)[id].generation && c == Waited(w.wait, w.header, false)
    {
      hide PlacesOk, OfOne, TimersOk, WaitersOk, BlockedOk, Fired;
      ghost var before := timers;
      var t := timers[id];
      any := false;
      WaitersNamed(waiters, timers, id);
      if t.hasPromise && !t.done {
        t := t.(done := true);
        timers := timers[id := t];
        SettleWaiters(id, t.generation, false);
        any := true;
      }
      if t.repeating && t.timeout > 0 {
        var later := Now();
        t := t.Arm(later, t.timeout);
      } else {
        t := t.(armed := false, phase := 2);
      }
      timers := timers[id := t];
      assert timers == before[id := t];
      FiredIs(before[id], t, now, clock);
      FireKeeps(before, capacity, old(waiters), waiters, blocking, id, t, now, clock);
    }

    // Every armed timer that is due fires once: its promise is done, its waits complete.
    method FireTimers() returns (any: bool, ghost now: nat)
      requires Valid()
      modifies this`clock, this`timers, this`waiters, this`completions, this`place, this`record
      ensures Valid() && old(clock) <= now <= clock
      ensures timers.Keys == old(timers).Keys
      ensures forall id :: id in timers && !(old(timers)[id].armed && old(timers)[id].due <= now) ==> timers[id] == old(timers)[id]
      ensures forall id :: id in timers && old(timers)[id].armed && old(timers)[id].due <= now ==>
                var t, after := old(timers)[id], timers[id];
                && after.timeout == t.timeout && after.repeating == t.repeating
                && after.generation == t.generation && after.hasPromise == t.hasPromise && (t.done || t.hasPromise <==> after.done)
                && if t.repeating && t.timeout > 0
                   then after.armed && after.phase == t.phase && now + t.timeout * 1_000_000 <= after.due <= clock + t.timeout * 1_000_000
                   else !after.armed && after.phase == 2 && after.due == t.due
      ensures any <==> exists id :: id in old(timers) && old(timers)[id].armed && old(timers)[id].due <= now && (old(timers)[id].hasPromise && !old(timers)[id].done)
      ensures forall w :: w in waiters <==> w in old(waiters) && !(w.timer in old(timers) && old(timers)[w.timer].armed && old(timers)[w.timer].due <= now)
      ensures |old(record)| <= |record| && record[..|old(record)|] == old(record)
      ensures completions == old(completions) + record[|old(record)|..]
      ensures !any || old(waiters) == [] ==> record == old(record)
      ensures forall w :: w in old(waiters) && w.timer in old(timers) && old(timers)[w.timer].armed && old(timers)[w.timer].due <= now ==>
                Waited(w.wait, w.header, false) in record[|old(record)|..]
      ensures forall c :: c in record[|old(record)|..] ==>
                exists w :: w in old(waiters) && w.timer in old(timers) && old(timers)[w.timer].armed && old(timers)[w.timer].due <= now
                            && c == Waited(w.wait, w.header, false)
    {
      hide PlacesOk, WaitersOk, TimersOk, BlockedOk, Fired, OfOne, OfDue, DueBelow, FiredBelow, AnyBelow, WaitersBelow, RecordBelow;
      any := false;
      var at := Now();
      now := at;
      var id := 10;
      Handles(timers, capacity);
      NothingBelow(timers, waiters, record, now, clock);
      while id < capacity
        invariant Valid() && old(clock) <= now <= clock && id >= 10
        invariant FiredBelow(old(timers), timers, id, now, clock)
        invariant any == AnyBelow(old(timers), id, now)
        invariant WaitersBelow(old(waiters), waiters, old(timers), id, now)
        invariant RecordBelow(old(record), record, old(waiters), old(timers), id, now, any)
        invariant |old(record)| <= |record| && completions == old(completions) + record[|old(record)|..]
        decreases capacity - id
      {
        FiredSame(old(timers), timers, id, now, clock);
        AnyNext(old(timers), id, now);
        if id in timers && timers[id].armed && timers[id].due <= at {
          ghost var before, was, earlier, asking := record, timers, clock, waiters;
          var fired := FireOne(id, now);
          FiredNext(old(timers), was, timers, id, now, earlier, clock);
          WaitersNext(old(waiters), asking, waiters, old(timers), id, now);
          RecordsDue(record, |before|, asking, old(waiters), old(timers), id, was[id].generation, now);
          RecordNext(old(record), before, record, old(waiters), asking, old(timers), id, now, any, fired);
          any := any || fired;
          TailGrows(|old(record)|, before, record);
        } else {
          NotDue(old(timers), timers, waiters, old(waiters), old(record), record, id, now, clock, any);
        }
        id := id + 1;
      }
      Handles(timers, capacity);
      AllBelow(old(timers), timers, old(waiters), waiters, old(record), record, id, now, clock, any);
    }

    // ---- Waiting for the next event ----

    // The earliest moment something can happen, if anything can.
    method NextDeadline() returns (timed: bool, due: nat)
      requires Valid()
      ensures timed <==> (exists id :: id in timers && timers[id].armed) || exists i :: 0 <= i < |blocking| && blocking[i].Sleep?
      ensures timed ==>
                && ((exists id :: id in timers && timers[id].armed && timers[id].due == due) ||
                    (exists i :: 0 <= i < |blocking| && blocking[i].Sleep? && blocking[i].due == due))
                && (forall id :: id in timers && timers[id].armed ==> due <= timers[id].due)
                && (forall i :: 0 <= i < |blocking| && blocking[i].Sleep? ==> due <= blocking[i].due)
      ensures timed <==> Timed(timers, blocking)
      ensures timed ==> Deadline(timers, blocking, due) && forall d :: Deadline(timers, blocking, d) ==> due <= d
    {
      hide PlacesOk, WaitersOk, BlockedOk;
      timed, due := false, 0;
      var id := 10;
      while id < capacity
        invariant id >= 10
        invariant timed <==> exists k :: k in timers && k < id && timers[k].armed
        invariant timed ==> exists k :: k in timers && k < id && timers[k].armed && timers[k].due == due
        invariant forall k :: k in timers && k < id && timers[k].armed ==> due <= timers[k].due
        decreases capacity - id
      {
        if id in timers && timers[id].armed {
          if !timed || timers[id].due < due {
            due := timers[id].due;
          }
          timed := true;
        }
        id := id + 1;
      }
      for i := 0 to |blocking|
        invariant timed <==> (exists k :: k in timers && timers[k].armed) || (exists j :: 0 <= j < i && blocking[j].Sleep?)
        invariant timed ==> (exists k :: k in timers && timers[k].armed && timers[k].due == due)
                            || (exists j :: 0 <= j < i && blocking[j].Sleep? && blocking[j].due == due)
        invariant forall k :: k in timers && timers[k].armed ==> due <= timers[k].due
        invariant forall j :: 0 <= j < i && blocking[j].Sleep? ==> due <= blocking[j].due
      {
        if blocking[i].Sleep? {
          if !timed || blocking[i].due < due {
            due := blocking[i].due;
          }
          timed := true;
        }
      }
    }

    // The target's own requests: one may have finished, as the host says.
    method IoPoll(news: Option<Packet>) returns (any: bool)
      requires Valid()
      modifies this`io, this`completions, this`record
      ensures Valid() && (any <==> old(io) > 0 && news.Some?)
      ensures any ==> io == old(io) - 1 && completions == old(completions) + [Other(news.value)] && record == old(record) + [Other(news.value)]
      ensures !any ==> io == old(io) && completions == old(completions) && record == old(record)
    {
      hide PlacesOk;
      if io > 0 && news.Some? {
        var packet := news.value;
        OtherKeeps(waits, waiters, record, place, packet);
        io := io - 1;
        completions := completions + [Other(packet)];
        record := record + [Other(packet)];
        return true;
      }
      return false;
    }

    // Time passes, up to the bound or until a request of the target has news.
    method IoWait(bound: nat, bounded: bool)
      modifies this`clock
      ensures old(clock) <= clock
    {
      var now := Now();
    }

    // One relative subscription to the monotonic clock.
    method PollOneoff(timeout: nat)
      modifies this`clock
      ensures old(clock) + timeout <= clock
    {
      var now: nat :| now >= clock + timeout;
      clock := now;
    }

    // One turn of the loop that waits for an event.
    method AwaitEvent(news: Option<Packet>) returns (turn: Turn, ghost fired: bool, ghost finished: bool, ghost next: nat)
      requires Valid()
      modifies this`clock, this`timers, this`waiters, this`completions, this`place, this`record, this`io
      ensures Valid() && old(clock) <= clock
      // It reports a deadlock only when nothing at all is outstanding.
      ensures turn == Deadlock ==> waiters == [] && (!orphaned ==> blocking == [])
      // It does so exactly when no completion and no request is there, nothing is armed and nobody
      // sleeps, firing settled nothing, and the innermost blocked call, if there is one, waits for
      // a promise that is neither done nor gone; with a blocked call that is the case in which the
      // call is left behind.
      ensures turn == Deadlock <==>
                && completions == [] && io == 0
                && (forall id :: id in timers ==> !timers[id].armed) && (forall b :: b in blocking ==> b.ForTimer?)
                && (forall id :: id in timers && id in old(timers) && old(timers)[id].hasPromise && timers[id].done ==> old(timers)[id].done)
                && (blocking != [] ==>
                      var b := blocking[|blocking| - 1];
                      b.timer in timers && timers[b.timer].generation == b.generation && !timers[b.timer].done)
      ensures (forall id :: id in old(timers) ==> !old(timers)[id].armed) && (forall b :: b in blocking ==> b.ForTimer?) ==>
                (turn == Deadlock <==>
                   && old(completions) == [] && old(io) == 0
                   && (blocking != [] ==>
                         var b := blocking[|blocking| - 1];
                         b.timer in old(timers) && old(timers)[b.timer].generation == b.generation && !old(timers)[b.timer].done))
      // It reports an event at once when there is one: a completion, a due sleep, a settled or dropped promise.
      ensures old(completions) != [] ==> turn == Event
      ensures blocking != [] && blocking[|blocking| - 1].Sleep? && blocking[|blocking| - 1].due <= old(clock) ==> turn == Event
      ensures blocking != [] && blocking[|blocking| - 1].ForTimer? ==>
                var b := blocking[|blocking| - 1];
                b.timer !in old(timers) || old(timers)[b.timer].generation != b.generation || old(timers)[b.timer].done ==> turn == Event
      ensures fired || finished ==> turn == Event
      // It reports an event only when there is one.
      ensures turn == Event ==>
                || completions != [] || fired || finished
                || (blocking != [] &&
                    var b := blocking[|blocking| - 1];
                    if b.Sleep? then b.due <= clock
                    else b.timer !in timers || timers[b.timer].generation != b.generation || timers[b.timer].done)
      ensures fired <==> exists id :: id in timers && id in old(timers) && old(timers)[id].hasPromise && !old(timers)[id].done && timers[id].done
      ensures finished ==> io < old(io)
      // It neither returns without an event nor sleeps past the next one it knows.
      ensures turn == Slept && io == 0 ==>
                && next <= clock
                && ((exists id :: id in timers && timers[id].armed && timers[id].due == next) ||
                    (exists b :: b in blocking && b.Sleep? && b.due == next))
    {
      hide PlacesOk, WaitersOk, TimersOk, BlockedOk, TurnOk;
      ghost var was, before, requests, at := timers, completions, io, clock;
      turn, fired, finished, next := WaitOnce(news);
      DeadlockMeans(turn, before, completions, waiters, requests, io, was, timers, blocking, orphaned, at, clock, fired, finished, next);
      EventMeans(turn, before, completions, waiters, requests, io, was, timers, blocking, orphaned, at, clock, fired, finished, next);
    }

    method FireDue(ghost at: nat) returns (any: bool)
      requires Valid()
      modifies this`clock, this`timers, this`waiters, this`completions, this`place, this`record
      ensures Valid() && old(clock) <= clock
      ensures any ==> Settled(old(timers), timers) && Timed(old(timers), blocking)
      ensures !any ==> completions == old(completions) && !Settled(old(timers), timers)
      ensures !any && Timed(timers, blocking) ==> Timed(old(timers), blocking)
      ensures !any && !Timed(timers, blocking) && |blocking| > 0 ==>
                && (Ready(blocking[|blocking| - 1], timers, at) <==> Ready(blocking[|blocking| - 1], old(timers), at))
                && (Stuck(blocking[|blocking| - 1], timers) <==> !Ready(blocking[|blocking| - 1], timers, at))
    {
      hide PlacesOk, WaitersOk, TimersOk, BlockedOk, Timed, Ready, Settled, Stuck;
      ghost var fireTime;
      any, fireTime := FireTimers();
      AfterFiring(old(timers), timers, blocking, fireTime, clock, any, at);
    }

    method WaitOnce(news: Option<Packet>) returns (turn: Turn, ghost fired: bool, ghost finished: bool, ghost next: nat)
      requires Valid()
      modifies this`clock, this`timers, this`waiters, this`completions, this`place, this`record, this`io
      ensures Valid() && old(clock) <= clock
      ensures TurnOk(turn, old(completions), completions, waiters, old(io), io, old(timers), timers, blocking, orphaned,
                     old(clock), clock, fired, finished, next)
    {
      hide PlacesOk, WaitersOk, TimersOk, BlockedOk, Fired, Timed, Ready, Deadline, Settled, Stuck;
      fired, finished, next := false, false, 0;
      var at := Now();
      ReadyLater(blocking, timers, old(clock), at);
      Timeless(timers, blocking, at, old(clock));
      StuckMeans(blocking, timers, at);
      if completions != [] || (|blocking| > 0 && Ready(blocking[|blocking| - 1], timers, at)) {
        return Event, fired, finished, next;
      }
      var any := FireDue(at);
      fired := any;
      if any {
        return Event, fired, finished, next;
      }
      var polled := IoPoll(news);
      finished := polled;
      if polled {
        return Event, fired, finished, next;
      }
      var timed, due := NextDeadline();
      next := due;
      if !timed && io == 0 {
        NothingCanHappen(timers, capacity, waiters, blocking, at);
        return Deadlock, fired, finished, next;
      }
      var now := Now();
      if io > 0 {
        IoWait(if timed && due > now then due - now else 0, timed);
        return Slept, fired, finished, next;
      }
      if due > now {
        PollOneoff(due - now);
      }
      return Slept, fired, finished, next;
    }

    // Op 95: every completion so far, in order.
    method TakeCompletions(news: Option<Packet>) returns (batch: seq<Completion>)
      requires Valid()
      modifies this`clock, this`timers, this`waiters, this`completions, this`place, this`record, this`io, this`taken
      ensures Valid() && completions == []
      ensures old(completions) <= batch && taken == old(taken) + batch
      // What is due by now is among them, and so is what the target has to tell.
      ensures forall w :: w in old(waiters) && w.timer in old(timers) && old(timers)[w.timer].armed && old(timers)[w.timer].due <= old(clock) ==>
                Waited(w.wait, w.header, false) in batch
      ensures old(io) > 0 && news.Some? ==> Other(news.value) in batch
      ensures forall c :: c in batch && c !in old(completions) ==>
                || (c.Waited? && !c.cancelled && exists w :: w in old(waiters) && w.wait == c.wait && w.header == c.header)
                || (c.Other? && old(io) > 0 && news == Some(c.packet))
    {
      hide PlacesOk;
      var any, now := FireTimers();
      var polled := IoPoll(news);
      batch := completions;
      taken := taken + completions;
      completions := [];
    }
  }

  /** The proviso is needed: a call that blocks on a timer released meanwhile can be left behind
      when another timer gets the handle and reaches the same generation without a promise. */
  method OrphanedCall() returns (loop: EventLoop, turn: Turn)
    ensures loop.orphaned && turn == Deadlock && loop.blocking != []
  {
    hide PlacesOk, WaitersOk, TimersOk, BlockedOk;
    loop := BlockedAndReleased();
    ghost var none := loop.timers;
    var other := loop.MakeTimer(1, false);
    assert !(10 in none || 10 in loop.others);
    assert other == 10 && !loop.timers[10].Unsettled();
    var reply := loop.Promise(other);
    reply := loop.Cancel(other);
    assert loop.record == [];
    assert loop.timers == map[10 := loop.timers[10]] && loop.timers[10].generation == 2;
    ghost var fired, finished, next;
    turn, fired, finished, next := loop.AwaitEvent(None);
  }

  // A repeating timer whose first promise is done.
  method FiredOnce() returns (loop: EventLoop)
    ensures fresh(loop) && loop.Valid() && !loop.orphaned && loop.blocking == [] && loop.others == {} && loop.io == 0
    ensures loop.waiters == [] && loop.completions == [] && loop.record == [] && loop.timers.Keys == {10}
    ensures var t := loop.timers[10]; t.done && t.generation == 1 && t.phase == 1 && t.repeating
  {
    hide PlacesOk, WaitersOk, TimersOk, BlockedOk;
    loop := new EventLoop();
    ghost var none := loop.timers;
    var id := loop.MakeTimer(1, true);
    assert !(10 in none || 10 in loop.others);
    assert id == 10 && loop.timers.Keys == {10};
    var reply := loop.Promise(id);
    assert loop.timers[id].Unsettled() && loop.timers[id].due == loop.clock;
    var any;
    ghost var now;
    any, now := loop.FireTimers();
    assert loop.record == [];
    NoneLeft(loop.waiters);
  }

  method BlockedAndReleased() returns (loop: EventLoop)
    ensures fresh(loop) && loop.Valid() && loop.orphaned && loop.blocking == [ForTimer(10, 2)]
    ensures loop.timers == map[] && loop.others == {} && loop.waiters == [] && loop.completions == [] && loop.record == [] && loop.io == 0
  {
    hide PlacesOk, WaitersOk, TimersOk, BlockedOk;
    loop := FiredOnce();
    var reply := loop.Promise(10);
    var fatal;
    reply, fatal := loop.BlockOnTimer(10);
    assert loop.blocking == [ForTimer(10, 2)];
    assert loop.blocking[0] in loop.blocking;
    loop.Release(10);
    NoneLeft(loop.waiters);
  }

  lemma NoneLeft(waiters: seq<Waiter>)
    requires forall w :: w !in waiters
    ensures waiters == []
  {
    HeadIn(waiters);
  }

  lemma HeadIn(waiters: seq<Waiter>)
    ensures waiters == [] || waiters[0] in waiters
  {
  }

  // What one turn of the wait found.
  ghost predicate TurnOk(turn: Turn, before: seq<Completion>, completions: seq<Completion>, waiters: seq<Waiter>, requests: nat, io: nat,
                         was: map<nat, Timer>, timers: map<nat, Timer>, blocking: seq<Blocked>, orphaned: bool, earlier: nat, clock: nat,
                         fired: bool, finished: bool, next: nat) {
    && (turn == Deadlock ==> waiters == [] && (!orphaned ==> blocking == []))
    && (turn == Deadlock <==>
          && completions == [] && io == 0 && !Timed(timers, blocking) && !Settled(was, timers)
          && (blocking != [] ==> Stuck(blocking[|blocking| - 1], timers)))
    && (!Timed(was, blocking) ==>
          (turn == Deadlock <==> before == [] && requests == 0 && (blocking != [] ==> Stuck(blocking[|blocking| - 1], was))))
    && (before != [] || (blocking != [] && Ready(blocking[|blocking| - 1], was, earlier)) || fired || finished ==> turn == Event)
    && (turn == Event ==> completions != [] || fired || finished || (blocking != [] && Ready(blocking[|blocking| - 1], timers, clock)))
    && (fired <==> Settled(was, timers))
    && (finished ==> io < requests)
    && (turn == Slept && io == 0 ==> Deadline(timers, blocking, next) && next <= clock)
  }

  lemma TimedMeans(timers: map<nat, Timer>, blocking: seq<Blocked>)
    ensures !Timed(timers, blocking) <==>
            (forall id :: id in timers ==> !timers[id].armed) && forall b :: b in blocking ==> b.ForTimer?
  {
    assert (forall b :: b in blocking ==> b.ForTimer?) <==> forall i :: 0 <= i < |blocking| ==> blocking[i].ForTimer?;
  }

  lemma DeadlockMeans(turn: Turn, before: seq<Completion>, completions: seq<Completion>, waiters: seq<Waiter>, requests: nat, io: nat,
                      was: map<nat, Timer>, timers: map<nat, Timer>, blocking: seq<Blocked>, orphaned: bool, earlier: nat, clock: nat,
                      fired: bool, finished: bool, next: nat)
    requires TurnOk(turn, before, completions, waiters, requests, io, was, timers, blocking, orphaned, earlier, clock, fired, finished, next)
    ensures turn == Deadlock ==> waiters == [] && (!orphaned ==> blocking == [])
    ensures turn == Deadlock <==>
              && completions == [] && io == 0
              && (forall id :: id in timers ==> !timers[id].armed) && (forall b :: b in blocking ==> b.ForTimer?)
              && (forall id :: id in timers && id in was && was[id].hasPromise && timers[id].done ==> was[id].done)
              && (blocking != [] ==>
                    var b := blocking[|blocking| - 1];
                    b.timer in timers && timers[b.timer].generation == b.generation && !timers[b.timer].done)
    ensures (forall id :: id in was ==> !was[id].armed) && (forall b :: b in blocking ==> b.ForTimer?) ==>
              (turn == Deadlock <==>
                 && before == [] && requests == 0
                 && (blocking != [] ==>
                       var b := blocking[|blocking| - 1];
                       b.timer in was && was[b.timer].generation == b.generation && !was[b.timer].done))
    ensures fired <==> exists id :: id in timers && id in was && was[id].hasPromise && !was[id].done && timers[id].done
  {
    hide Timed, Deadline, Ready;
    TimedMeans(timers, blocking);
    TimedMeans(was, blocking);
    assert blocking != [] ==> blocking[|blocking| - 1] in blocking;
  }

  lemma EventMeans(turn: Turn, before: seq<Completion>, completions: seq<Completion>, waiters: seq<Waiter>, requests: nat, io: nat,
                   was: map<nat, Timer>, timers: map<nat, Timer>, blocking: seq<Blocked>, orphaned: bool, earlier: nat, clock: nat,
                   fired: bool, finished: bool, next: nat)
    requires TurnOk(turn, before, completions, waiters, requests, io, was, timers, blocking, orphaned, earlier, clock, fired, finished, next)
    ensures before != [] ==> turn == Event
    ensures blocking != [] && blocking[|blocking| - 1].Sleep? && blocking[|blocking| - 1].due <= earlier ==> turn == Event
    ensures blocking != [] && blocking[|blocking| - 1].ForTimer? ==>
              var b := blocking[|blocking| - 1];
              b.timer !in was || was[b.timer].generation != b.generation || was[b.timer].done ==> turn == Event
    ensures fired || finished ==> turn == Event
    ensures turn == Event ==>
              || completions != [] || fired || finished
              || (blocking != [] &&
                  var b := blocking[|blocking| - 1];
                  if b.Sleep? then b.due <= clock
                  else b.timer !in timers || timers[b.timer].generation != b.generation || timers[b.timer].done)
    ensures finished ==> io < requests
    ensures turn == Slept && io == 0 ==>
              && next <= clock
              && ((exists id :: id in timers && timers[id].armed && timers[id].due == next) ||
                  (exists b :: b in blocking && b.Sleep? && b.due == next))
  {
    hide Timed, Settled, Stuck;
    if turn == Slept && io == 0 {
      DeadlineMeans(timers, blocking, next);
    }
  }

  lemma DeadlineMeans(timers: map<nat, Timer>, blocking: seq<Blocked>, due: nat)
    requires Deadline(timers, blocking, due)
    ensures (exists id :: id in timers && timers[id].armed && timers[id].due == due) || (exists b :: b in blocking && b.Sleep? && b.due == due)
  {
    if i :| 0 <= i < |blocking| && blocking[i].Sleep? && blocking[i].due == due {
      assert blocking[i] in blocking;
    }
  }

  lemma ReadyLater(blocking: seq<Blocked>, timers: map<nat, Timer>, earlier: nat, at: nat)
    requires earlier <= at
    ensures blocking != [] && Ready(blocking[|blocking| - 1], timers, earlier) ==> Ready(blocking[|blocking| - 1], timers, at)
  {
  }

  // What firing leaves of the question whether anything can happen.
  lemma AfterFiring(before: map<nat, Timer>, after: map<nat, Timer>, blocking: seq<Blocked>, now: nat, later: nat, any: bool, at: nat)
    requires after.Keys == before.Keys
    requires forall id :: id in after && !(before[id].armed && before[id].due <= now) ==> after[id] == before[id]
    requires forall id :: id in after && before[id].armed && before[id].due <= now ==>
               var t, after := before[id], after[id];
               && after.timeout == t.timeout && after.repeating == t.repeating
               && after.generation == t.generation && after.hasPromise == t.hasPromise && (t.done || t.hasPromise <==> after.done)
               && if t.repeating && t.timeout > 0
                  then after.armed && after.phase == t.phase && now + t.timeout * 1_000_000 <= after.due <= later + t.timeout * 1_000_000
                  else !after.armed && after.phase == 2 && after.due == t.due
    requires any <==> exists id :: id in before && before[id].armed && before[id].due <= now && before[id].hasPromise && !before[id].done
    ensures any ==> Settled(before, after) && Timed(before, blocking)
    ensures !any ==> !Settled(before, after) && (Timed(after, blocking) ==> Timed(before, blocking))
    ensures !any && !Timed(after, blocking) && |blocking| > 0 ==>
              (Ready(blocking[|blocking| - 1], after, at) <==> Ready(blocking[|blocking| - 1], before, at))
    ensures !any && !Timed(after, blocking) && |blocking| > 0 ==>
              (Stuck(blocking[|blocking| - 1], after) <==> !Ready(blocking[|blocking| - 1], after, at))
  {
    hide Fired, Timed, Settled, Ready, Stuck, Timer.Due, Timer.Unsettled;
    FiredMeans(before, after, now, later);
    DueMeans(before, now);
    if any {
      SomeoneSettled(before, after, blocking, now, later);
    } else {
      NobodySettled(before, after, now, later);
      StillUntimed(before, after, blocking, now, later);
      if !Timed(after, blocking) {
        QuietFire(blocking, before, after, now, later, at);
        StuckMeans(blocking, after, at);
      }
    }
  }

  predicate Deadline(timers: map<nat, Timer>, blocking: seq<Blocked>, due: nat) {
    || (exists id :: id in timers && timers[id].armed && timers[id].due == due)
    || (exists i :: 0 <= i < |blocking| && blocking[i].Sleep? && blocking[i].due == due)
  }

  predicate Timed(timers: map<nat, Timer>, blocking: seq<Blocked>) {
    || (exists id :: id in timers && timers[id].armed)
    || (exists i :: 0 <= i < |blocking| && blocking[i].Sleep?)
  }

  lemma Timeless(timers: map<nat, Timer>, blocking: seq<Blocked>, now: nat, at: nat)
    ensures !Timed(timers, blocking) && |blocking| > 0 ==>
              (Ready(blocking[|blocking| - 1], timers, now) <==> Ready(blocking[|blocking| - 1], timers, at))
  {
  }

  // Firing that wakes nobody leaves the innermost blocked call as it was.
  lemma QuietFire(blocking: seq<Blocked>, before: map<nat, Timer>, after: map<nat, Timer>, now: nat, later: nat, at: nat)
    requires before.Keys == after.Keys && !Timed(after, blocking)
    requires forall id :: id in after ==> Fired(before[id], after[id], now, later)
    requires !exists id :: id in before && before[id].Due(now) && before[id].Unsettled()
    ensures |blocking| > 0 ==> (Ready(blocking[|blocking| - 1], after, at) <==> Ready(blocking[|blocking| - 1], before, at))
    ensures forall id :: id in after ==> !after[id].armed
  {
    if |blocking| > 0 {
      QuietReady(blocking[|blocking| - 1], before, after, now, later, at);
    }
  }

  lemma QuietReady(b: Blocked, before: map<nat, Timer>, after: map<nat, Timer>, now: nat, later: nat, at: nat)
    requires b.ForTimer? && before.Keys == after.Keys
    requires forall id :: id in after ==> Fired(before[id], after[id], now, later)
    requires !exists id :: id in before && before[id].Due(now) && before[id].Unsettled()
    ensures Ready(b, after, at) <==> Ready(b, before, at)
  {
  }

  // The innermost blocked call waits for a promise that is neither done nor gone.
  predicate Stuck(b: Blocked, timers: map<nat, Timer>) {
    b.ForTimer? && b.timer in timers && timers[b.timer].generation == b.generation && !timers[b.timer].done
  }

  lemma StuckMeans(blocking: seq<Blocked>, timers: map<nat, Timer>, now: nat)
    ensures !Settled(timers, timers)
    ensures |blocking| > 0 && !Timed(timers, blocking) ==>
              (Stuck(blocking[|blocking| - 1], timers) <==> !Ready(blocking[|blocking| - 1], timers, now))
  {
  }

  lemma NobodySettled(before: map<nat, Timer>, after: map<nat, Timer>, now: nat, later: nat)
    requires before.Keys == after.Keys && forall id :: id in after ==> Fired(before[id], after[id], now, later)
    requires !exists id :: id in before && before[id].Due(now) && before[id].Unsettled()
    ensures !Settled(before, after)
  {
  }

  lemma StillUntimed(before: map<nat, Timer>, after: map<nat, Timer>, blocking: seq<Blocked>, now: nat, later: nat)
    requires before.Keys == after.Keys && forall id :: id in after ==> Fired(before[id], after[id], now, later)
    ensures Timed(after, blocking) ==> Timed(before, blocking)
  {
  }

  // A promise that was not settled is.
  ghost predicate Settled(before: map<nat, Timer>, after: map<nat, Timer>) {
    exists id :: id in before && id in after && before[id].Unsettled() && after[id].done
  }

  lemma SomeoneSettled(before: map<nat, Timer>, after: map<nat, Timer>, blocking: seq<Blocked>, now: nat, later: nat)
    requires before.Keys == after.Keys && forall id :: id in after ==> Fired(before[id], after[id], now, later)
    requires exists id :: id in before && before[id].Due(now) && before[id].Unsettled()
    ensures Settled(before, after) && Timed(before, blocking)
  {
  }

  /** Without an armed timer or a sleep nobody waits asynchronously, and the innermost blocking
      call, if any, can return. */
  lemma NothingCanHappen(timers: map<nat, Timer>, capacity: nat, waiters: seq<Waiter>, blocking: seq<Blocked>, now: nat)
    requires TimersOk(timers, capacity) && WaitersOk(waiters, timers) && !Timed(timers, blocking)
    ensures waiters == []
    ensures BlockedOk(blocking, timers) && |blocking| > 0 ==> Ready(blocking[|blocking| - 1], timers, now)
  {
    assert waiters != [] ==> timers[waiters[0].timer].Ok();
    assert |blocking| > 0 && blocking[|blocking| - 1].ForTimer? && BlockedOk(blocking, timers) ==>
        timers[blocking[|blocking| - 1].timer].Ok();
  }

  lemma Handles(timers: map<nat, Timer>, capacity: nat)
    requires TimersOk(timers, capacity)
    ensures forall id :: id in timers ==> 10 <= id < capacity
  {
  }

  // ---- The timers below a handle have been looked at ----

  ghost predicate FiredBelow(first: map<nat, Timer>, timers: map<nat, Timer>, id: nat, now: nat, later: nat) {
    && timers.Keys == first.Keys
    && (forall k :: k in timers && k >= id ==> timers[k] == first[k])
    && (forall k :: k in timers && k < id ==> Fired(first[k], timers[k], now, later))
  }

  ghost predicate AnyBelow(first: map<nat, Timer>, id: nat, now: nat) {
    exists k :: k in first && k < id && first[k].Due(now) && first[k].Unsettled()
  }

  // The timer of a wait was due, and has been looked at.
  predicate DueBelow(w: Waiter, first: map<nat, Timer>, id: nat, now: nat) {
    w.timer in first && w.timer < id && first[w.timer].Due(now)
  }

  ghost predicate WaitersBelow(before: seq<Waiter>, waiters: seq<Waiter>, first: map<nat, Timer>, id: nat, now: nat) {
    forall w :: w in waiters <==> w in before && !DueBelow(w, first, id, now)
  }

  ghost predicate RecordBelow(before: seq<Completion>, record: seq<Completion>, waiters: seq<Waiter>, first: map<nat, Timer>,
                              id: nat, now: nat, any: bool) {
    && |before| <= |record| && record[..|before|] == before
    && (!any || waiters == [] ==> record == before)
    && (forall w :: w in waiters && DueBelow(w, first, id, now) ==> Waited(w.wait, w.header, false) in record[|before|..])
    && (forall i :: |before| <= i < |record| ==> OfDue(record[i], waiters, first, now))
  }

  lemma NothingBelow(timers: map<nat, Timer>, waiters: seq<Waiter>, record: seq<Completion>, now: nat, later: nat)
    requires forall k :: k in timers ==> k >= 10
    ensures FiredBelow(timers, timers, 10, now, later) && !AnyBelow(timers, 10, now)
    ensures WaitersBelow(waiters, waiters, timers, 10, now) && RecordBelow(record, record, waiters, timers, 10, now, false)
  {
  }

  lemma FiredSame(first: map<nat, Timer>, timers: map<nat, Timer>, id: nat, now: nat, later: nat)
    requires FiredBelow(first, timers, id, now, later)
    ensures id in timers <==> id in first
    ensures id in timers ==> timers[id] == first[id]
  {
  }

  // What was fired before stays fired as time goes on.
  lemma FiredNext(first: map<nat, Timer>, before: map<nat, Timer>, after: map<nat, Timer>, id: nat, now: nat, earlier: nat, later: nat)
    requires FiredBelow(first, before, id, now, earlier) && earlier <= later
    requires id in before && id in after && after == before[id := after[id]] && Fired(before[id], after[id], now, later)
    ensures FiredBelow(first, after, id + 1, now, later)
  {
  }

  lemma AnyNext(first: map<nat, Timer>, id: nat, now: nat)
    ensures AnyBelow(first, id + 1, now) <==> AnyBelow(first, id, now) || (id in first && first[id].Due(now) && first[id].Unsettled())
  {
    if AnyBelow(first, id, now) {
      var k :| k in first && k < id && first[k].Due(now) && first[k].Unsettled();
      assert k < id + 1;
    }
  }

  lemma WaitersNext(before: seq<Waiter>, waiters: seq<Waiter>, after: seq<Waiter>, first: map<nat, Timer>, id: nat, now: nat)
    requires WaitersBelow(before, waiters, first, id, now) && id in first && first[id].Due(now)
    requires forall w :: w in after <==> w in waiters && w.timer != id
    ensures WaitersBelow(before, after, first, id + 1, now)
    ensures forall w :: w in waiters ==> w in before
    ensures forall w :: w in before && w.timer == id ==> w in waiters
  {
  }

  lemma RecordNext(before: seq<Completion>, record: seq<Completion>, after: seq<Completion>, waiters: seq<Waiter>, asking: seq<Waiter>,
                   first: map<nat, Timer>, id: nat, now: nat, any: bool, fired: bool)
    requires RecordBelow(before, record, waiters, first, id, now, any) && id in first && first[id].Due(now)
    requires |record| <= |after| && after[..|record|] == record && (!fired ==> after == record)
    requires after == record || exists w :: w in asking && w.timer == id
    requires forall w :: w in asking ==> w in waiters
    requires forall w :: w in waiters && w.timer == id ==> w in asking
    requires forall w :: w in asking && w.timer == id ==> Waited(w.wait, w.header, false) in after[|record|..]
    requires forall i :: |record| <= i < |after| ==> OfDue(after[i], waiters, first, now)
    ensures RecordBelow(before, after, waiters, first, id + 1, now, any || fired)
  {
    hide OfDue;
    assert after[|before|..] == record[|before|..] + after[|record|..];
    assert forall i :: 0 <= i < |record| ==> after[i] == record[i];
    forall w | w in waiters && DueBelow(w, first, id + 1, now)
      ensures Waited(w.wait, w.header, false) in after[|before|..]
    {
      if w.timer != id {
        assert DueBelow(w, first, id, now);
      }
    }
  }

  // A timer that is not due stays as it is.
  lemma NotDue(first: map<nat, Timer>, timers: map<nat, Timer>, waiters: seq<Waiter>, before: seq<Waiter>,
               record0: seq<Completion>, record: seq<Completion>, id: nat, now: nat, later: nat, any: bool)
    requires !(id in first && first[id].Due(now))
    requires FiredBelow(first, timers, id, now, later) && WaitersBelow(before, waiters, first, id, now)
    requires RecordBelow(record0, record, before, first, id, now, any)
    ensures FiredBelow(first, timers, id + 1, now, later) && WaitersBelow(before, waiters, first, id + 1, now)
    ensures RecordBelow(record0, record, before, first, id + 1, now, any)
  {
    assert forall w :: DueBelow(w, first, id + 1, now) <==> DueBelow(w, first, id, now);
  }

  lemma AllBelow(first: map<nat, Timer>, timers: map<nat, Timer>, before: seq<Waiter>, waiters: seq<Waiter>,
                 record0: seq<Completion>, record: seq<Completion>, id: nat, now: nat, later: nat, any: bool)
    requires forall k :: k in timers ==> k < id
    requires FiredBelow(first, timers, id, now, later) && WaitersBelow(before, waiters, first, id, now)
    requires RecordBelow(record0, record, before, first, id, now, any)
    ensures timers.Keys == first.Keys
    ensures forall id :: id in timers && !(first[id].armed && first[id].due <= now) ==> timers[id] == first[id]
    ensures forall id :: id in timers && first[id].armed && first[id].due <= now ==>
              var t, after := first[id], timers[id];
              && after.timeout == t.timeout && after.repeating == t.repeating
              && after.generation == t.generation && after.hasPromise == t.hasPromise && (t.done || t.hasPromise <==> after.done)
              && if t.repeating && t.timeout > 0
                 then after.armed && after.phase == t.phase && now + t.timeout * 1_000_000 <= after.due <= later + t.timeout * 1_000_000
                 else !after.armed && after.phase == 2 && after.due == t.due
    ensures AnyBelow(first, id, now) <==>
            exists k :: k in first && first[k].armed && first[k].due <= now && first[k].hasPromise && !first[k].done
    ensures forall w :: w in waiters <==> w in before && !(w.timer in first && first[w.timer].armed && first[w.timer].due <= now)
    ensures |record0| <= |record| && record[..|record0|] == record0 && (!any || before == [] ==> record == record0)
    ensures forall w :: w in before && w.timer in first && first[w.timer].armed && first[w.timer].due <= now ==>
              Waited(w.wait, w.header, false) in record[|record0|..]
    ensures forall c :: c in record[|record0|..] ==>
              exists w :: w in before && w.timer in first && first[w.timer].armed && first[w.timer].due <= now
                          && c == Waited(w.wait, w.header, false)
  {
    hide Fired;
    assert forall w :: DueBelow(w, first, id, now) <==> w.timer in first && first[w.timer].armed && first[w.timer].due <= now;
    assert forall k :: k in timers ==> Fired(first[k], timers[k], now, later);
    FiredMeans(first, timers, now, later);
    forall c | c in record[|record0|..]
      ensures exists w :: w in before && w.timer in first && first[w.timer].armed && first[w.timer].due <= now
                          && c == Waited(w.wait, w.header, false)
    {
      assert OfDue(c, before, first, now);
    }
  }

  lemma FiredMeans(first: map<nat, Timer>, timers: map<nat, Timer>, now: nat, later: nat)
    requires timers.Keys == first.Keys
    ensures (forall id :: id in timers ==> Fired(first[id], timers[id], now, later)) <==>
            && (forall id :: id in timers && !(first[id].armed && first[id].due <= now) ==> timers[id] == first[id])
            && (forall id :: id in timers && first[id].armed && first[id].due <= now ==>
                  var t, after := first[id], timers[id];
                  && after.timeout == t.timeout && after.repeating == t.repeating
                  && after.generation == t.generation && after.hasPromise == t.hasPromise && (t.done || t.hasPromise <==> after.done)
                  && if t.repeating && t.timeout > 0
                     then after.armed && after.phase == t.phase && now + t.timeout * 1_000_000 <= after.due <= later + t.timeout * 1_000_000
                     else !after.armed && after.phase == 2 && after.due == t.due)
  {
  }

  lemma DueMeans(timers: map<nat, Timer>, now: nat)
    ensures (exists id :: id in timers && timers[id].Due(now) && timers[id].Unsettled()) <==>
            exists id :: id in timers && timers[id].armed && timers[id].due <= now && timers[id].hasPromise && !timers[id].done
  {
  }

  lemma TailGrows(n: nat, before: seq<Completion>, after: seq<Completion>)
    requires n <= |before| <= |after| && after[..|before|] == before
    ensures after[n..] == before[n..] + after[|before|..]
  {
    assert forall i :: 0 <= i < |before| ==> after[i] == before[i];
  }

  lemma RecordsDue(record: seq<Completion>, from: nat, waiters: seq<Waiter>, first: seq<Waiter>, timers: map<nat, Timer>,
                   id: nat, generation: nat, now: nat)
    requires from <= |record| && forall c :: c in record[from..] ==>
               exists w :: w in waiters && w.timer == id && w.generation == generation && c == Waited(w.wait, w.header, false)
    requires forall w :: w in waiters ==> w in first
    requires id in timers && timers[id].Due(now)
    ensures forall i :: from <= i < |record| ==> OfDue(record[i], first, timers, now)
  {
    forall i | from <= i < |record|
      ensures OfDue(record[i], first, timers, now)
    {
      var c := record[from..][i - from];
      assert c in record[from..] && record[i] == c;
      var w :| w in waiters && w.timer == id && w.generation == generation && c == Waited(w.wait, w.header, false);
      assert w in first;
    }
  }

  lemma FiredIs(t: Timer, after: Timer, now: nat, later: nat)
    requires t.Due(now) && now <= later
    requires var u := if t.hasPromise && !t.done then t.(done := true) else t;
             if u.repeating && u.timeout > 0 then exists at: nat :: now <= at <= later && after == u.Arm(at, u.timeout)
             else after == u.(armed := false, phase := 2)
    ensures Fired(t, after, now, later)
  {
  }

  lemma FireKeeps(timers: map<nat, Timer>, capacity: nat, before: seq<Waiter>, waiters: seq<Waiter>, blocking: seq<Blocked>,
                  id: nat, after: Timer, now: nat, later: nat)
    requires TimersOk(timers, capacity) && WaitersOk(before, timers) && id in timers && timers[id].Due(now)
    requires Fired(timers[id], after, now, later)
    requires forall w :: w in waiters <==> w in before && w.timer != id
    ensures TimersOk(timers[id := after], capacity) && WaitersOk(waiters, timers[id := after])
    ensures BlockedOk(blocking, timers) ==> BlockedOk(blocking, timers[id := after])
  {
    WaitersIn(waiters);
  }

  // The completion of a wait whose timer was due.
  ghost predicate OfDue(c: Completion, waiters: seq<Waiter>, timers: map<nat, Timer>, now: nat) {
    exists w :: w in waiters && w.timer in timers && timers[w.timer].Due(now) && c == Waited(w.wait, w.header, false)
  }

  lemma NotNamed(waiters: seq<Waiter>, timers: map<nat, Timer>, id: nat)
    requires WaitersOk(waiters, timers) && id !in timers
    ensures forall w :: w in waiters ==> w.timer != id
  {
  }

  lemma NotBlocked(blocking: seq<Blocked>, timers: map<nat, Timer>, id: nat)
    requires id !in timers
    ensures BlockedOk(blocking, timers) ==> forall b :: b in blocking && b.ForTimer? ==> b.timer != id
  {
  }

  // All waits for a timer are for its current promise.
  lemma WaitersNamed(waiters: seq<Waiter>, timers: map<nat, Timer>, id: nat)
    requires WaitersOk(waiters, timers) && id in timers
    ensures forall w :: w in waiters && w.timer == id ==> timers[id].Unsettled() && w.generation == timers[id].generation
  {
  }

  lemma WaitersIn(waiters: seq<Waiter>)
    ensures forall i :: 0 <= i < |waiters| ==> waiters[i] in waiters
  {
  }

  lemma WaitersDiffer(waits: nat, waiters: seq<Waiter>, record: seq<Completion>, place: map<nat, WaitPlace>)
    requires PlacesOk(waits, waiters, record, place)
    ensures forall j, k :: 0 <= j < k < |waiters| ==> waiters[j].wait != waiters[k].wait
  {
  }

  lemma RemoveAtBefore(waiters: seq<Waiter>, i: nat)
    requires i < |waiters|
    ensures |RemoveAt(waiters, i)| == |waiters| - 1
    ensures forall j :: 0 <= j < i ==> RemoveAt(waiters, i)[j] == waiters[j]
  {
  }
}
