/** Started operations on the host's side: from the call that starts one, through the queue,
    the long poll and the diversion of cancelled ones, to the thread that releases it. */
module Completions {
  import opened Bytes
  import opened Wrappers
  import opened Packets

  // A started operation. Operations are numbered; the host itself tells them apart by identity.
  datatype Operation = Operation(id: nat, handle: nat, header: Header)

  datatype Completion = Done(op: Operation, failed: bool, bytes: seq<Byte>) | Failure(op: Operation, text: seq<Byte>)

  // The operation's result, or none when it returned a promise, which is counted.
  datatype Settling = Settling(op: Operation, result: Option<(bool, seq<Byte>)>) {
    predicate Counted() { result.None? }
  }

  // Where an operation's promise and resource references are.
  datatype Place = Unsettled | Queued | Diverted(handle: nat) | Delivered | Released

  datatype BatchReply = Batch(packets: seq<Byte>) | Broken(text: seq<Byte>)

  const CANCELLED: nat := 10
  const PARTS: nat := 512

  function PacketOf(c: Completion): Packet
    requires c.Done?
  {
    Packet(c.op.header, c.failed, c.bytes)
  }

  function PacketsOf(cs: seq<Completion>): (r: seq<Packet>)
    requires forall i :: 0 <= i < |cs| ==> cs[i].Done?
    ensures |r| == |cs| && forall i :: 0 <= i < |cs| ==> r[i] == Packet(cs[i].op.header, cs[i].failed, cs[i].bytes)
  {
    seq(|cs|, i requires 0 <= i < |cs| => PacketOf(cs[i]))
  }

  // How many completions one batch takes: whole ones, up to a failure, two parts each.
  function BatchSize(queue: seq<Completion>, parts: nat): (n: nat)
    ensures n <= |queue| && (n > 0 ==> parts + 2 * (n - 1) < 512)
    ensures forall i :: 0 <= i < n ==> queue[i].Done?
    ensures n < |queue| && queue[n].Done? ==> parts + 2 * n >= 512
    decreases |queue|
  {
    if queue == [] || parts >= PARTS || queue[0].Failure? then 0
    else 1 + BatchSize(queue[1..], parts + 2)
  }

  function Ops(cs: seq<Completion>): (r: seq<Operation>)
    ensures |r| == |cs| && forall i :: 0 <= i < |cs| ==> r[i] == cs[i].op
  {
    seq(|cs|, i requires 0 <= i < |cs| => cs[i].op)
  }

  // The list holds exactly the operations at this place, each once.
  ghost predicate Lists(ops: seq<Operation>, place: map<nat, Place>, p: Place) {
    && (forall i :: 0 <= i < |ops| ==> ops[i].id in place && place[ops[i].id] == p)
    && (forall i, j :: 0 <= i < j < |ops| ==> ops[i].id != ops[j].id)
    && (forall id :: id in place && place[id] == p ==> exists i :: 0 <= i < |ops| && ops[i].id == id)
  }

  // Operations of a handle whose promise has not settled.
  function Pending(settling: map<nat, Settling>, handle: nat): set<nat> {
    set id | id in settling && settling[id].Counted() && settling[id].op.handle == handle
  }

  ghost predicate Counts(waiting: map<nat, nat>, settling: map<nat, Settling>) {
    forall h :: if h in waiting then waiting[h] == |Pending(settling, h)| > 0 else Pending(settling, h) == {}
  }

  // A cancellation, as the host encodes errors: kind 10 first.
  predicate IsCancelled(failed: bool, bytes: seq<Byte>) {
    failed && |bytes| >= 8 && WordAt(bytes, 0) == CANCELLED
  }

  lemma CancelledMeans(failed: bool, bytes: seq<Byte>)
    ensures IsCancelled(failed, bytes) <==> failed && |bytes| >= 8 && bytes[..8] == [10, 0, 0, 0, 0, 0, 0, 0]
  {
    if |bytes| >= 8 {
      assert bytes[0..8] == bytes[..8];
      SmallNumber(bytes[..8], 10);
      assert bytes[..8] == [10, 0, 0, 0, 0, 0, 0, 0] <==> bytes[..8][0] == 10 && forall i :: 1 <= i < 8 ==> bytes[..8][i] == 0;
    }
  }

  // Each operation is in exactly one place; `held` is the one whose result is being handed on.
  ghost predicate Placement(started: nat, settling: map<nat, Settling>, queue: seq<Completion>, delivered: seq<Completion>,
                            released: seq<Operation>, cancelling: map<nat, seq<Operation>>, place: map<nat, Place>, held: set<nat>) {
    && (forall id :: id in place <==> 0 <= id < started)
    && (forall id :: id in held ==> id in place && place[id] == Unsettled)
    && (forall id :: id in settling <==> id in place && place[id] == Unsettled && id !in held)
    && (forall id :: id in settling ==> settling[id].op.id == id)
    && Lists(Ops(queue), place, Queued)
    && Lists(Ops(delivered), place, Delivered)
    && Lists(released, place, Released)
    && (forall h :: h in cancelling ==> Lists(cancelling[h], place, Diverted(h)))
    && (forall id :: id in place && place[id].Diverted? ==> place[id].handle in cancelling)
  }

  // What the completion thread learns from one item of a batch.
  datatype Told = Packed(packet: Packet) | Defect(text: seq<Byte>)

  function Item(c: Completion): Told { if c.Done? then Packed(PacketOf(c)) else Defect(c.text) }

  function Items(cs: seq<Completion>): (r: seq<Told>)
    ensures |r| == |cs|
    ensures forall i :: 0 <= i < |cs| ==>
              r[i] == if cs[i].Done? then Packed(Packet(cs[i].op.header, cs[i].failed, cs[i].bytes)) else Defect(cs[i].text)
  {
    seq(|cs|, i requires 0 <= i < |cs| => Item(cs[i]))
  }

  // What it reads from a reply; a reply that does not parse would stop it.
  function ToldBy(reply: BatchReply): Option<seq<Told>> {
    match reply
    case Broken(text) => Some([Defect(text)])
    case Batch(bytes) =>
      var packets := Parse(bytes);
      if packets.None? then None
      else Some(seq(|packets.value|, i requires 0 <= i < |packets.value| => Packed(packets.value[i])))
  }

  // What it has read from all replies so far.
  function ToldByAll(replies: seq<BatchReply>): Option<seq<Told>> {
    if replies == [] then Some([])
    else
      var before, last := ToldByAll(replies[..|replies| - 1]), ToldBy(replies[|replies| - 1]);
      if before.None? || last.None? then None else Some(before.value + last.value)
  }

  ghost predicate Sized(queue: seq<Completion>, settling: map<nat, Settling>) {
    && (forall i :: 0 <= i < |queue| && queue[i].Done? ==> IsPacket(PacketOf(queue[i])))
    && (forall id :: id in settling ==> IsHeader(settling[id].op.header))
  }

  class Host {
    var queue: seq<Completion>
    var waiter: bool
    var cancelling: map<nat, seq<Operation>>
    var waiting: map<nat, nat>
    var settling: map<nat, Settling>
    var started: nat
    ghost var place: map<nat, Place>
    ghost var enqueued: seq<Completion>
    ghost var delivered: seq<Completion>
    ghost var released: seq<Operation>
    ghost var replies: seq<BatchReply>

    ghost predicate PlacedBut(held: set<nat>)
      reads this
    {
      Placement(started, settling, queue, delivered, released, cancelling, place, held)
    }

    ghost predicate ValidBut(held: set<nat>)
      reads this
    {
      && PlacedBut(held)
      && Counts(waiting, settling)
      // Nothing is lost, repeated or reordered between the queue and the completion thread.
      && enqueued == delivered + queue
      && (waiter ==> queue == [])
      && Sized(queue, settling)
      // Every batch is read back as what was put into it.
      && ToldByAll(replies) == Some(Items(delivered))
    }

    ghost predicate Valid()
      reads this
    {
      ValidBut({})
    }

    constructor ()
      ensures Valid() && queue == [] && !waiter && cancelling == map[] && settling == map[]
      ensures started == 0 && enqueued == [] && delivered == [] && released == []
    {
      hide Lists, Counts, Sized, ToldByAll, Items;
      NothingStarted();
      queue, waiter, cancelling, waiting, settling, started := [], false, map[], map[], map[], 0;
      place, enqueued, delivered, released, replies := map[], [], [], [], [];
    }

    // An operation is started; a synchronous failure that the caller checks is not registered.
    method Start(handle: nat, header: Header, check: bool, result: Option<(bool, seq<Byte>)>) returns (refused: bool)
      requires Valid() && IsHeader(header)
      modifies this
      ensures Valid()
      ensures refused == (check && result.Some? && result.value.0)
      // begin_request then releases the references itself, and no completion is registered.
      ensures refused ==>
                && released == old(released) + [Operation(old(started), handle, header)] && started == old(started) + 1
                && settling == old(settling) && queue == old(queue) && cancelling == old(cancelling)
                && enqueued == old(enqueued) && delivered == old(delivered) && waiter == old(waiter)
      ensures !refused ==>
                && settling == old(settling)[old(started) := Settling(Operation(old(started), handle, header), result)]
                && started == old(started) + 1
                && queue == old(queue) && cancelling == old(cancelling) && released == old(released)
                && enqueued == old(enqueued) && delivered == old(delivered) && waiter == old(waiter)
    {
      hide Placement, Counts, ToldByAll, Items, IsHeader;
      if check && result.Some? && result.value.0 {
        ghost var op := Operation(started, handle, header);
        RefusePlaced(started, settling, queue, delivered, released, cancelling, place, op);
        place := place[started := Released];
        released := released + [op];
        started := started + 1;
        return true;
      }
      NewId(started, settling, queue, delivered, released, cancelling, place);
      var counted := result.None?;
      ghost var before := settling;
      if counted {
        waiting := waiting[handle := (if handle in waiting then waiting[handle] else 0) + 1];
      }
      settling := settling[started := Settling(Operation(started, handle, header), result)];
      CountsStart(old(waiting), before, started, settling[started]);
      StartPlaced(started, before, queue, delivered, released, cancelling, place, settling[started]);
      place := place[started := Unsettled];
      started := started + 1;
      return false;
    }

    // The encoded records of one batch, taken from the front of the queue.
    method TakeParts() returns (parts: seq<Byte>, n: nat)
      modifies this`queue
      ensures n == BatchSize(old(queue), 0) <= |old(queue)| && queue == old(queue)[n..]
      ensures forall i :: 0 <= i < n ==> old(queue)[i].Done?
      ensures parts == Records(PacketsOf(old(queue)[..n]))
    {
      hide BatchSize, Records, PacketBytes;
      parts, n := [], 0;
      ghost var packets: seq<Packet> := [];
      ghost var all := queue;
      NoRecords();
      assert all[0..] == all && PacketsOf(all[..0]) == [];
      while |queue| > 0 && 2 * n < PARTS && queue[0].Done?
        invariant n <= |all| && BatchSize(all, 0) == n + BatchSize(all[n..], 2 * n)
        invariant forall i :: 0 <= i < n ==> all[i].Done?
        invariant packets == PacketsOf(all[..n]) && parts == Records(packets)
        invariant queue == all[n..]
        decreases |queue|
      {
        BatchStep(all, n);
        var packet := PacketOf(queue[0]);
        var bytes := PacketBytes(packet);
        RecordsAppend(packets, [packet]);
        OneRecord(packet);
        packets := packets + [packet];
        parts := parts + (Word(|bytes|) + bytes);
        queue := queue[1..];
        n := n + 1;
      }
      BatchStep(all, n);
    }

    // One batch, or a failure alone.
    method TakeBatch() returns (reply: BatchReply)
      requires Valid() && queue != [] && !waiter
      modifies this`queue, this`place, this`delivered, this`replies
      ensures Valid()
      ensures var n := BatchSize(old(queue), 0);
              if n > 0
              then reply == Batch(Records(PacketsOf(old(queue)[..n]))) && queue == old(queue)[n..] && delivered == old(delivered) + old(queue)[..n]
              else old(queue)[0].Failure? && reply == Broken(old(queue)[0].text)
                   && queue == old(queue)[1..] && delivered == old(delivered) + old(queue)[..1]
    {
      hide Placement, Counts, BatchSize, Records, ToldByAll, ToldBy, Items, IsPacket;
      ghost var all := queue;
      HeadFails(all);
      var parts, n := TakeParts();
      ghost var k := if n > 0 then n else 1;
      if n > 0 {
        reply := Batch(parts);
      } else {
        assert all[0..] == all;
        reply := Broken(queue[0].text);
        queue := queue[1..];
      }
      BatchPlaced(started, settling, all, delivered, released, cancelling, place, k);
      ReplyAdded(replies, reply, delivered, all, k);
      place := DeliveredPlaces(place, all[..k]);
      delivered := delivered + all[..k];
      replies := replies + [reply];
      assert all == all[..k] + all[k..];
    }

    // A completion goes to the waiting completion thread, or to the queue.
    method Complete(c: Completion) returns (reply: Option<BatchReply>)
      requires ValidBut({c.op.id}) && (c.Done? ==> IsPacket(PacketOf(c)))
      modifies this`queue, this`waiter, this`place, this`enqueued, this`delivered, this`replies
      ensures Valid()
      ensures enqueued == old(enqueued) + [c]
      ensures old(waiter) ==>
                && !waiter && queue == [] && delivered == old(delivered) + [c]
                && reply == Some(if c.Done? then Batch(Records([Packet(c.op.header, c.failed, c.bytes)])) else Broken(c.text))
      ensures !old(waiter) ==> !waiter && queue == old(queue) + [c] && reply == None && delivered == old(delivered)
    {
      hide Placement, Counts, BatchSize, Records, ToldByAll, Items, IsPacket;
      CompletePlaced(started, settling, queue, delivered, released, cancelling, place, c);
      assert queue == [] ==> queue + [c] == [c] + queue;
      place := place[c.op.id := Queued];
      enqueued := enqueued + [c];
      if waiter {
        waiter := false;
        queue := [c] + queue;
        BatchOfOne(c);
        var batch := TakeBatch();
        return Some(batch);
      }
      queue := queue + [c];
      return None;
    }

    // The promise of an operation settled with a result.
    method Settle(id: nat, failed: bool, bytes: seq<Byte>) returns (reply: Option<BatchReply>)
      requires Valid() && id in settling && 32 + |bytes| < WORD
      // A result that was there at once is the one that settles.
      requires settling[id].result.Some? ==> settling[id].result == Some((failed, bytes))
      modifies this
      ensures Valid()
      ensures settling == old(settling) - {id} && started == old(started) && released == old(released)
      ensures var op := old(settling)[id].op;
              if failed && |bytes| >= 8 && bytes[..8] == [10, 0, 0, 0, 0, 0, 0, 0] && op.handle in old(cancelling)
              then cancelling == old(cancelling)[op.handle := old(cancelling)[op.handle] + [op]] && reply == None
                   && enqueued == old(enqueued) && delivered == old(delivered) && waiter == old(waiter)
              else cancelling == old(cancelling) && enqueued == old(enqueued) + [Done(op, failed, bytes)]
                   && (reply.Some? <==> old(waiter)) && (reply.Some? ==> reply == Some(Batch(Records([Packet(op.header, failed, bytes)]))))
    {
      hide Placement, Counts, Records, ToldByAll, Items;
      var op := settling[id].op;
      HeldOp(started, settling, queue, delivered, released, cancelling, place, id);
      Settled(id);
      CancelledMeans(failed, bytes);
      if failed && |bytes| >= 8 && WordAt(bytes, 0) == CANCELLED && op.handle in cancelling {
        DivertPlaced(started, settling, queue, delivered, released, cancelling, place, op);
        place := place[id := Diverted(op.handle)];
        cancelling := cancelling[op.handle := cancelling[op.handle] + [op]];
        return None;
      }
      reply := Complete(Done(op, failed, bytes));
    }

    // The promise of an operation was rejected: a host defect is passed on.
    method Reject(id: nat, text: seq<Byte>) returns (reply: Option<BatchReply>)
      requires Valid() && id in settling && settling[id].result.None?
      modifies this
      ensures Valid()
      ensures settling == old(settling) - {id} && started == old(started) && released == old(released) && cancelling == old(cancelling)
      ensures enqueued == old(enqueued) + [Failure(old(settling)[id].op, text)]
      ensures (reply.Some? <==> old(waiter)) && (reply.Some? ==> reply == Some(Broken(text)))
    {
      hide Placement, Counts, Records, ToldByAll, Items;
      var op := settling[id].op;
      HeldOp(started, settling, queue, delivered, released, cancelling, place, id);
      Settled(id);
      reply := Complete(Failure(op, text));
    }

    // The operation no longer waits.
    method Settled(id: nat)
      requires Valid() && id in settling
      modifies this`waiting, this`settling
      ensures ValidBut({id}) && settling == old(settling) - {id}
    {
      hide Placement, Counts, ToldByAll, Items, IsHeader;
      var s := settling[id];
      CountsSettle(waiting, settling, id);
      HoldPlaced(started, settling, queue, delivered, released, cancelling, place, id);
      if s.Counted() {
        var count := waiting[s.op.handle] - 1;
        if count != 0 {
          waiting := waiting[s.op.handle := count];
        } else {
          waiting := waiting - {s.op.handle};
        }
      }
      settling := settling - {id};
    }

    // A cancel call: cancellations of the handle are diverted from now on.
    method Cancel(handle: nat)
      requires Valid()
      modifies this`cancelling
      ensures Valid()
      ensures cancelling == if handle in old(cancelling) then old(cancelling) else old(cancelling)[handle := []]
    {
      if handle !in cancelling {
        CancelPlaced(started, settling, queue, delivered, released, cancelling, place, handle);
        cancelling := cancelling[handle := []];
      }
    }

    // The diverted cancellations, for the cancelling thread; deferred by one event-loop turn
    // while an operation of the handle is still settling.
    method TakeDropped(handle: nat, deferred: bool) returns (reply: Option<seq<Byte>>)
      requires Valid()
      modifies this`cancelling, this`place, this`released
      ensures Valid()
      ensures reply == None <==> !deferred && exists id :: id in settling && settling[id].result.None? && settling[id].op.handle == handle
      ensures reply == None ==> unchanged(this)
      ensures reply.Some? ==>
                var ops := if handle in old(cancelling) then old(cancelling)[handle] else [];
                && reply.value == HeadersBytes(Headers(ops))
                && released == old(released) + ops && cancelling == old(cancelling) - {handle}
    {
      hide Placement, Counts, HeadersBytes, ToldByAll, Items;
      WaitingMeans(waiting, settling, handle);
      if !deferred && handle in waiting {
        return None;
      }
      var dropped := if handle in cancelling then cancelling[handle] else [];
      TakePlaced(started, settling, queue, delivered, released, cancelling, place, handle);
      cancelling := cancelling - {handle};
      released := released + dropped;
      place := TakenPlaces(place, handle);
      return Some(HeadersBytes(Headers(dropped)));
    }

    // The completion thread's long poll.
    method Poll() returns (reply: Option<BatchReply>)
      requires Valid() && !waiter
      modifies this`queue, this`waiter, this`place, this`delivered, this`replies
      ensures Valid()
      ensures waiter == (old(queue) == []) && (reply == None <==> waiter)
      ensures reply.Some? ==>
                var n := BatchSize(old(queue), 0);
                if n > 0
                then reply.value == Batch(Records(PacketsOf(old(queue)[..n]))) && delivered == old(delivered) + old(queue)[..n]
                else old(queue)[0].Failure? && reply.value == Broken(old(queue)[0].text) && delivered == old(delivered) + old(queue)[..1]
    {
      hide Placement, Counts, BatchSize, Records, ToldByAll, Items, IsPacket;
      if queue != [] {
        var batch := TakeBatch();
        return Some(batch);
      }
      waiter := true;
      return None;
    }
  }

  function Headers(ops: seq<Operation>): (r: seq<Header>)
    ensures |r| == |ops|
  {
    seq(|ops|, i requires 0 <= i < |ops| => ops[i].header)
  }

  // What the completion thread gets when it already waits.
  function ReplyOfOne(c: Completion): BatchReply {
    if c.Done? then Batch(Records([PacketOf(c)])) else Broken(c.text)
  }

  lemma BatchOfOne(c: Completion)
    ensures BatchSize([c], 0) == if c.Done? then 1 else 0
    ensures c.Done? ==> PacketsOf([c][..1]) == [PacketOf(c)]
    ensures [c][1..] == [] && [c][..1] == [c]
  {
    if c.Done? {
      assert BatchSize([c][1..], 2) == 0;
    }
  }

  lemma TakenShift(released: seq<Operation>, dropped: seq<Operation>, place: map<nat, Place>, after: map<nat, Place>, handle: nat, some: bool)
    requires Lists(released, place, Released) && after == TakenPlaces(place, handle)
    requires if some then Lists(dropped, place, Diverted(handle)) else dropped == [] && forall id :: id in place ==> place[id] != Diverted(handle)
    ensures Lists(released + dropped, after, Released)
  {
    var all := released + dropped;
    assert forall i :: 0 <= i < |released| ==> all[i] == released[i];
    assert forall i :: 0 <= i < |dropped| ==> all[|released| + i] == dropped[i];
    forall id | id in after && after[id] == Released
      ensures exists i :: 0 <= i < |all| && all[i].id == id
    {
      if place[id] == Released {
        var i :| 0 <= i < |released| && released[i].id == id;
        assert all[i].id == id;
      } else {
        var i :| 0 <= i < |dropped| && dropped[i].id == id;
        assert all[|released| + i].id == id;
      }
    }
  }

  // ---- What one step does to the places ----

  ghost function DeliveredPlaces(place: map<nat, Place>, cs: seq<Completion>): map<nat, Place> {
    map id | id in place :: if exists i :: 0 <= i < |cs| && cs[i].op.id == id then Delivered else place[id]
  }

  ghost function TakenPlaces(place: map<nat, Place>, handle: nat): map<nat, Place> {
    map id | id in place :: if place[id] == Diverted(handle) then Released else place[id]
  }

  // The same operations are at this place.
  ghost predicate SameAt(place: map<nat, Place>, after: map<nat, Place>, p: Place) {
    forall id :: (id in place && place[id] == p) <==> (id in after && after[id] == p)
  }

  lemma ListsSame(ops: seq<Operation>, place: map<nat, Place>, after: map<nat, Place>, p: Place)
    requires Lists(ops, place, p) && SameAt(place, after, p)
    ensures Lists(ops, after, p)
  {
  }

  lemma ListsMove(ops: seq<Operation>, place: map<nat, Place>, op: Operation, p: Place)
    requires Lists(ops, place, p) && op.id in place && place[op.id] != p
    ensures Lists(ops + [op], place[op.id := p], p)
  {
    var all, after := ops + [op], place[op.id := p];
    assert all[|ops|] == op;
    forall id | id in after && after[id] == p
      ensures exists i :: 0 <= i < |all| && all[i].id == id
    {
      if id != op.id {
        var i :| 0 <= i < |ops| && ops[i].id == id;
        assert all[i].id == id;
      }
    }
  }

  // Where the numbers of the first `k` operations go to place `q`.
  ghost predicate Shifted(a: seq<Operation>, k: nat, place: map<nat, Place>, after: map<nat, Place>, q: Place) {
    && k <= |a| && after.Keys == place.Keys
    && forall id :: id in place ==> after[id] == if exists i :: 0 <= i < k && a[i].id == id then q else place[id]
  }

  // The ones of `a` that stay are left in place `p`.
  lemma ListsStay(a: seq<Operation>, k: nat, place: map<nat, Place>, after: map<nat, Place>, p: Place, q: Place)
    requires Lists(a, place, p) && p != q && Shifted(a, k, place, after, q)
    ensures Lists(a[k..], after, p)
  {
    forall id | id in after && after[id] == p
      ensures exists i :: 0 <= i < |a[k..]| && a[k..][i].id == id
    {
      var i :| 0 <= i < |a| && a[i].id == id;
      assert i >= k;
      assert a[k..][i - k].id == id;
    }
    assert forall i :: k <= i < |a| ==> forall j :: 0 <= j < k ==> a[j].id != a[i].id;
  }

  // The others join the ones of `b`, which are in place `q`.
  lemma ListsJoin(a: seq<Operation>, b: seq<Operation>, k: nat, place: map<nat, Place>, after: map<nat, Place>, p: Place, q: Place)
    requires Lists(a, place, p) && Lists(b, place, q) && p != q && Shifted(a, k, place, after, q)
    ensures Lists(b + a[..k], after, q)
  {
    var all := b + a[..k];
    assert forall i :: 0 <= i < |b| ==> all[i] == b[i];
    assert forall i :: 0 <= i < k ==> all[|b| + i] == a[i];
    forall id | id in after && after[id] == q
      ensures exists i :: 0 <= i < |all| && all[i].id == id
    {
      if i :| 0 <= i < k && a[i].id == id {
        assert all[|b| + i].id == id;
      } else {
        var i :| 0 <= i < |b| && b[i].id == id;
        assert all[i].id == id;
      }
    }
  }

  lemma WaitingMeans(waiting: map<nat, nat>, settling: map<nat, Settling>, handle: nat)
    requires Counts(waiting, settling)
    ensures handle in waiting <==> exists id :: id in settling && settling[id].result.None? && settling[id].op.handle == handle
  {
    var ids := Pending(settling, handle);
    if handle in waiting {
      assert ids != {};
      var id :| id in ids;
    }
    if id :| id in settling && settling[id].result.None? && settling[id].op.handle == handle {
      assert id in ids;
    }
  }

  lemma PendingStart(settling: map<nat, Settling>, id: nat, s: Settling, h: nat)
    requires id !in settling
    ensures Pending(settling[id := s], h) == Pending(settling, h) + if s.Counted() && s.op.handle == h then {id} else {}
    ensures id !in Pending(settling, h)
  {
  }

  lemma CountsStart(waiting: map<nat, nat>, settling: map<nat, Settling>, id: nat, s: Settling)
    requires Counts(waiting, settling) && id !in settling
    ensures var h := s.op.handle;
            Counts(if s.Counted() then waiting[h := (if h in waiting then waiting[h] else 0) + 1] else waiting, settling[id := s])
  {
    hide Pending;
    var after := settling[id := s];
    var counts := if s.Counted() then waiting[s.op.handle := (if s.op.handle in waiting then waiting[s.op.handle] else 0) + 1] else waiting;
    forall h
      ensures if h in counts then counts[h] == |Pending(after, h)| > 0 else Pending(after, h) == {}
    {
      PendingStart(settling, id, s, h);
    }
  }

  lemma PendingLess(settling: map<nat, Settling>, id: nat, h: nat)
    requires id in settling
    ensures Pending(settling - {id}, h) == Pending(settling, h) - if settling[id].Counted() && settling[id].op.handle == h then {id} else {}
    ensures settling[id].Counted() && settling[id].op.handle == h ==> id in Pending(settling, h)
  {
  }

  lemma CountsSettle(waiting: map<nat, nat>, settling: map<nat, Settling>, id: nat)
    requires Counts(waiting, settling) && id in settling
    ensures settling[id].Counted() ==> settling[id].op.handle in waiting && waiting[settling[id].op.handle] > 0
    ensures var h := settling[id].op.handle;
            Counts(if !settling[id].Counted() then waiting
                   else if waiting[h] > 1 then waiting[h := waiting[h] - 1] else waiting - {h}, settling - {id})
  {
    hide Pending;
    var h := settling[id].op.handle;
    PendingLess(settling, id, h);
    forall other
      ensures Pending(settling - {id}, other) == Pending(settling, other) - if settling[id].Counted() && h == other then {id} else {}
    {
      PendingLess(settling, id, other);
    }
  }

  // Lists of places that a step does not touch stay what they are.
  lemma KeepLists(queue: seq<Completion>, delivered: seq<Completion>, released: seq<Operation>, cancelling: map<nat, seq<Operation>>,
                  place: map<nat, Place>, after: map<nat, Place>, touched: set<Place>)
    requires forall p: Place :: p !in touched && p != Unsettled ==> SameAt(place, after, p)
    ensures Queued !in touched && Lists(Ops(queue), place, Queued) ==> Lists(Ops(queue), after, Queued)
    ensures Delivered !in touched && Lists(Ops(delivered), place, Delivered) ==> Lists(Ops(delivered), after, Delivered)
    ensures Released !in touched && Lists(released, place, Released) ==> Lists(released, after, Released)
    ensures forall h :: h in cancelling && Diverted(h) !in touched && Lists(cancelling[h], place, Diverted(h)) ==>
              Lists(cancelling[h], after, Diverted(h))
  {
    hide Lists, SameAt;
    if Queued !in touched && Lists(Ops(queue), place, Queued) {
      ListsSame(Ops(queue), place, after, Queued);
    }
    if Delivered !in touched && Lists(Ops(delivered), place, Delivered) {
      ListsSame(Ops(delivered), place, after, Delivered);
    }
    if Released !in touched && Lists(released, place, Released) {
      ListsSame(released, place, after, Released);
    }
    forall h | h in cancelling && Diverted(h) !in touched && Lists(cancelling[h], place, Diverted(h))
      ensures Lists(cancelling[h], after, Diverted(h))
    {
      ListsSame(cancelling[h], place, after, Diverted(h));
    }
  }

  lemma NothingStarted()
    ensures Lists(Ops([]), map[], Queued) && Lists(Ops([]), map[], Delivered) && Lists([], map[], Released)
    ensures Counts(map[], map[]) && Sized([], map[]) && ToldByAll([]) == Some(Items([]))
  {
    assert forall h :: Pending(map[], h) == {};
  }

  lemma NewId(started: nat, settling: map<nat, Settling>, queue: seq<Completion>, delivered: seq<Completion>,
    released: seq<Operation>, cancelling: map<nat, seq<Operation>>, place: map<nat, Place>)
    requires Placement(started, settling, queue, delivered, released, cancelling, place, {})
    ensures started !in settling
  {
    hide Lists;
  }

  lemma RefusePlaced(started: nat, settling: map<nat, Settling>, queue: seq<Completion>, delivered: seq<Completion>,
    released: seq<Operation>, cancelling: map<nat, seq<Operation>>, place: map<nat, Place>, op: Operation)
    requires Placement(started, settling, queue, delivered, released, cancelling, place, {}) && op.id == started
    ensures Placement(started + 1, settling, queue, delivered, released + [op], cancelling, place[started := Released], {})
  {
    var after := place[started := Released];
    forall p: Place | p != Released
      ensures SameAt(place, after, p)
    {
    }
    KeepLists(queue, delivered, released, cancelling, place, after, {Released});
    ListsNew(released, place, op, Released);
    hide Lists;
  }

  lemma ListsNew(ops: seq<Operation>, place: map<nat, Place>, op: Operation, p: Place)
    requires Lists(ops, place, p) && op.id !in place
    ensures Lists(ops + [op], place[op.id := p], p)
  {
    var all := ops + [op];
    assert all[|ops|] == op;
    assert forall i :: 0 <= i < |ops| ==> all[i] == ops[i];
  }

  lemma StartPlaced(started: nat, settling: map<nat, Settling>, queue: seq<Completion>, delivered: seq<Completion>,
    released: seq<Operation>, cancelling: map<nat, seq<Operation>>, place: map<nat, Place>, s: Settling)
    requires Placement(started, settling, queue, delivered, released, cancelling, place, {}) && s.op.id == started
    ensures Placement(started + 1, settling[started := s], queue, delivered, released, cancelling, place[started := Unsettled], {})
  {
    hide Lists;
    KeepLists(queue, delivered, released, cancelling, place, place[started := Unsettled], {});
  }

  lemma HoldPlaced(started: nat, settling: map<nat, Settling>, queue: seq<Completion>, delivered: seq<Completion>,
    released: seq<Operation>, cancelling: map<nat, seq<Operation>>, place: map<nat, Place>, id: nat)
    requires Placement(started, settling, queue, delivered, released, cancelling, place, {}) && id in settling
    ensures Placement(started, settling - {id}, queue, delivered, released, cancelling, place, {id})
  {
    hide Lists;
  }

  lemma HeldOp(started: nat, settling: map<nat, Settling>, queue: seq<Completion>, delivered: seq<Completion>,
    released: seq<Operation>, cancelling: map<nat, seq<Operation>>, place: map<nat, Place>, id: nat)
    requires Placement(started, settling, queue, delivered, released, cancelling, place, {}) && id in settling
    ensures settling[id].op.id == id
  {
    hide Lists;
  }

  lemma CompletePlaced(started: nat, settling: map<nat, Settling>, queue: seq<Completion>, delivered: seq<Completion>,
    released: seq<Operation>, cancelling: map<nat, seq<Operation>>, place: map<nat, Place>, c: Completion)
    requires Placement(started, settling, queue, delivered, released, cancelling, place, {c.op.id})
    ensures Placement(started, settling, queue + [c], delivered, released, cancelling, place[c.op.id := Queued], {})
  {
    hide Lists;
    KeepLists(queue, delivered, released, cancelling, place, place[c.op.id := Queued], {Queued});
    ListsMove(Ops(queue), place, c.op, Queued);
    assert Ops(queue + [c]) == Ops(queue) + [c.op];
  }

  lemma DivertPlaced(started: nat, settling: map<nat, Settling>, queue: seq<Completion>, delivered: seq<Completion>,
    released: seq<Operation>, cancelling: map<nat, seq<Operation>>, place: map<nat, Place>, op: Operation)
    requires Placement(started, settling, queue, delivered, released, cancelling, place, {op.id}) && op.handle in cancelling
    ensures Placement(started, settling, queue, delivered, released, cancelling[op.handle := cancelling[op.handle] + [op]],
              place[op.id := Diverted(op.handle)], {})
  {
    hide Lists;
    KeepLists(queue, delivered, released, cancelling, place, place[op.id := Diverted(op.handle)], {Diverted(op.handle)});
    ListsMove(cancelling[op.handle], place, op, Diverted(op.handle));
  }

  lemma CancelPlaced(started: nat, settling: map<nat, Settling>, queue: seq<Completion>, delivered: seq<Completion>,
    released: seq<Operation>, cancelling: map<nat, seq<Operation>>, place: map<nat, Place>, handle: nat)
    requires Placement(started, settling, queue, delivered, released, cancelling, place, {}) && handle !in cancelling
    ensures Placement(started, settling, queue, delivered, released, cancelling[handle := []], place, {})
  {
    assert forall id :: id in place && place[id].Diverted? ==> place[id].handle != handle;
    assert Lists([], place, Diverted(handle));
    hide Lists;
  }

  lemma TakePlaced(started: nat, settling: map<nat, Settling>, queue: seq<Completion>, delivered: seq<Completion>,
    released: seq<Operation>, cancelling: map<nat, seq<Operation>>, place: map<nat, Place>, handle: nat)
    requires Placement(started, settling, queue, delivered, released, cancelling, place, {})
    ensures Placement(started, settling, queue, delivered, released + if handle in cancelling then cancelling[handle] else [],
              cancelling - {handle}, TakenPlaces(place, handle), {})
  {
    hide Lists;
    var dropped := if handle in cancelling then cancelling[handle] else [];
    TakenShift(released, dropped, place, TakenPlaces(place, handle), handle, handle in cancelling);
    KeepLists(queue, delivered, released, cancelling, place, TakenPlaces(place, handle), {Released, Diverted(handle)});
  }

  lemma BatchPlaced(started: nat, settling: map<nat, Settling>, queue: seq<Completion>, delivered: seq<Completion>,
    released: seq<Operation>, cancelling: map<nat, seq<Operation>>, place: map<nat, Place>, k: nat)
    requires Placement(started, settling, queue, delivered, released, cancelling, place, {}) && k <= |queue|
    ensures Placement(started, settling, queue[k..], delivered + queue[..k], released, cancelling, DeliveredPlaces(place, queue[..k]), {})
  {
    hide Lists, DeliveredPlaces;
    var after := DeliveredPlaces(place, queue[..k]);
    QueuedMove(queue, place, k);
    ListsStay(Ops(queue), k, place, after, Queued, Delivered);
    ListsJoin(Ops(queue), Ops(delivered), k, place, after, Queued, Delivered);
    KeepLists(queue, delivered, released, cancelling, place, after, {Queued, Delivered});
    OpsParts(queue, delivered, k);
  }

  lemma OpsParts(queue: seq<Completion>, delivered: seq<Completion>, k: nat)
    requires k <= |queue|
    ensures Ops(queue[k..]) == Ops(queue)[k..]
    ensures Ops(delivered + queue[..k]) == Ops(delivered) + Ops(queue)[..k]
  {
  }

  lemma QueuedMove(queue: seq<Completion>, place: map<nat, Place>, k: nat)
    requires Lists(Ops(queue), place, Queued) && k <= |queue|
    ensures var after := DeliveredPlaces(place, queue[..k]);
            && after.Keys == place.Keys
            && (forall id :: id in place ==> after[id] == if exists i :: 0 <= i < k && Ops(queue)[i].id == id then Delivered else place[id])
            && (forall id :: id in place && after[id] != place[id] ==> place[id] == Queued && after[id] == Delivered)
  {
    assert forall i :: 0 <= i < k ==> queue[..k][i].op == Ops(queue)[i];
  }

  // ---- How many completions a batch takes ----

  lemma BatchStep(all: seq<Completion>, n: nat)
    requires n <= |all|
    ensures n < |all| && 2 * n < PARTS && all[n].Done? ==> BatchSize(all[n..], 2 * n) == 1 + BatchSize(all[n + 1..], 2 * (n + 1))
    ensures n == |all| || 2 * n >= PARTS || all[n].Failure? ==> BatchSize(all[n..], 2 * n) == 0
  {
    if n < |all| {
      assert all[n..][1..] == all[n + 1..];
    }
  }

  lemma BatchTold(cs: seq<Completion>)
    requires forall i :: 0 <= i < |cs| ==> cs[i].Done? && IsPacket(PacketOf(cs[i]))
    ensures ToldBy(Batch(Records(PacketsOf(cs)))) == Some(Items(cs))
  {
    hide Records, IsPacket, Parse;
    var ps := PacketsOf(cs);
    BatchRoundTrip(ps);
    assert seq(|ps|, i requires 0 <= i < |ps| => Packed(ps[i])) == Items(cs);
  }

  lemma BrokenTold(c: Completion)
    requires c.Failure?
    ensures ToldBy(Broken(c.text)) == Some(Items([c]))
  {
    assert Items([c]) == [Defect(c.text)];
  }

  // One more reply is read as the completions it was made of.
  lemma ReplyAdded(replies: seq<BatchReply>, reply: BatchReply, delivered: seq<Completion>, all: seq<Completion>, k: nat)
    requires ToldByAll(replies) == Some(Items(delivered)) && k <= |all|
    requires forall i :: 0 <= i < |all| && all[i].Done? ==> IsPacket(PacketOf(all[i]))
    requires || ((forall i :: 0 <= i < k ==> all[i].Done?) && reply == Batch(Records(PacketsOf(all[..k]))))
             || (k == 1 && all[0].Failure? && reply == Broken(all[0].text))
    ensures ToldByAll(replies + [reply]) == Some(Items(delivered + all[..k]))
  {
    hide ToldBy, IsPacket, Records;
    if reply.Batch? {
      BatchTold(all[..k]);
    } else {
      BrokenTold(all[0]);
      assert all[..1] == [all[0]];
    }
    assert (replies + [reply])[..|replies|] == replies;
    assert ToldBy(reply) == Some(Items(all[..k]));
    assert Items(delivered + all[..k]) == Items(delivered) + Items(all[..k]);
  }

  lemma HeadFails(queue: seq<Completion>)
    requires queue != []
    ensures BatchSize(queue, 0) == 0 ==> queue[0].Failure?
  {
  }

  lemma NoRecords()
    ensures Records([]) == []
  {
  }

  lemma OneRecord(p: Packet)
    ensures Records([p]) == Record(p)
  {
    assert [p][1..] == [];
    assert Record(p) + [] == Record(p);
  }

  // ---- What every history of a host satisfies ----

  // Where an operation is found.
  ghost predicate IsAt(h: Host, id: nat, p: Place)
    reads h
  {
    match p
    case Unsettled => id in h.settling
    case Queued => exists i :: 0 <= i < |h.queue| && h.queue[i].op.id == id
    case Diverted(handle) => handle in h.cancelling && exists i :: 0 <= i < |h.cancelling[handle]| && h.cancelling[handle][i].id == id
    case Delivered => exists i :: 0 <= i < |h.delivered| && h.delivered[i].op.id == id
    case Released => exists i :: 0 <= i < |h.released| && h.released[i].id == id
  }

  ghost predicate OnlyOnce(ops: seq<Operation>) {
    forall i, j :: 0 <= i < j < |ops| ==> ops[i].id != ops[j].id
  }

  /** Every operation that was ever started, also one that was refused at once, is in exactly one
      place: unsettled, queued, diverted for one handle, delivered to the completion thread, or
      released by the thread that started or cancelled it; and there once. So its references are
      released at most once, and by one thread. */
  lemma ReleasedOnce(h: Host)
    requires h.Valid()
    ensures forall id: nat :: id < h.started ==> id in h.place
    ensures forall id: nat, p: Place :: id < h.started ==> (IsAt(h, id, p) <==> h.place[id] == p)
    ensures OnlyOnce(Ops(h.queue)) && OnlyOnce(Ops(h.delivered)) && OnlyOnce(h.released)
    ensures forall handle :: handle in h.cancelling ==> OnlyOnce(h.cancelling[handle])
  {
    hide Counts, ToldByAll, Items;
    forall id: nat, p: Place | id < h.started
      ensures IsAt(h, id, p) <==> h.place[id] == p
    {
      AtPlace(h, id, p);
    }
  }

  lemma AtPlace(h: Host, id: nat, p: Place)
    requires h.Valid() && id < h.started
    ensures id in h.place && (IsAt(h, id, p) <==> h.place[id] == p)
  {
    hide Counts, ToldByAll, Items;
    match p
    case Unsettled =>
    case Queued =>
      assert forall i :: 0 <= i < |h.queue| ==> Ops(h.queue)[i] == h.queue[i].op;
    case Delivered =>
      assert forall i :: 0 <= i < |h.delivered| ==> Ops(h.delivered)[i] == h.delivered[i].op;
    case Released =>
    case Diverted(handle) =>
      if h.place[id] == p {
        assert handle in h.cancelling;
      }
  }

  /** What the completion thread has read from all its batches is a prefix of the completions
      enqueued, in order; the rest is still queued; and it never waits while something is. */
  lemma NothingLost(h: Host)
    requires h.Valid()
    ensures ToldByAll(h.replies).Some?
    ensures Items(h.enqueued) == ToldByAll(h.replies).value + Items(h.queue)
    ensures h.waiter ==> Items(h.enqueued) == ToldByAll(h.replies).value
  {
    hide Placement, Counts, ToldByAll;
    assert Items(h.delivered + h.queue) == Items(h.delivered) + Items(h.queue);
  }
}
