/** The wire form of completions: packets, the records of a batch, and the loops that read them. */
module Packets {
  import opened Bytes
  import opened Wrappers

  // A started operation's promise and resource and the shape of its result, echoed by the host.
  datatype Header = Header(promise: nat, resource: nat, kind: nat)

  datatype Packet = Packet(header: Header, failed: bool, bytes: seq<Byte>)

  predicate IsHeader(h: Header) { h.promise < WORD && h.resource < WORD && h.kind < WORD }

  predicate IsPacket(p: Packet) { IsHeader(p.header) && 32 + |p.bytes| < WORD }

  function HeaderBytes(h: Header): (r: seq<Byte>)
    ensures |r| == 24
  {
    Word(h.promise) + Word(h.resource) + Word(h.kind)
  }

  function PacketBytes(p: Packet): (r: seq<Byte>)
    ensures |r| == 32 + |p.bytes|
  {
    HeaderBytes(p.header) + [if p.failed then 1 else 0, 0, 0, 0, 0, 0, 0, 0] + p.bytes
  }

  function Record(p: Packet): seq<Byte> { Word(|PacketBytes(p)|) + PacketBytes(p) }

  function Records(ps: seq<Packet>): seq<Byte> {
    if ps == [] then [] else Record(ps[0]) + Records(ps[1..])
  }

  /** The layout of a record: the size of what follows, promise, resource and kind as
      little-endian words, a flag word, then the bytes. */
  lemma RecordLayout(p: Packet)
    ensures var s := Record(p);
            && |s| == 40 + |p.bytes|
            && s[0..8] == Little(8, 32 + |p.bytes|)
            && s[8..16] == Little(8, p.header.promise) && s[16..24] == Little(8, p.header.resource) && s[24..32] == Little(8, p.header.kind)
            && s[32..40] == [if p.failed then 1 else 0, 0, 0, 0, 0, 0, 0, 0]
            && s[40..] == p.bytes
  {
    hide Little;
  }

  // The reader traps on anything that is not a whole record.
  function Parse(s: seq<Byte>): Option<seq<Packet>>
    decreases |s|
  {
    if s == [] then Some([])
    else if |s| < 8 then None
    else
      var size := WordAt(s, 0);
      if size < 32 || size > |s| - 8 then None
      else
        var rest := Parse(s[8 + size..]);
        if rest.None? then None else Some([PacketAt(s, 8, size)] + rest.value)
  }

  function PacketAt(s: seq<Byte>, at: nat, size: nat): Packet
    requires size >= 32 && at + size <= |s|
  {
    Packet(HeaderAt(s, at), WordAt(s, at + 24) != 0, s[at + 32..at + size])
  }

  function HeaderAt(s: seq<Byte>, at: nat): Header
    requires at + 24 <= |s|
  {
    Header(WordAt(s, at), WordAt(s, at + 8), WordAt(s, at + 16))
  }

  lemma HeaderReads(before: seq<Byte>, h: Header, after: seq<Byte>)
    requires IsHeader(h)
    ensures HeaderAt(before + HeaderBytes(h) + after, |before|) == h
  {
    hide Word, Number;
    var s, at := before + HeaderBytes(h) + after, |before|;
    WordRoundTrip(h.promise);
    WordRoundTrip(h.resource);
    WordRoundTrip(h.kind);
    assert s[at..at + 8] == Word(h.promise);
    assert s[at + 8..at + 16] == Word(h.resource);
    assert s[at + 16..at + 24] == Word(h.kind);
  }

  lemma FlagReads(failed: bool)
    ensures Number([if failed then 1 else 0, 0, 0, 0, 0, 0, 0, 0]) == if failed then 1 else 0
  {
    var s: seq<Byte> := [if failed then 1 else 0, 0, 0, 0, 0, 0, 0, 0];
    assert s[1..] == [0, 0, 0, 0, 0, 0, 0];
    Zeros(s[1..]);
  }

  lemma {:induction false} Zeros(s: seq<Byte>)
    requires forall i :: 0 <= i < |s| ==> s[i] == 0
    ensures Number(s) == 0
  {
    if s != [] {
      Zeros(s[1..]);
    }
  }

  lemma PacketReads(p: Packet, after: seq<Byte>)
    requires IsPacket(p)
    ensures var s := Record(p) + after;
            WordAt(s, 0) == 32 + |p.bytes| && PacketAt(s, 8, 32 + |p.bytes|) == p && s[40 + |p.bytes|..] == after
  {
    hide Word, Number, HeaderBytes, HeaderAt;
    var s := Record(p) + after;
    var flag: seq<Byte> := [if p.failed then 1 else 0, 0, 0, 0, 0, 0, 0, 0];
    WordRoundTrip(|PacketBytes(p)|);
    assert s[0..8] == Word(|PacketBytes(p)|);
    HeaderReads(Word(|PacketBytes(p)|), p.header, flag + p.bytes + after);
    assert s == Word(|PacketBytes(p)|) + HeaderBytes(p.header) + (flag + p.bytes + after);
    FlagReads(p.failed);
    assert s[32..40] == flag;
    assert s[40..40 + |p.bytes|] == p.bytes;
  }

  /** Reading a batch gives back exactly its packets, in order. */
  lemma {:induction false} BatchRoundTrip(ps: seq<Packet>)
    requires forall i :: 0 <= i < |ps| ==> IsPacket(ps[i])
    ensures Parse(Records(ps)) == Some(ps)
  {
    hide Record, WordAt, PacketAt;
    if ps != [] {
      BatchRoundTrip(ps[1..]);
      PacketReads(ps[0], Records(ps[1..]));
      RecordSize(ps[0]);
      assert ps == [ps[0]] + ps[1..];
    }
  }

  lemma RecordSize(p: Packet)
    ensures |Record(p)| == 40 + |p.bytes|
  {
  }

  lemma {:induction false} RecordsAppend(a: seq<Packet>, b: seq<Packet>)
    ensures Records(a + b) == Records(a) + Records(b)
  {
    hide Record;
    if a == [] {
      assert a + b == b;
    } else {
      assert (a + b)[1..] == a[1..] + b;
      RecordsAppend(a[1..], b);
    }
  }

  // The completion thread's loop over a batch; `ok` false is a trap.
  method ReadBatch(batch: seq<Byte>) returns (ok: bool, packets: seq<Packet>)
    ensures ok == Parse(batch).Some?
    ensures ok ==> packets == Parse(batch).value
  {
    hide WordAt, PacketAt, HeaderAt;
    packets := [];
    var offset := 0;
    StartOf(batch);
    while offset < |batch|
      invariant offset <= |batch|
      invariant Parse(batch) == Prepend(packets, Parse(batch[offset..]))
    {
      ghost var rest := batch[offset..];
      ReadStep(packets, rest);
      if offset + 8 > |batch| {
        return false, [];
      }
      Shift(batch, offset, 0);
      var size := WordAt(batch, offset);
      offset := offset + 8;
      if size < 32 || size > |batch| - offset {
        return false, [];
      }
      PacketShift(batch, offset - 8, size);
      var header := HeaderAt(batch, offset);
      var failed := WordAt(batch, offset + 24) != 0;
      packets := packets + [Packet(header, failed, batch[offset + 32..offset + size])];
      SamePacket(batch, offset, size);
      offset := offset + size;
      assert rest[8 + size..] == batch[offset..];
    }
    EndOf(packets);
    assert batch[offset..] == [];
    return true, packets;
  }

  function Prepend(a: seq<Packet>, rest: Option<seq<Packet>>): Option<seq<Packet>> {
    if rest.None? then None else Some(a + rest.value)
  }

  lemma StartOf(s: seq<Byte>)
    ensures Parse(s) == Prepend([], Parse(s[0..]))
  {
    assert s[0..] == s;
    assert Parse(s).Some? ==> [] + Parse(s).value == Parse(s).value;
  }

  lemma EndOf(a: seq<Packet>)
    ensures Prepend(a, Parse([])) == Some(a)
  {
    assert a + [] == a;
  }

  lemma ReadStep(a: seq<Packet>, s: seq<Byte>)
    requires s != []
    ensures |s| < 8 || WordAt(s, 0) < 32 || WordAt(s, 0) > |s| - 8 ==> Prepend(a, Parse(s)).None?
    ensures |s| >= 8 && 32 <= WordAt(s, 0) <= |s| - 8 ==>
              Prepend(a, Parse(s)) == Prepend(a + [PacketAt(s, 8, WordAt(s, 0))], Parse(s[8 + WordAt(s, 0)..]))
  {
    hide WordAt, PacketAt;
    if |s| >= 8 && 32 <= WordAt(s, 0) <= |s| - 8 {
      ParseStep(s);
      hide Parse;
      PrependTwice(a, PacketAt(s, 8, WordAt(s, 0)), Parse(s[8 + WordAt(s, 0)..]));
    }
  }

  lemma ParseStep(s: seq<Byte>)
    requires |s| >= 8 && 32 <= WordAt(s, 0) <= |s| - 8
    ensures Parse(s) == Prepend([PacketAt(s, 8, WordAt(s, 0))], Parse(s[8 + WordAt(s, 0)..]))
  {
    hide WordAt, PacketAt;
  }

  lemma PrependTwice(a: seq<Packet>, p: Packet, rest: Option<seq<Packet>>)
    ensures Prepend(a, Prepend([p], rest)) == Prepend(a + [p], rest)
  {
    if rest.Some? {
      assert a + ([p] + rest.value) == (a + [p]) + rest.value;
    }
  }

  lemma Shift(s: seq<Byte>, from: nat, at: nat)
    requires from + at + 8 <= |s|
    ensures WordAt(s[from..], at) == WordAt(s, from + at)
  {
    assert s[from..][at..at + 8] == s[from + at..from + at + 8];
  }

  lemma PacketShift(s: seq<Byte>, from: nat, size: nat)
    requires size >= 32 && from + 8 + size <= |s|
    ensures PacketAt(s[from..], 8, size) == PacketAt(s, from + 8, size)
  {
    hide WordAt;
    Shift(s, from, 8);
    Shift(s, from, 16);
    Shift(s, from, 24);
    Shift(s, from, 32);
    assert s[from..][40..8 + size] == s[from + 40..from + 8 + size];
  }

  lemma SamePacket(s: seq<Byte>, at: nat, size: nat)
    requires size >= 32 && at + size <= |s|
    ensures PacketAt(s, at, size) == Packet(HeaderAt(s, at), WordAt(s, at + 24) != 0, s[at + 32..at + size])
  {
  }

  // ---- Diverted headers ----

  function HeadersBytes(hs: seq<Header>): seq<Byte> {
    if hs == [] then [] else HeaderBytes(hs[0]) + HeadersBytes(hs[1..])
  }

  lemma {:induction false} HeadersSize(hs: seq<Header>)
    ensures |HeadersBytes(hs)| == 24 * |hs|
  {
    if hs != [] {
      HeadersSize(hs[1..]);
    }
  }

  lemma {:induction false} HeadersSplit(hs: seq<Header>, i: nat)
    requires i < |hs|
    ensures HeadersBytes(hs) == HeadersBytes(hs[..i]) + HeaderBytes(hs[i]) + HeadersBytes(hs[i + 1..])
  {
    hide HeaderBytes;
    if i == 0 {
      assert hs[..0] == [];
    } else {
      HeadersSplit(hs[1..], i - 1);
      assert hs[1..][..i - 1] == hs[..i][1..];
      assert hs[1..][i..] == hs[i + 1..];
    }
  }

  /** The layout of diverted headers: 24 bytes each. */
  lemma HeadersLayout(hs: seq<Header>, i: nat)
    requires i < |hs|
    ensures var s := HeadersBytes(hs); var at := 24 * i;
            && |s| == 24 * |hs|
            && s[at..at + 8] == Little(8, hs[i].promise) && s[at + 8..at + 16] == Little(8, hs[i].resource)
            && s[at + 16..at + 24] == Little(8, hs[i].kind)
  {
    hide Little, HeadersBytes;
    HeadersSize(hs);
    HeadersSize(hs[..i]);
    HeadersSplit(hs, i);
    var s, before, at := HeadersBytes(hs), HeadersBytes(hs[..i]), 24 * i;
    var h, after := HeaderBytes(hs[i]), HeadersBytes(hs[i + 1..]);
    assert s == before + h + after && |before| == at;
    assert forall j :: 0 <= j < 24 ==> s[at + j] == h[j];
    assert s[at..at + 8] == h[..8] && s[at + 8..at + 16] == h[8..16] && s[at + 16..at + 24] == h[16..24];
  }

  // The cancelling thread's loop over a reply of diverted headers: the references it drops.
  method ReadHeaders(reply: seq<Byte>, ghost hs: seq<Header>) returns (dropped: seq<Header>)
    requires reply == HeadersBytes(hs) && forall i :: 0 <= i < |hs| ==> IsHeader(hs[i])
    ensures dropped == hs
  {
    hide HeadersBytes, WordAt, HeaderAt, HeaderBytes;
    dropped := [];
    var offset := 0;
    HeadersSize(hs);
    while offset + 24 <= |reply|
      invariant offset == 24 * |dropped| && |dropped| <= |hs| && dropped == hs[..|dropped|]
    {
      ghost var i := |dropped|;
      HeadersSplit(hs, i);
      HeadersSize(hs[..i]);
      HeaderReads(HeadersBytes(hs[..i]), hs[i], HeadersBytes(hs[i + 1..]));
      dropped := dropped + [HeaderAt(reply, offset)];
      offset := offset + 24;
    }
  }
}
