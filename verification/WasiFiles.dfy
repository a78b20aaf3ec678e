/** Buffered reading of a file and listing of a directory over the WASI host's calls. */
module WasiFiles {
  import opened Bytes
  import opened Wrappers

  const NEWLINE: Byte := 10
  const CHUNK: nat := 4096
  const MOST: nat := 0x4000_0000

  // What the host answers to one read: an error, or how much of the rest it gives.
  datatype Answer = Fails(error: nat) | Gives(count: nat)

  // fd_read: at least one byte of a non-empty rest, at most what is asked; none at its end.
  function Given(rest: seq<Byte>, want: nat, count: nat): (n: nat)
    requires want > 0
    ensures n <= |rest| && n <= want && (n == 0 <==> rest == [])
  {
    if rest == [] then 0
    else
      var most := if want < |rest| then want else |rest|;
      if 0 < count <= most then count else most
  }

  class File {
    // The bytes the descriptor has not given yet.
    var rest: seq<Byte>
    var pending: seq<Byte>
    var pendingAt: nat
    var eof: bool
    // The zone file that comes with the host: no descriptor, all of it pending.
    const bundled: bool
    const whole: seq<Byte>
    ghost var given: seq<Byte>

    // Whatever was read so far, and what remains, make up the file.
    ghost predicate Valid()
      reads this
    {
      && pendingAt <= |pending| && (eof ==> rest == [])
      && whole == given + (pending[pendingAt..] + rest)
      && (bundled ==> eof && pending == whole)
    }

    // What the file's reader has not been given yet.
    ghost function Remaining(): seq<Byte>
      requires Valid()
      reads this
    {
      pending[pendingAt..] + rest
    }

    constructor (contents: seq<Byte>)
      ensures Valid() && Remaining() == contents && whole == contents && given == [] && !bundled
    {
      rest, pending, pendingAt, eof := contents, [], 0, false;
      bundled, whole, given := false, contents, [];
    }

    constructor Bundled(contents: seq<Byte>)
      ensures Valid() && Remaining() == contents && whole == contents && given == [] && bundled
    {
      rest, pending, pendingAt, eof := [], contents, 0, true;
      bundled, whole, given := true, contents, [];
    }

    // Op 5: back to the start.
    method Rewind()
      requires Valid()
      modifies this
      ensures Valid() && Remaining() == whole && given == []
    {
      if bundled {
        pendingAt := 0;
      } else {
        // fd_seek: the descriptor gives the whole file again.
        rest := whole;
        pending, pendingAt, eof := [], 0, false;
      }
      given := [];
    }

    // The host's fd_read on the file's descriptor.
    method Read(want: nat, answer: Answer) returns (error: Option<nat>, data: seq<Byte>)
      requires want > 0
      modifies this`rest
      ensures answer.Fails? ==> error == Some(answer.error) && data == [] && rest == old(rest)
      ensures answer.Gives? ==>
                error == None && |data| == Given(old(rest), want, answer.count) && old(rest) == data + rest
    {
      if answer.Fails? {
        return Some(answer.error), [];
      }
      var n := Given(rest, want, answer.count);
      data := rest[..n];
      rest := rest[n..];
      return None, data;
    }

    // Reads into the pending buffer. A failure loses nothing.
    method Fill(answer: Answer) returns (error: Option<nat>)
      requires Valid()
      modifies this
      ensures Valid() && Remaining() == old(Remaining()) && given == old(given)
      ensures error.Some? <==> !old(eof) && answer.Fails?
      ensures error.Some? ==> error == Some(answer.error)
      // What the host gives of the 4096 bytes asked for; nothing at the end of the file.
      ensures !old(eof) && answer.Gives? ==>
                var most := if 4096 < |old(rest)| then 4096 else |old(rest)|;
                && old(|rest|) - |rest| == (if 0 < answer.count < most then answer.count else most)
                && (eof <==> old(rest) == [])
      ensures old(eof) ==> eof && rest == old(rest)
      ensures error == None ==> eof || |rest| < old(|rest|)
      ensures error.Some? ==> rest == old(rest) && eof == old(eof)
    {
      if eof {
        return None;
      }
      if pendingAt == |pending| {
        pending, pendingAt := [], 0;
      }
      var data;
      error, data := Read(CHUNK, answer);
      if error.Some? {
        return error;
      }
      if |data| == 0 {
        eof := true;
      } else {
        pending := pending + data;
      }
      assert pending[pendingAt..] == old(this.pending[this.pendingAt..]) + data;
    }

    // The next bytes of the pending buffer.
    method Take(n: nat) returns (data: seq<Byte>)
      requires Valid() && n <= |pending| - pendingAt
      modifies this`pendingAt, this`given
      ensures Valid() && data == old(pending[pendingAt..])[..n] && pendingAt == old(pendingAt) + n
      ensures old(Remaining()) == data + Remaining() && given == old(given) + data
    {
      data := pending[pendingAt..pendingAt + n];
      assert pending[pendingAt..] == data + pending[pendingAt + n..];
      pendingAt := pendingAt + n;
      given := given + data;
    }

    // Op 2: the next piece, nothing only at the end of the file.
    method ReadFile(count: nat, answer: Answer) returns (error: Option<nat>, data: seq<Byte>)
      requires Valid()
      modifies this
      ensures Valid() && |data| <= count
      ensures old(Remaining()) == data + Remaining() && given == old(given) + data
      ensures error.Some? <==> answer.Fails? && old(pending[pendingAt..]) == [] && !old(eof) && count > 0
      ensures error.Some? ==> error == Some(answer.error) && data == []
      // What is pending, or else what the host gives of as many bytes, at most 2^30.
      ensures old(pending[pendingAt..]) != [] ==>
                |data| == if |old(pending[pendingAt..])| < count then |old(pending[pendingAt..])| else count
      ensures old(pending[pendingAt..]) == [] && !old(eof) && answer.Gives? ==>
                var want := if count > 0x4000_0000 then 0x4000_0000 else count;
                var most := if want < |old(rest)| then want else |old(rest)|;
                |data| == if 0 < answer.count < most then answer.count else most
      ensures error == None && count > 0 && data == [] ==> old(Remaining()) == []
    {
      var buffered := |pending| - pendingAt;
      if buffered > 0 {
        var n := if buffered < count then buffered else count;
        data := Take(n);
        return None, data;
      }
      if eof || count == 0 {
        return None, [];
      }
      var want := if count > MOST then MOST else count;
      error, data := Read(want, answer);
      given := given + data;
    }

    // Op 7: the next line, which ends with a newline unless it is the last.
    method GetLine(answers: nat -> Answer) returns (error: Option<nat>, line: seq<Byte>)
      requires Valid()
      modifies this
      ensures Valid()
      ensures old(Remaining()) == line + Remaining() && given == old(given) + line
      ensures error.Some? ==> line == [] && exists i :: answers(i) == Fails(error.value)
      ensures error == None ==> 10 !in (if line == [] then [] else line[..|line| - 1])
      ensures error == None && (line == [] || line[|line| - 1] != 10) ==> Remaining() == []
      ensures (forall i :: answers(i).Gives?) ==> error == None
    {
      hide IndexOf;
      var asked := 0;
      while true
        invariant Valid() && Remaining() == old(Remaining()) && given == old(given)
        decreases |rest|, !eof
      {
        var at := IndexOf(pending[pendingAt..], NEWLINE);
        var buffered := |pending| - pendingAt;
        if at < buffered || eof {
          var n := if at < buffered then at + 1 else buffered;
          ghost var piece := pending[pendingAt..];
          line := Take(n);
          LineShape(piece, line, at);
          return None, line;
        }
        error := Fill(answers(asked));
        if error.Some? {
          return error, [];
        }
        asked := asked + 1;
      }
      line := [];
    }
  }

  // A piece up to the first newline holds no other.
  lemma LineShape(s: seq<Byte>, line: seq<Byte>, at: nat)
    requires at == IndexOf(s, NEWLINE) && line == s[..if at < |s| then at + 1 else at]
    ensures line != [] ==> NEWLINE !in line[..|line| - 1]
    ensures at < |s| ==> line[|line| - 1] == NEWLINE
  {
  }

  // The first occurrence, or the length.
  function IndexOf(s: seq<Byte>, b: Byte): (i: nat)
    ensures i <= |s| && (i < |s| ==> s[i] == b)
    ensures i == |s| <==> b !in s
    ensures forall j :: 0 <= j < i ==> s[j] != b
  {
    if s == [] || s[0] == b then 0
    else
      1 + IndexOf(s[1..], b)
  }
}
