/** Listing a directory through fd_readdir, which fills a buffer with directory entries,
    truncates the last one, and resumes after any entry (wasi_snapshot_preview1). */
module WasiDirectory {
  import opened Bytes
  import opened Wrappers

  const BUFFER: nat := 65536

  // `next` is the cookie that resumes the listing after this entry.
  datatype Entry = Entry(next: nat, inode: nat, kind: Byte, name: seq<Byte>)

  function Size(e: Entry): nat { 24 + |e.name| }

  function Dirent(e: Entry): (r: seq<Byte>)
    ensures |r| == Size(e)
  {
    Word(e.next) + Word(e.inode) + Little(4, |e.name|) + [e.kind, 0, 0, 0] + e.name
  }

  function Listing(es: seq<Entry>): seq<Byte> {
    if es == [] then [] else Dirent(es[0]) + Listing(es[1..])
  }

  // What a host lists: cookies are non-zero and tell the entries apart.
  ghost predicate Listable(es: seq<Entry>) {
    && (forall i :: 0 <= i < |es| ==> 0 < es[i].next < WORD && |es[i].name| < 0x1_0000_0000)
    && (forall i, j :: 0 <= i < j < |es| ==> es[i].next != es[j].next)
  }

  // Where a cookie resumes.
  function Resume(es: seq<Entry>, cookie: nat): (k: nat)
    ensures k <= |es|
  {
    if cookie == 0 || es == [] then 0
    else if es[|es| - 1].next == cookie then |es|
    else Resume(es[..|es| - 1], cookie)
  }

  // fd_readdir: as much of the rest of the listing as fits.
  function Readdir(es: seq<Entry>, cookie: nat): (chunk: seq<Byte>)
    ensures |chunk| <= BUFFER
  {
    var all := Listing(es[Resume(es, cookie)..]);
    if |all| <= BUFFER then all else all[..BUFFER]
  }

  predicate Dots(name: seq<Byte>) { name == [46] || name == [46, 46] }

  // The names of a listing, each ended by a zero, but for "." and "..".
  function Names(es: seq<Entry>): seq<Byte> {
    if es == [] then []
    else Names(es[..|es| - 1]) + if Dots(es[|es| - 1].name) then [] else es[|es| - 1].name + [0]
  }

  // The first entry that no buffer can hold.
  function TooLong(es: seq<Entry>): (k: nat)
    ensures k <= |es|
    ensures forall i :: 0 <= i < k ==> Size(es[i]) <= BUFFER
    ensures k < |es| ==> Size(es[k]) > BUFFER
  {
    if es == [] || Size(es[0]) > BUFFER then 0 else 1 + TooLong(es[1..])
  }

  lemma {:induction false} ResumesAfter(es: seq<Entry>, k: nat)
    requires Listable(es) && k < |es|
    ensures Resume(es, es[k].next) == k + 1
  {
    if k < |es| - 1 {
      ResumesAfter(es[..|es| - 1], k);
    }
  }

  lemma {:induction false} ListingSplit(es: seq<Entry>, k: nat)
    requires k <= |es|
    ensures Listing(es) == Listing(es[..k]) + Listing(es[k..])
  {
    hide Dirent;
    if k > 0 {
      ListingSplit(es[1..], k - 1);
      assert es[1..][..k - 1] == es[..k][1..];
      assert es[1..][k - 1..] == es[k..];
    }
  }

  // Entry `k` stands behind the entries before it.
  lemma ListingAt(es: seq<Entry>, from: nat, k: nat)
    requires from <= k < |es|
    ensures var at := |Listing(es[from..k])|;
            && |Listing(es[from..])| >= at + Size(es[k])
            && Listing(es[from..])[at..at + Size(es[k])] == Dirent(es[k])
            && |Listing(es[from..k + 1])| == at + Size(es[k])
  {
    hide Dirent;
    var s := es[from..];
    ListingSplit(s, k - from);
    assert s[..k - from] == es[from..k];
    assert s[k - from..][0] == es[k];
    var t := es[from..k + 1];
    ListingSplit(t, k - from);
    assert t[..k - from] == es[from..k] && t[k - from..] == [es[k]];
    assert Listing([es[k]]) == Dirent(es[k]) + Listing([es[k]][1..]);
    assert Listing([es[k]][1..]) == [];
  }

  lemma NamesSnoc(es: seq<Entry>, k: nat)
    requires k < |es|
    ensures Names(es[..k + 1]) == Names(es[..k]) + if Dots(es[k].name) then [] else es[k].name + [0]
  {
    assert es[..k + 1][..k] == es[..k];
  }

  // The fields of an entry, from its first 24 bytes.
  lemma DirentReads(e: Entry, s: seq<Byte>, at: nat)
    requires e.next < WORD && |e.name| < 0x1_0000_0000
    requires at + 24 <= |s| && s[at..at + 24] == Dirent(e)[..24]
    ensures WordAt(s, at) == e.next
    ensures Number(s[at + 16..at + 20]) == |e.name|
  {
    hide Little, Number;
    WordRoundTrip(e.next);
    FourBytes(|e.name|);
    Slice(s, at, 24, 0, 8);
    Slice(s, at, 24, 16, 20);
    assert Dirent(e)[..24][0..8] == Word(e.next);
    assert Dirent(e)[..24][16..20] == Little(4, |e.name|);
  }

  lemma Slice(s: seq<Byte>, at: nat, n: nat, a: nat, b: nat)
    requires at + n <= |s| && a <= b <= n
    ensures s[at..at + n][a..b] == s[at + a..at + b]
  {
    var t := s[at..at + n];
    assert forall i :: a <= i < b ==> t[i] == s[at + i];
    assert |t[a..b]| == |s[at + a..at + b]|;
    assert forall i :: 0 <= i < b - a ==> t[a..b][i] == s[at + a..at + b][i];
  }

  lemma FourBytes(v: nat)
    requires v < 0x1_0000_0000
    ensures Number(Little(4, v)) == v
  {
    assert Power(2) == 0x1_0000;
    assert Power(4) == 0x1_0000_0000 by { assert Power(3) == 0x100_0000; }
    NumberOfLittle(4, v);
  }

  // Takes the whole entries of one buffer.
  method ReadChunk(es: seq<Entry>, chunk: seq<Byte>, before: seq<Byte>, start: nat, ghost from: nat)
    returns (names: seq<Byte>, cookie: nat, progressed: bool, ghost k: nat)
    requires Listable(es) && from <= |es| && Chunk(es, from, chunk) && Resume(es, start) == from && before == Names(es[..from])
    ensures names == Names(es[..Resume(es, cookie)])
    ensures progressed <==> from < Resume(es, cookie)
    ensures from <= k <= |es| && Resume(es, cookie) == k
    ensures forall i :: from <= i < k ==> Size(es[i]) <= |chunk|
    ensures var at := |Listing(es[from..k])|; at + 24 > |chunk| || (k < |es| && at + Size(es[k]) > |chunk|)
  {
    hide Listing, Dirent, Resume, Names, Listable, Chunk;
    names, cookie, progressed := before, start, false;
    var at := 0;
    k := from;
    NothingListed(es, k);
    while at + 24 <= |chunk|
      invariant from <= k <= |es| && at == |Listing(es[from..k])| <= |chunk|
      invariant Resume(es, cookie) == k && names == Names(es[..k])
      invariant forall i :: from <= i < k ==> Size(es[i]) <= |chunk|
      invariant progressed <==> from < k
      decreases |chunk| - at
    {
      EntryThere(es, from, k, chunk);
      HeaderThere(es, from, k, chunk, at);
      var next := WordAt(chunk, at);
      var length := Number(chunk[at + 16..at + 20]);
      if at + 24 + length > |chunk| {
        return;
      }
      NameThere(es, from, k, chunk, at);
      var name := chunk[at + 24..at + 24 + length];
      if !(length == 1 && name[0] == 46) && !(length == 2 && name[0] == 46 && name[1] == 46) {
        names := names + (name + [0]);
      }
      NamesSnoc(es, k);
      ResumesAfter(es, k);
      ListingAt(es, from, k);
      cookie, at, progressed := next, at + 24 + length, true;
      k := k + 1;
    }
  }

  /** Every name but "." and "..", once and in order, up to the first entry that the buffer
      cannot hold; all of them when every entry fits. */
  method ReadDirectory(es: seq<Entry>, fails: nat -> bool) returns (ok: bool, names: seq<Byte>, calls: nat, ghost listed: seq<nat>)
    requires Listable(es)
    // It succeeds exactly when none of its calls fails; the first that fails is the last one.
    ensures ok <==> forall i :: 0 <= i < calls ==> !fails(i)
    ensures !ok ==> calls > 0 && fails(calls - 1) && names == []
    ensures ok ==> names == Names(es[..TooLong(es)])
    // The entries listed, by their places: all but "." and "..", before any that does not fit.
    ensures ok ==> In(es, listed) && names == Ended(es, listed)
    ensures forall j, k :: 0 <= j < k < |listed| ==> listed[j] < listed[k]
    ensures ok ==> forall i: nat ::
                     i in listed <==> i < |es| && es[i].name != [46] && es[i].name != [46, 46] && forall j :: 0 <= j <= i ==> 24 + |es[j].name| <= 65536
  {
    hide Listing, Dirent, Resume, Names, Listable;
    names := [];
    listed := [];
    var cookie := 0;
    calls := 0;
    ghost var k: nat := 0;
    StartsAt(es);
    while true
      invariant k <= |es| && Resume(es, cookie) == k && names == Names(es[..k])
      invariant forall i :: 0 <= i < k ==> Size(es[i]) <= BUFFER
      invariant forall i :: 0 <= i < calls ==> !fails(i)
      decreases |es| - k
    {
      calls := calls + 1;
      if fails(calls - 1) {
        return false, [], calls, [];
      }
      var chunk := Readdir(es, cookie);
      ghost var from := k;
      var progressed;
      names, cookie, progressed, k := ReadChunk(es, chunk, names, cookie, from);
      if |chunk| < BUFFER || !progressed {
        AllSeen(es, from, k, |chunk|);
        Reached(es, k);
        listed := NamesMean(es, k);
        return true, names, calls, listed;
      }
    }
  }

  ghost predicate In(es: seq<Entry>, at: seq<nat>) {
    forall j :: 0 <= j < |at| ==> at[j] < |es|
  }

  // The names at these places, each ended by a zero.
  ghost function Ended(es: seq<Entry>, at: seq<nat>): seq<Byte>
    requires In(es, at)
  {
    if at == [] then [] else Ended(es, at[..|at| - 1]) + es[at[|at| - 1]].name + [0]
  }

  lemma EndedSnoc(es: seq<Entry>, at: seq<nat>, k: nat)
    requires k < |es| && In(es, at)
    ensures In(es, at + [k]) && Ended(es, at + [k]) == Ended(es, at) + (es[k].name + [0])
  {
    var more := at + [k];
    assert more[..|at|] == at;
    assert Ended(es, more) == Ended(es, at) + es[k].name + [0];
  }

  // The places of the names among the first `k` entries.
  ghost predicate Places(es: seq<Entry>, k: nat, at: seq<nat>)
    requires k <= |es|
  {
    && (forall j :: 0 <= j < |at| ==> at[j] < k)
    && (forall i, j :: 0 <= i < j < |at| ==> at[i] < at[j])
    && (forall i: nat :: i in at <==> i < k && es[i].name != [46] && es[i].name != [46, 46])
  }

  lemma PlacesSnoc(es: seq<Entry>, k: nat, before: seq<nat>)
    requires k < |es| && Places(es, k, before)
    ensures Places(es, k + 1, if es[k].name == [46] || es[k].name == [46, 46] then before else before + [k])
  {
  }

  lemma PlacesIn(es: seq<Entry>, k: nat, at: seq<nat>)
    requires k <= |es| && Places(es, k, at)
    ensures In(es, at)
  {
  }

  lemma NamesNext(es: seq<Entry>, k: nat, before: seq<nat>) returns (at: seq<nat>)
    requires k < |es| && Places(es, k, before) && In(es, before) && Names(es[..k]) == Ended(es, before)
    ensures Places(es, k + 1, at) && In(es, at) && Names(es[..k + 1]) == Ended(es, at)
  {
    hide Names, Ended, Places;
    NamesSnoc(es, k);
    PlacesSnoc(es, k, before);
    if es[k].name == [46] || es[k].name == [46, 46] {
      at := before;
    } else {
      EndedSnoc(es, before, k);
      at := before + [k];
    }
    PlacesIn(es, k + 1, at);
  }

  // Which names the first `k` entries have.
  lemma {:induction false} NamesMean(es: seq<Entry>, k: nat) returns (at: seq<nat>)
    requires k <= |es|
    ensures Places(es, k, at) && In(es, at) && Names(es[..k]) == Ended(es, at)
  {
    if k == 0 {
      at := [];
    } else {
      hide Names, Ended, Places, In;
      var before := NamesMean(es, k - 1);
      at := NamesNext(es, k - 1, before);
    }
  }

  lemma {:induction false} TooLongIs(es: seq<Entry>)
    ensures TooLong(es) == |es| <==> forall i :: 0 <= i < |es| ==> Size(es[i]) <= BUFFER
  {
    if es != [] && Size(es[0]) <= BUFFER {
      TooLongIs(es[1..]);
      assert forall i :: 1 <= i < |es| ==> es[i] == es[1..][i - 1];
    }
  }

  // More entries give more names.
  lemma {:induction false} NamesGrow(es: seq<Entry>, k: nat)
    requires k <= |es|
    ensures |Names(es[..k])| <= |Names(es)|
    ensures k < |es| && !Dots(es[k].name) ==> |Names(es[..k])| < |Names(es)|
    decreases |es|
  {
    if k == |es| {
      assert es[..k] == es;
    } else {
      var n := |es| - 1;
      NamesGrow(es[..n], k);
      assert es[..n][..k] == es[..k];
    }
  }

  /** The list is complete exactly when every entry fits the buffer. */
  lemma NothingTooLong(es: seq<Entry>)
    ensures TooLong(es) == |es| <==> forall i :: 0 <= i < |es| ==> 24 + |es[i].name| <= 65536
    ensures Names(es[..TooLong(es)]) == Names(es) <==> forall i :: 0 <= i < |es| ==> 24 + |es[i].name| <= 65536
  {
    var k := TooLong(es);
    TooLongIs(es);
    if k == |es| {
      assert es[..k] == es;
    } else {
      NamesGrow(es, k);
    }
  }

  // A name of 65513 letters, and a short one behind it.
  const Long: seq<Byte> := seq(65513, i => 97)
  const Hidden: seq<Entry> := [Entry(1, 0, 0, Long), Entry(2, 0, 0, [98])]

  /** A listing that a call reports as complete although nothing of it was taken. */
  method SilentlyShort() returns (ok: bool, names: seq<Byte>)
    ensures Listable(Hidden) && ok && names == [] && |Names(Hidden)| > 2
  {
    assert |Long| == 65513;
    assert Hidden[1].next == 2;
    var calls;
    ghost var listed;
    ok, names, calls, listed := ReadDirectory(Hidden, i => false);
    assert Hidden[..0] == [];
    assert Hidden[..1] == [Hidden[0]] && Hidden[..2] == Hidden;
    NamesGrow(Hidden, 0);
    assert |Names(Hidden[..1])| > 2;
    NamesGrow(Hidden, 1);
  }

  lemma StartsAt(es: seq<Entry>)
    ensures Resume(es, 0) == 0 && Names(es[..0]) == []
  {
  }

  lemma NothingListed(es: seq<Entry>, k: nat)
    requires k <= |es|
    ensures Listing(es[k..k]) == []
  {
  }

  // While 24 bytes are left there is another entry.
  predicate Chunk(es: seq<Entry>, from: nat, chunk: seq<Byte>)
    requires from <= |es|
  {
    |chunk| <= |Listing(es[from..])| && chunk == Listing(es[from..])[..|chunk|]
  }

  lemma EntryThere(es: seq<Entry>, from: nat, k: nat, chunk: seq<Byte>)
    requires from <= k <= |es| && Chunk(es, from, chunk) && |Listing(es[from..k])| + 24 <= |chunk|
    ensures k < |es|
  {
    hide Listing;
    ToTheEnd(es, from);
  }

  lemma ToTheEnd(es: seq<Entry>, from: nat)
    requires from <= |es|
    ensures es[from..|es|] == es[from..]
  {
  }

  lemma HeaderThere(es: seq<Entry>, from: nat, k: nat, chunk: seq<Byte>, at: nat)
    requires Listable(es)
    requires from <= k < |es| && Chunk(es, from, chunk) && at == |Listing(es[from..k])| && at + 24 <= |chunk|
    ensures WordAt(chunk, at) == es[k].next
    ensures Number(chunk[at + 16..at + 20]) == |es[k].name|
  {
    hide Listing, Dirent, WordAt, Number;
    ListingAt(es, from, k);
    assert chunk[at..at + 24] == Listing(es[from..])[at..at + Size(es[k])][..24];
    DirentReads(es[k], chunk, at);
  }

  lemma NameThere(es: seq<Entry>, from: nat, k: nat, chunk: seq<Byte>, at: nat)
    requires from <= k < |es| && Chunk(es, from, chunk) && at == |Listing(es[from..k])| && at + Size(es[k]) <= |chunk|
    ensures chunk[at + 24..at + Size(es[k])] == es[k].name
  {
    hide Listing;
    ListingAt(es, from, k);
    assert chunk[at + 24..at + Size(es[k])] == Listing(es[from..])[at..at + Size(es[k])][24..];
    assert Dirent(es[k])[24..] == es[k].name;
  }

  // The listing stops at its end, or at an entry that is too long.
  lemma AllSeen(es: seq<Entry>, from: nat, k: nat, used: nat)
    requires from <= k <= |es|
    requires used == (if |Listing(es[from..])| <= BUFFER then |Listing(es[from..])| else BUFFER)
    requires var at := |Listing(es[from..k])|; at + 24 > used || (k < |es| && at + Size(es[k]) > used)
    requires used < BUFFER || from == k
    ensures k == |es| || Size(es[k]) > BUFFER
  {
    hide Listing;
    NothingListed(es, k);
    if k < |es| {
      ListingAt(es, from, k);
    }
  }

  lemma Reached(es: seq<Entry>, k: nat)
    requires k <= |es| && (forall i :: 0 <= i < k ==> Size(es[i]) <= BUFFER) && (k == |es| || Size(es[k]) > BUFFER)
    ensures k == TooLong(es)
  {
  }
}
