/** The canonical-import transform as the program runs it: a reader that moves over the
    module, a table of function imports, and an output buffer whose size is computed first. */
module CanonicalImports {
  import opened Bytes
  import opened Wrappers
  import opened WasmBinary
  import opened CanonicalSpec

  // ---- Reading ----

  // A cursor into part of a module.
  class Reader {
    const bytes: seq<Byte>
    const end: nat
    var at: nat

    ghost predicate Valid()
      reads this
    {
      at <= end <= |bytes|
    }

    ghost function Rest(): (r: seq<Byte>)
      requires Valid()
      reads this
      ensures |r| == end - at
    {
      bytes[at..end]
    }

    constructor (bytes: seq<Byte>, at: nat, end: nat)
      requires at <= end <= |bytes|
      ensures Valid() && this.bytes == bytes && this.at == at && this.end == end
    {
      this.bytes, this.at, this.end := bytes, at, end;
    }

    method ReadInteger(bits: nat) returns (ok: bool, value: nat)
      requires Valid() && bits in {32, 64}
      modifies this
      ensures Valid()
      ensures ok == U(bits, old(Rest())).Some?
      ensures ok ==> value == U(bits, old(Rest())).value.value && at == old(at) + U(bits, old(Rest())).value.size
      ensures ok ==> Rest() == old(Rest())[U(bits, old(Rest())).value.size..]
    {
      hide U, Pow2, Continued;
      value := 0;
      ghost var rest := bytes[at..end];
      var i: nat, scale: nat := 0, 1;
      FromTheStart(bits, rest);
      assert rest[0..] == rest;
      while i < (bits + 6) / 7
        invariant i <= (bits + 6) / 7 && i <= |rest| && at == old(at) + i && at <= end
        invariant rest[i..] == bytes[at..end]
        invariant U(bits, rest) == Continued(bits - 7 * i, rest[i..], value, scale, i)
      {
        ghost var tail := rest[i..];
        assert bits - 7 * i >= 1;
        if at == end {
          NothingLeft(bits - 7 * i, tail, value, scale, i);
          return false, 0;
        }
        var byte := bytes[at];
        at := at + 1;
        var remaining := bits - 7 * i;
        assert tail[0] == byte && tail[1..] == rest[i + 1..] == bytes[at..end];
        IntegerStep(remaining, tail, value, scale, i);
        if remaining < 7 && byte % 128 >= Pow2(remaining) {
          return false, 0;
        }
        value := value + byte % 128 * scale;
        scale := scale * 128;
        if byte < 128 {
          return true, value;
        }
        i := i + 1;
      }
      NothingLeft(bits - 7 * i, rest[i..], value, scale, i);
      return false, 0;
    }

    method ReadName() returns (ok: bool, name: seq<Byte>)
      requires Valid()
      modifies this
      ensures Valid()
      ensures ok == Name(old(Rest())).Some?
      ensures ok ==> name == Name(old(Rest())).value.value && at == old(at) + Name(old(Rest())).value.size
      ensures ok ==> Rest() == old(Rest())[Name(old(Rest())).value.size..]
    {
      hide U;
      ghost var rest := Rest();
      var read, length := ReadInteger(32);
      if !read || length > end - at {
        return false, [];
      }
      name := bytes[at..at + length];
      assert name == Rest()[..length];
      at := at + length;
      return true, name;
    }

    method SkipValueType() returns (ok: bool)
      requires Valid()
      modifies this
      ensures Valid()
      ensures ok == ValueType(old(Rest())).Some?
      ensures ok ==> at == old(at) + ValueType(old(Rest())).value
      ensures ok ==> Rest() == old(Rest())[ValueType(old(Rest())).value..]
    {
      hide HeapType;
      if at == end {
        return false;
      }
      ghost var rest := Rest();
      var kind := bytes[at];
      at := at + 1;
      assert Rest() == rest[1..];
      if kind == 0x63 || kind == 0x64 {
        ok := SkipHeapType();
        return ok;
      }
      return 0x66 <= kind <= 0x7f;
    }

    // Signed heap-type indices can use a negative predefined reference.
    method SkipHeapType() returns (ok: bool)
      requires Valid()
      modifies this
      ensures Valid()
      ensures ok == HeapType(5, old(Rest())).Some?
      ensures ok ==> at == old(at) + HeapType(5, old(Rest())).value
      ensures ok ==> Rest() == old(Rest())[HeapType(5, old(Rest())).value..]
    {
      ghost var rest := Rest();
      for i := 0 to 5
        invariant i <= |rest| && at == old(at) + i && Valid() && Rest() == rest[i..]
        invariant HeapType(5, rest) == Skipped(i, HeapType(5 - i, rest[i..]))
      {
        if at == end {
          return false;
        }
        var byte := bytes[at];
        at := at + 1;
        assert rest[i..][1..] == rest[i + 1..];
        if byte < 128 {
          return true;
        }
      }
      return false;
    }

    method SkipLimits() returns (ok: bool)
      requires Valid()
      modifies this
      ensures Valid()
      ensures ok == Limits(old(Rest())).Some?
      ensures ok ==> at == old(at) + Limits(old(Rest())).value
      ensures ok ==> Rest() == old(Rest())[Limits(old(Rest())).value..]
    {
      hide U, Limits;
      ghost var rest := Rest();
      var read, flags := ReadInteger(32);
      if !read || flags > 7 {
        NoLimits(rest);
        return false;
      }
      ghost var first := U(32, rest).value;
      LimitsAre(rest, first);
      var bits := if flags / 4 % 2 == 1 then 64 else 32;
      ghost var tail := Rest();
      var low, high, ignored;
      low, ignored := ReadInteger(bits);
      if !low {
        return false;
      }
      Shifted(rest, first.size, U(bits, tail).value.size);
      if flags % 2 == 0 {
        return true;
      }
      ghost var last := Rest();
      high, ignored := ReadInteger(bits);
      if high {
        Shifted(rest, first.size + U(bits, tail).value.size, U(bits, last).value.size);
      }
      return high;
    }

    // One import: whether it imports a function.
    method ReadImport() returns (ok: bool, isFunction: bool)
      requires Valid()
      modifies this
      ensures Valid()
      ensures ok == ImportAt(old(Rest())).Some?
      ensures ok ==> isFunction == (ImportAt(old(Rest())).value.value.kind == 0)
      ensures ok ==>
                var space := Name(old(Rest())).value.size;
                var name := Name(old(Rest())[space..]).value.size;
                isFunction == (old(Rest())[space + name] == 0)
      ensures ok ==> at == old(at) + ImportAt(old(Rest())).value.size
      ensures ok ==> Rest() == old(Rest())[ImportAt(old(Rest())).value.size..]
    {
      hide Name, Description;
      ghost var rest := Rest();
      var space, name, read;
      read, space := ReadName();
      if !read {
        return false, false;
      }
      read, name := ReadName();
      if !read || at == end {
        return false, false;
      }
      var kind := bytes[at];
      assert kind == Rest()[0];
      at := at + 1;
      ghost var size := |rest| - |Rest()|;
      assert Rest() == rest[size..];
      ok := SkipDescription(kind);
      return ok, kind == 0;
    }

    method SkipDescription(kind: Byte) returns (ok: bool)
      requires Valid()
      modifies this
      ensures Valid()
      ensures ok == Description(kind, old(Rest())).Some? && (ok ==> kind <= 4)
      ensures ok ==> at == old(at) + Description(kind, old(Rest())).value
      ensures ok ==> Rest() == old(Rest())[Description(kind, old(Rest())).value..]
    {
      hide U, ValueType, Limits;
      ghost var rest := Rest();
      var read, ignored;
      if kind == 0 {
        read, ignored := ReadInteger(32);
        return read;
      } else if kind == 1 {
        read := SkipValueType();
        if !read {
          return false;
        }
        read := SkipLimits();
        return read;
      } else if kind == 2 {
        read := SkipLimits();
        return read;
      } else if kind == 3 {
        read := SkipValueType();
        if !read || at == end || bytes[at] > 1 {
          return false;
        }
        at := at + 1;
        return true;
      } else if kind == 4 {
        if at == end || bytes[at] != 0 {
          return false;
        }
        at := at + 1;
        assert Rest() == rest[1..];
        read, ignored := ReadInteger(32);
        return read;
      }
      return false;
    }

    // One export, unless its name is one the transform adds.
    method ReadExport() returns (ok: bool)
      requires Valid()
      modifies this
      ensures Valid()
      ensures ok == (ExportAt(old(Rest())).Some? && !Reserved(ExportAt(old(Rest())).value.value.name))
      ensures ok ==> at == old(at) + ExportAt(old(Rest())).value.size
      ensures ok ==> Rest() == old(Rest())[ExportAt(old(Rest())).value.size..]
    {
      hide U, Name;
      ghost var rest := Rest();
      var read, name, ignored;
      read, name := ReadName();
      if !read || (|name| >= |PREFIX| && name[..|PREFIX|] == PREFIX) {
        return false;
      }
      if at == end || bytes[at] > 4 {
        return false;
      }
      at := at + 1;
      assert Rest() == rest[|rest| - |Rest()|..];
      read, ignored := ReadInteger(32);
      return read;
    }
  }

  function Skipped(i: nat, m: Option<nat>): Option<nat> {
    if m.None? then None else Some(i + m.value)
  }

  // A number whose first `i` bytes are `value`, the next one counting `scale`.
  ghost function Continued(bits: int, s: seq<Byte>, value: nat, scale: nat, i: nat): Option<Parsed<nat>> {
    if bits <= 0 || U(bits, s).None? then None
    else Some(Parsed(value + scale * U(bits, s).value.value, i + U(bits, s).value.size))
  }

  lemma FromTheStart(bits: nat, s: seq<Byte>)
    ensures Continued(bits, s, 0, 1, 0) == U(bits, s)
  {
  }

  lemma NothingLeft(bits: int, s: seq<Byte>, value: nat, scale: nat, i: nat)
    requires bits <= 0 || s == []
    ensures Continued(bits, s, value, scale, i).None?
  {
  }

  lemma IntegerStep(bits: nat, s: seq<Byte>, value: nat, scale: nat, i: nat)
    requires bits >= 1 && s != []
    ensures bits < 7 && s[0] % 128 >= Pow2(bits) ==> Continued(bits, s, value, scale, i).None?
    ensures (bits >= 7 || s[0] % 128 < Pow2(bits)) ==>
              Continued(bits, s, value, scale, i) ==
              if s[0] < 128 then Some(Parsed(value + s[0] % 128 * scale, i + 1))
              else Continued(bits - 7, s[1..], value + s[0] % 128 * scale, scale * 128, i + 1)
  {
    hide U, Pow2, Continued;
    Pow2Small(bits);
    if s[0] >= 128 {
      NextByte(bits, s, value, scale, i);
      if bits < 7 {
        NothingLeft(bits - 7, s[1..], value + s[0] % 128 * scale, scale * 128, i + 1);
      }
    } else {
      LastByte(bits, s, value, scale, i);
    }
  }

  lemma LastByte(bits: nat, s: seq<Byte>, value: nat, scale: nat, i: nat)
    requires bits >= 1 && s != [] && s[0] < 128
    ensures bits < 7 && s[0] % 128 >= Pow2(bits) ==> Continued(bits, s, value, scale, i).None?
    ensures (bits >= 7 || s[0] % 128 < Pow2(bits)) ==>
              Continued(bits, s, value, scale, i) == Some(Parsed(value + s[0] % 128 * scale, i + 1))
  {
    assert s[0] % 128 == s[0];
    if bits >= 7 {
      Pow2Mono(7, bits);
      Pow2Split(7);
    }
    assert U(bits, s) == if s[0] < Pow2(bits) then Some(Parsed(s[0], 1)) else None;
    hide U, Pow2;
    assert scale * s[0] == s[0] * scale;
  }

  lemma NextByte(bits: nat, s: seq<Byte>, value: nat, scale: nat, i: nat)
    requires bits >= 1 && s != [] && s[0] >= 128
    ensures Continued(bits, s, value, scale, i) ==
            Continued(bits - 7, s[1..], value + s[0] % 128 * scale, scale * 128, i + 1)
  {
    var low := s[0] - 128;
    assert s[0] % 128 == low;
    UNext(bits, s);
    hide U;
    if bits > 7 && U(bits - 7, s[1..]).Some? {
      Regroup(scale, U(bits - 7, s[1..]).value.value, low);
    }
  }

  lemma UNext(bits: nat, s: seq<Byte>)
    requires bits >= 1 && s != [] && s[0] >= 128
    ensures bits <= 7 ==> U(bits, s).None?
    ensures bits > 7 && U(bits - 7, s[1..]).None? ==> U(bits, s).None?
    ensures bits > 7 && U(bits - 7, s[1..]).Some? ==>
              U(bits, s) == Some(Parsed(128 * U(bits - 7, s[1..]).value.value + (s[0] - 128), U(bits - 7, s[1..]).value.size + 1))
  {
  }

  lemma Regroup(scale: nat, high: nat, low: nat)
    ensures scale * (128 * high + low) == low * scale + (scale * 128) * high
  {
    assert scale * (128 * high) == (scale * 128) * high;
  }

  // ---- Scanning the sections ----

  // The contents of the import and export sections, and the bytes the export section
  // takes or will take.
  datatype Layout = Layout(hasImports: bool, imports: (nat, nat), hasExports: bool, exports: (nat, nat), start: nat, end: nat)

  ghost predicate Holds(bytes: seq<Byte>, seen: seq<Section>, kind: Byte, has: bool, range: (nat, nat)) {
    var i := Find(seen, {kind});
    && has == (i < |seen|)
    && (has ==> range.0 <= range.1 <= |bytes| && bytes[range.0..range.1] == seen[i].body)
  }

  ghost predicate Placed(bytes: seq<Byte>, seen: seq<Section>, start: nat, end: nat) {
    var p := Place(seen);
    if Find(seen, {7}) == |seen| && Find(seen, LATER) == |seen| then start == end == |bytes|
    else start == 8 + |Raw(seen[..p.0])| && end == 8 + |Raw(seen[..p.1])| <= |bytes| && (Find(seen, {7}) == |seen| ==> start < |bytes|)
  }

  ghost predicate Laid(bytes: seq<Byte>, seen: seq<Section>, l: Layout) {
    && Holds(bytes, seen, 2, l.hasImports, l.imports)
    && Holds(bytes, seen, 7, l.hasExports, l.exports)
    && Placed(bytes, seen, l.start, l.end)
  }

  lemma FindSnoc(seen: seq<Section>, x: Section, kinds: set<Byte>)
    ensures Find(seen + [x], kinds) ==
            if Find(seen, kinds) < |seen| then Find(seen, kinds)
            else if x.kind in kinds then |seen| else |seen| + 1
  {
    var i := Find(seen, kinds);
    var all := seen + [x];
    assert forall k :: 0 <= k < |seen| ==> all[k] == seen[k];
    assert all[|seen|] == x;
  }

  lemma HoldsSnoc(bytes: seq<Byte>, seen: seq<Section>, x: Section, kind: Byte, has: bool, range: (nat, nat), here: (nat, nat))
    requires Holds(bytes, seen, kind, has, range) && !(has && x.kind == kind)
    requires here.0 <= here.1 <= |bytes| && bytes[here.0..here.1] == x.body
    ensures x.kind == kind ==> Holds(bytes, seen + [x], kind, true, here)
    ensures x.kind != kind ==> Holds(bytes, seen + [x], kind, has, range)
  {
    hide Find;
    FindSnoc(seen, x, {kind});
  }

  lemma OnceSnoc(seen: seq<Section>, x: Section, kind: Byte)
    requires Once(seen, kind)
    ensures Once(seen + [x], kind) <==> !(Find(seen, {kind}) < |seen| && x.kind == kind)
  {
    var all := seen + [x];
    var i := Find(seen, {kind});
    assert all[|seen|] == x;
    if i < |seen| {
      assert all[i] == seen[i];
    }
  }

  lemma OncePrefix(seen: seq<Section>, rest: seq<Section>, kind: Byte)
    requires Once(seen + rest, kind)
    ensures Once(seen, kind)
  {
    var all := seen + rest;
    forall i, j | 0 <= i < j < |seen|
      ensures seen[i].kind != kind || seen[j].kind != kind
    {
      assert all[i] == seen[i] && all[j] == seen[j];
    }
  }

  // The export section replaces what was chosen before it; otherwise the first later section is it.
  lemma PlacedSnoc(bytes: seq<Byte>, seen: seq<Section>, x: Section, start: nat, end: nat)
    requires Placed(bytes, seen, start, end)
    requires 8 + |Raw(seen)| + |x.raw| <= |bytes| && x.raw != []
    requires x.kind != 7
    ensures Find(seen, {7}) == |seen| && start == |bytes| && x.kind in LATER ==>
              Placed(bytes, seen + [x], 8 + |Raw(seen)|, 8 + |Raw(seen)|)
    ensures !(Find(seen, {7}) == |seen| && start == |bytes| && x.kind in LATER) ==>
              Placed(bytes, seen + [x], start, end)
  {
    hide Find, Raw, Place;
    FindSnoc(seen, x, {7});
    FindSnoc(seen, x, LATER);
    PlaceSnoc(seen, x);
    RawAppend(seen, [x]);
    RawOne(x);
    var all := seen + [x];
    var p := Place(seen);
    assert all[..|seen|] == seen && all[..|seen| + 1] == all;
    assert all[..p.0] == seen[..p.0] && all[..p.1] == seen[..p.1];
  }

  lemma PlacedExport(bytes: seq<Byte>, seen: seq<Section>, x: Section)
    requires 8 + |Raw(seen)| + |x.raw| <= |bytes|
    requires Find(seen, {7}) == |seen| && x.kind == 7
    ensures Placed(bytes, seen + [x], 8 + |Raw(seen)|, 8 + |Raw(seen)| + |x.raw|)
  {
    hide Find, Place, Raw;
    var all := seen + [x];
    FindSnoc(seen, x, {7});
    PlaceSnoc(seen, x);
    RawAppend(seen, [x]);
    RawOne(x);
    assert all[..|seen|] == seen && all[..|seen| + 1] == all;
    assert Find(all, {7}) == |seen| && Place(all) == (|seen|, |seen| + 1);
  }

  lemma PlaceSnoc(seen: seq<Section>, x: Section)
    ensures Place(seen + [x]) ==
            if Find(seen, {7}) < |seen| then Place(seen)
            else if x.kind == 7 then (|seen|, |seen| + 1)
            else if Find(seen, LATER) < |seen| then Place(seen)
            else if x.kind in LATER then (|seen|, |seen|)
            else (|seen| + 1, |seen| + 1)
  {
    var later := LATER;
    PlaceSnocOf(seen, x, later);
  }

  lemma PlaceSnocOf(seen: seq<Section>, x: Section, later: set<Byte>)
    requires later == LATER
    ensures Place(seen + [x]) ==
            if Find(seen, {7}) < |seen| then Place(seen)
            else if x.kind == 7 then (|seen|, |seen| + 1)
            else if Find(seen, later) < |seen| then Place(seen)
            else if x.kind in later then (|seen|, |seen|)
            else (|seen| + 1, |seen| + 1)
  {
    hide Find;
    FindSnoc(seen, x, {7});
    FindSnoc(seen, x, later);
    var all := seen + [x];
    var e, f := Find(all, {7}), Find(all, later);
    assert Place(all) == if e < |all| then (e, e + 1) else (f, f);
    assert Place(seen) == if Find(seen, {7}) < |seen| then (Find(seen, {7}), Find(seen, {7}) + 1) else (Find(seen, later), Find(seen, later));
    hide Place;
  }

  lemma RawOne(x: Section)
    ensures Raw([x]) == x.raw
  {
    assert [x][1..] == [];
    assert x.raw + [] == x.raw;
  }

  // Sections seen before a section that does not decode, or that comes a second time.
  lemma Unreadable(bytes: seq<Byte>, seen: seq<Section>, rest: seq<Byte>)
    requires |bytes| >= 8 && Sections(bytes[8..]) == Then(seen, Sections(rest))
    requires rest != [] && (SectionAt(rest).None? || (exists k | k in {2, 7} :: !Once(seen + [SectionAt(rest).value], k)))
    ensures !ScanOk(bytes)
  {
    hide SectionAt, Once;
    if Module(bytes).Some? && SectionAt(rest).Some? {
      var x := SectionAt(rest).value;
      var others := Sections(rest[|x.raw|..]).value;
      assert seen + ([x] + others) == (seen + [x]) + others;
      forall k | k in {2, 7} && Once(Module(bytes).value, k)
        ensures Once(seen + [x], k)
      {
        OncePrefix(seen + [x], others, k);
      }
    }
  }

  predicate ScanOk(bytes: seq<Byte>) {
    && Module(bytes).Some?
    && Once(Module(bytes).value, 2) && Once(Module(bytes).value, 7)
  }

  method Scan(bytes: seq<Byte>) returns (ok: bool, l: Layout)
    ensures ok == ScanOk(bytes)
    ensures ok ==> Laid(bytes, Module(bytes).value, l)
  {
    hide Sections, SectionAt, Find, Once, Place, Raw, Placed, Holds, U;
    l := Layout(false, (0, 0), false, (0, 0), |bytes|, |bytes|);
    if |bytes| < 8 || bytes[..8] != Header {
      return false, l;
    }
    var file := new Reader(bytes, 8, |bytes|);
    ghost var seen: seq<Section> := [];
    ScanStarts(bytes);
    while file.at != file.end
      invariant file.Valid() && 8 <= file.at && file.bytes == bytes && file.end == |bytes|
      invariant Sections(bytes[8..]) == Then(seen, Sections(bytes[file.at..]))
      invariant 8 + |Raw(seen)| == file.at
      invariant Once(seen, 2) && Once(seen, 7) && Laid(bytes, seen, l)
      decreases file.end - file.at
    {
      ghost var rest := bytes[file.at..];
      var section := file.at;
      var kind := bytes[file.at];
      file.at := file.at + 1;
      assert file.Rest() == rest[1..];
      var read, size := file.ReadInteger(32);
      if !read || size > file.end - file.at {
        TruncatedSection(rest);
        Unreadable(bytes, seen, rest);
        return false, l;
      }
      var here := (file.at, file.at + size);
      ghost var x := Section(kind, bytes[section..here.1], bytes[here.0..here.1]);
      SectionRead(bytes, seen, section, here, x);
      OnceSnoc(seen, x, 2);
      OnceSnoc(seen, x, 7);
      FlagsMean(bytes, seen, l);
      if (kind == 2 && l.hasImports) || (kind == 7 && l.hasExports) {
        assert exists k | k in {2, 7} :: !Once(seen + [x], k);
        Unreadable(bytes, seen, rest);
        return false, l;
      }
      HoldsSnoc(bytes, seen, x, 2, l.hasImports, l.imports, here);
      HoldsSnoc(bytes, seen, x, 7, l.hasExports, l.exports, here);
      if kind == 7 {
        PlacedExport(bytes, seen, x);
      } else {
        PlacedSnoc(bytes, seen, x, l.start, l.end);
      }
      if kind == 2 {
        l := l.(hasImports := true, imports := here);
      }
      if kind == 7 {
        l := l.(hasExports := true, exports := here, start := section, end := here.1);
      } else if !l.hasExports && l.start == |bytes| && (kind == 8 || kind == 9 || kind == 10 || kind == 11 || kind == 12) {
        l := l.(start := section, end := section);
      }
      file.at := here.1;
      seen := seen + [x];
    }
    ScanEnds(bytes, seen);
    return true, l;
  }

  lemma TruncatedSection(s: seq<Byte>)
    requires s != []
    requires U(32, s[1..]).None? || U(32, s[1..]).value.value > |s| - 1 - U(32, s[1..]).value.size
    ensures SectionAt(s).None?
  {
  }

  lemma FlagsMean(bytes: seq<Byte>, seen: seq<Section>, l: Layout)
    requires Laid(bytes, seen, l)
    ensures l.hasImports == (Find(seen, {2}) < |seen|)
    ensures l.hasExports == (Find(seen, {7}) < |seen|)
  {
  }

  lemma ScanStarts(bytes: seq<Byte>)
    requires |bytes| >= 8
    ensures Sections(bytes[8..]) == Then([], Sections(bytes[8..]))
    ensures Raw([]) == [] && Once([], 2) && Once([], 7)
    ensures Laid(bytes, [], Layout(false, (0, 0), false, (0, 0), |bytes|, |bytes|))
  {
    hide Sections;
    var rest := Sections(bytes[8..]);
    assert rest.Some? ==> [] + rest.value == rest.value;
  }

  lemma ScanEnds(bytes: seq<Byte>, seen: seq<Section>)
    requires |bytes| >= 8 && bytes[..8] == Header
    requires Sections(bytes[8..]) == Then(seen, Sections([]))
    ensures Module(bytes) == Some(seen)
  {
    assert Sections([]) == Some([]);
    assert seen + [] == seen;
  }

  lemma SectionRead(bytes: seq<Byte>, seen: seq<Section>, section: nat, here: (nat, nat), x: Section)
    requires 8 <= section < here.0 <= here.1 <= |bytes|
    requires Sections(bytes[8..]) == Then(seen, Sections(bytes[section..]))
    requires 8 + |Raw(seen)| == section
    requires var n := U(32, bytes[section..][1..]); n.Some? && here.0 == section + 1 + n.value.size && here.1 == here.0 + n.value.value
    requires x == Section(bytes[section], bytes[section..here.1], bytes[here.0..here.1])
    ensures SectionAt(bytes[section..]) == Some(x)
    ensures Sections(bytes[8..]) == Then(seen + [x], Sections(bytes[here.1..]))
    ensures 8 + |Raw(seen + [x])| == here.1
    ensures 8 + |Raw(seen)| + |x.raw| <= |bytes| && x.raw != []
  {
    hide U, Raw;
    var rest := bytes[section..];
    assert rest[..here.1 - section] == x.raw;
    assert rest[here.0 - section..here.1 - section] == x.body;
    assert SectionAt(rest) == Some(x);
    hide SectionAt;
    assert rest[|x.raw|..] == bytes[here.1..];
    assert Sections(rest) == Then([x], Sections(bytes[here.1..]));
    hide Sections;
    ThenThen(seen, [x], Sections(bytes[here.1..]));
    RawAppend(seen, [x]);
    RawOne(x);
  }

  // ---- Imports and exports ----

  lemma {:induction false} ImportsNeedRoom(n: nat, s: seq<Byte>)
    requires Imports(n, s).Some?
    ensures 4 * n <= |s|
    decreases n
  {
    hide ImportAt;
    if n > 0 {
      ImportsNeedRoom(n - 1, s[ImportAt(s).value.size..]);
    }
  }

  lemma ImportsStep(seen: seq<Import>, n: nat, s: seq<Byte>)
    requires n > 0
    ensures ImportAt(s).None? ==> Then(seen, Imports(n, s)).None?
    ensures ImportAt(s).Some? ==>
              Then(seen, Imports(n, s)) == Then(seen + [ImportAt(s).value.value], Imports(n - 1, s[ImportAt(s).value.size..]))
  {
    hide ImportAt;
    if ImportAt(s).Some? {
      ThenThen(seen, [ImportAt(s).value.value], Imports(n - 1, s[ImportAt(s).value.size..]));
    }
  }

  lemma ThenNone<T>(seen: seq<T>)
    ensures Then(seen, Some([])) == Some(seen)
    ensures Then(seen, None).None?
  {
    assert seen + [] == seen;
  }

  lemma FunctionExportsSnoc(seen: seq<Import>, x: Import)
    ensures FunctionExports(seen + [x]) ==
            if x.IsFunction() then FunctionExports(seen) + [ImportExport(|seen|, |FunctionExports(seen)|)]
            else FunctionExports(seen)
  {
    assert (seen + [x])[..|seen|] == seen;
  }

  method ReadImports(imports: Reader) returns (ok: bool, functions: array<ImportExport>, count: nat, ghost found: seq<Import>)
    requires imports.Valid()
    modifies imports
    ensures ok == ImportVector(old(imports.Rest())).Some?
    ensures ok ==> Some(found) == ImportVector(old(imports.Rest()))
    ensures ok ==> count <= functions.Length && functions[..count] == FunctionExports(found)
    ensures fresh(functions)
  {
    hide U, Imports, ImportAt, FunctionExports;
    count, found := 0, [];
    functions := new ImportExport[0];
    var read, importCount := imports.ReadInteger(32);
    if !read {
      return false, functions, 0, [];
    }
    ghost var body := imports.Rest();
    if importCount > (imports.end - imports.at) / 4 {
      TooManyImports(importCount, body);
      return false, functions, 0, [];
    }
    functions := new ImportExport[if importCount > 0 then importCount else 1](_ => ImportExport(0, 0));
    FunctionExportsOfNothing();
    FromNothing(Imports(importCount, body));
    for ordinal := 0 to importCount
      invariant imports.Valid() && fresh(functions)
      invariant |found| == ordinal && count <= ordinal <= importCount <= functions.Length
      invariant Imports(importCount, body) == Then(found, Imports(importCount - ordinal, imports.Rest()))
      invariant functions[..count] == FunctionExports(found)
    {
      ghost var rest := imports.Rest();
      ImportsStep(found, importCount - ordinal, rest);
      var isFunction;
      read, isFunction := imports.ReadImport();
      if !read {
        return false, functions, 0, [];
      }
      ghost var x := ImportAt(rest).value.value;
      FunctionExportsSnoc(found, x);
      if isFunction {
        functions[count] := ImportExport(ordinal, count);
        count := count + 1;
      }
      found := found + [x];
    }
    NoMoreImports(imports.Rest());
    ThenNone(found);
    return imports.at == imports.end, functions, count, found;
  }

  lemma NoMoreImports(s: seq<Byte>)
    ensures Imports(0, s) == if s == [] then Some([]) else None
  {
  }

  lemma FunctionExportsOfNothing()
    ensures FunctionExports([]) == []
  {
  }

  lemma FromNothing<T>(rest: Option<seq<T>>)
    ensures rest == Then([], rest)
  {
    if rest.Some? {
      assert [] + rest.value == rest.value;
    }
  }

  lemma TooManyImports(n: nat, s: seq<Byte>)
    requires n > |s| / 4
    ensures Imports(n, s).None?
  {
    hide Imports;
    if Imports(n, s).Some? {
      ImportsNeedRoom(n, s);
    }
  }

  lemma ExportsStep(seen: seq<Export>, n: nat, s: seq<Byte>)
    requires n > 0
    ensures ExportAt(s).None? ==> Then(seen, Exports(n, s)).None?
    ensures ExportAt(s).Some? ==>
              Then(seen, Exports(n, s)) == Then(seen + [ExportAt(s).value.value], Exports(n - 1, s[ExportAt(s).value.size..]))
  {
    hide ExportAt;
    if ExportAt(s).Some? {
      ThenThen(seen, [ExportAt(s).value.value], Exports(n - 1, s[ExportAt(s).value.size..]));
    }
  }

  predicate NoneReserved(exports: seq<Export>) {
    forall i :: 0 <= i < |exports| ==> !Reserved(exports[i].name)
  }

  lemma ReservedStays(seen: seq<Export>, x: Export, rest: Option<seq<Export>>)
    requires Reserved(x.name)
    ensures Then(seen + [x], rest).Some? ==> !NoneReserved(Then(seen + [x], rest).value)
  {
    if rest.Some? {
      var all := seen + [x] + rest.value;
      assert all[|seen|] == x;
    }
  }

  method ReadExports(exports: Reader) returns (ok: bool, count: nat, kept: seq<Byte>, ghost found: seq<Export>)
    requires exports.Valid()
    modifies exports
    ensures ok == (ExportVector(old(exports.Rest())).Some? && NoneReserved(ExportVector(old(exports.Rest())).value))
    ensures ok ==> U(32, old(exports.Rest())).Some? && Some(found) == ExportVector(old(exports.Rest())) && count == |found|
    ensures ok ==> kept == old(exports.Rest())[U(32, old(exports.Rest())).value.size..]
  {
    hide U, Exports, ExportAt, Reserved;
    found, kept := [], [];
    var read, exportCount := exports.ReadInteger(32);
    if !read {
      return false, 0, [], [];
    }
    ghost var body := exports.Rest();
    kept := exports.bytes[exports.at..exports.end];
    FromNothing(Exports(exportCount, body));
    for i := 0 to exportCount
      invariant exports.Valid() && |found| == i && NoneReserved(found)
      invariant Exports(exportCount, body) == Then(found, Exports(exportCount - i, exports.Rest()))
    {
      ghost var rest := exports.Rest();
      ExportsStep(found, exportCount - i, rest);
      read := exports.ReadExport();
      if !read {
        if ExportAt(rest).Some? {
          ReservedStays(found, ExportAt(rest).value.value, Exports(exportCount - i - 1, rest[ExportAt(rest).value.size..]));
        }
        return false, 0, [], [];
      }
      found := found + [ExportAt(rest).value.value];
    }
    NoMoreExports(exports.Rest());
    ThenNone(found);
    return exports.at == exports.end, exportCount, kept, found;
  }

  lemma NoMoreExports(s: seq<Byte>)
    ensures Exports(0, s) == if s == [] then Some([]) else None
  {
  }

  // ---- Writing ----

  method LebSize(value: nat) returns (size: nat)
    ensures size == |Leb(value)|
  {
    size := 1;
    var rest := value;
    while rest >= 128
      invariant size + |Leb(rest)| == 1 + |Leb(value)|
    {
      rest := rest / 128;
      size := size + 1;
    }
  }

  method WriteLeb(out: array<Byte>, cursor: nat, value: nat) returns (next: nat)
    requires cursor + |Leb(value)| <= out.Length
    modifies out
    ensures next == cursor + |Leb(value)|
    ensures out[..next] == old(out[..cursor]) + Leb(value)
  {
    next := cursor;
    var rest := value;
    ghost var written: seq<Byte> := [];
    var more := true;
    while more
      invariant more ==> Leb(value) == written + Leb(rest)
      invariant !more ==> Leb(value) == written
      invariant next == cursor + |written| <= out.Length
      invariant out[..next] == old(out[..cursor]) + written
      decreases more, rest
    {
      var low := rest % 128;
      ghost var now := rest;
      rest := rest / 128;
      out[next] := if rest > 0 then low + 128 else low;
      assert Leb(now) == if rest > 0 then [out[next]] + Leb(rest) else [out[next]];
      assert written + ([out[next]] + Leb(rest)) == (written + [out[next]]) + Leb(rest);
      written := written + [out[next]];
      assert out[..next + 1] == out[..next] + [out[next]];
      next := next + 1;
      more := rest > 0;
    }
  }

  method Copy(out: array<Byte>, cursor: nat, source: seq<Byte>) returns (next: nat)
    requires cursor + |source| <= out.Length
    modifies out
    ensures next == cursor + |source|
    ensures out[..next] == old(out[..cursor]) + source
  {
    for i := 0 to |source|
      invariant out[..cursor + i] == old(out[..cursor]) + source[..i]
    {
      out[cursor + i] := source[i];
      assert out[..cursor + i + 1] == out[..cursor + i] + [source[i]];
      assert source[..i + 1] == source[..i] + [source[i]];
    }
    assert source[..|source|] == source;
    next := cursor + |source|;
  }

  // ---- The size of the new section ----

  lemma {:induction false} EntriesGrow(added: seq<ImportExport>, i: nat, j: nat)
    requires i <= j <= |added|
    ensures |Entries(added[..i])| <= |Entries(added[..j])|
    ensures i < j ==> |Entries(added[..i])| + |CanonicalName(added[i].ordinal)| + 3 <= |Entries(added[..j])|
    decreases j - i
  {
    hide Leb, CanonicalName;
    if i < j {
      EntriesStep(added, j - 1);
      EntriesGrow(added, i, j - 1);
    }
  }

  lemma EntriesStep(added: seq<ImportExport>, i: nat)
    requires i < |added|
    ensures Entries(added[..i + 1]) == Entries(added[..i]) + Entry(added[i])
  {
    hide Entry;
    assert added[..i + 1][..i] == added[..i];
  }

  // The condition on the last added name covers the names before it.
  predicate RoomFor(added: seq<ImportExport>, i: int, count: nat, kept: seq<Byte>)
    requires i < |added|
  {
    i >= 0 ==> |Payload(count, kept, added[..i])| + |CanonicalName(added[i].ordinal)| + 12 <= UINT32_MAX
  }

  lemma NoRoomLater(added: seq<ImportExport>, i: nat, j: nat, count: nat, kept: seq<Byte>)
    requires i <= j < |added| && RoomFor(added, j, count, kept)
    ensures RoomFor(added, i, count, kept)
  {
    hide Leb, Decimal, Entries;
    if i < j {
      EntriesGrow(added, i, j);
    }
  }

  method Measure(functions: array<ImportExport>, added: nat, count: nat, kept: nat, ghost bytes: seq<Byte>)
    returns (ok: bool, payload: nat)
    requires added <= functions.Length && kept == |bytes|
    ensures ok == RoomFor(functions[..added], added - 1, count, bytes)
    ensures ok ==> payload == |Payload(count, bytes, functions[..added])|
  {
    hide Leb, Entries, RoomFor, CanonicalName;
    ghost var all := functions[..added];
    var size := LebSize(count);
    payload := size + kept;
    NothingAdded(all, count, bytes);
    for i := 0 to added
      invariant payload == |Payload(count, bytes, all[..i])|
      invariant RoomFor(all, i - 1, count, bytes)
    {
      var name := CanonicalName(functions[i].ordinal);
      RoomMeans(all, i, count, bytes);
      if payload > UINT32_MAX - |name| - 12 {
        if RoomFor(all, added - 1, count, bytes) {
          NoRoomLater(all, i, added - 1, count, bytes);
        }
        return false, 0;
      }
      var nameSize := LebSize(|name|);
      var indexSize := LebSize(functions[i].index);
      EntriesStep(all, i);
      payload := payload + nameSize + |name| + 1 + indexSize;
    }
    assert all[..added] == all;
    return true, payload;
  }

  lemma NothingAdded(added: seq<ImportExport>, count: nat, kept: seq<Byte>)
    ensures |Payload(count, kept, added[..0])| == |Leb(count)| + |kept|
    ensures RoomFor(added, -1, count, kept)
  {
    hide Leb;
    assert Entries(added[..0]) == [];
  }

  lemma RoomMeans(added: seq<ImportExport>, i: nat, count: nat, kept: seq<Byte>)
    requires i < |added|
    ensures RoomFor(added, i, count, kept) ==
            (|Payload(count, kept, added[..i])| + |CanonicalName(added[i].ordinal)| + 12 <= UINT32_MAX)
  {
    hide Payload, CanonicalName;
  }

  // ---- The transform ----

  method WriteEntries(out: array<Byte>, cursor: nat, functions: array<ImportExport>, added: nat) returns (next: nat)
    requires added <= functions.Length && cursor + |Entries(functions[..added])| <= out.Length
    modifies out
    ensures next == cursor + |Entries(functions[..added])|
    ensures out[..next] == old(out[..cursor]) + Entries(functions[..added])
  {
    hide Leb, Entries, CanonicalName;
    ghost var all := functions[..added];
    next := cursor;
    NoEntries(all);
    for i := 0 to added
      invariant next == cursor + |Entries(all[..i])| <= out.Length
      invariant out[..next] == old(out[..cursor]) + Entries(all[..i])
    {
      var name := CanonicalName(functions[i].ordinal);
      EntriesStep(all, i);
      EntriesGrow(all, i + 1, added);
      assert all[..added] == all;
      next := WriteEntry(out, next, name, functions[i].index);
    }
    assert all[..added] == all;
  }

  method WriteEntry(out: array<Byte>, cursor: nat, name: seq<Byte>, index: nat) returns (next: nat)
    requires cursor + |Leb(|name|)| + |name| + 1 + |Leb(index)| <= out.Length
    modifies out
    ensures next == cursor + |Leb(|name|)| + |name| + 1 + |Leb(index)|
    ensures out[..next] == old(out[..cursor]) + (Leb(|name|) + name + [0] + Leb(index))
  {
    hide Leb;
    next := WriteLeb(out, cursor, |name|);
    next := Copy(out, next, name);
    out[next] := 0;
    assert out[..next + 1] == out[..next] + [0];
    next := WriteLeb(out, next + 1, index);
  }

  lemma NoEntries(added: seq<ImportExport>)
    ensures Entries(added[..0]) == []
  {
  }

  // What the three passes over the module found.
  ghost predicate Parsed3(bytes: seq<Byte>, l: Layout, functions: seq<ImportExport>, count: nat, kept: seq<Byte>) {
    && Readable(bytes) && Laid(bytes, Module(bytes).value, l)
    && functions == Added(bytes)
    && count == |ExportsOf(Module(bytes).value).value|
    && kept == OldEntries(Module(bytes).value)
  }

  lemma SectionsRead(bytes: seq<Byte>, l: Layout, imports: seq<Import>, exports: seq<Export>, count: nat, kept: seq<Byte>)
    requires ScanOk(bytes) && Laid(bytes, Module(bytes).value, l)
    requires if l.hasImports then ImportVector(bytes[l.imports.0..l.imports.1]) == Some(imports) else imports == []
    requires if l.hasExports
             then ExportVector(bytes[l.exports.0..l.exports.1]) == Some(exports) && U(32, bytes[l.exports.0..l.exports.1]).Some?
                  && kept == bytes[l.exports.0..l.exports.1][U(32, bytes[l.exports.0..l.exports.1]).value.size..]
             else exports == [] && kept == []
    requires NoneReserved(exports) && count == |exports|
    ensures Parsed3(bytes, l, FunctionExports(imports), count, kept)
  {
    hide Module, ImportVector, ExportVector, U, FunctionExports, Find, Placed, Once, Reserved;
  }

  lemma BadImports(bytes: seq<Byte>, l: Layout)
    requires ScanOk(bytes) && Laid(bytes, Module(bytes).value, l)
    requires l.hasImports && ImportVector(bytes[l.imports.0..l.imports.1]).None?
    ensures !Accepts(bytes)
  {
    hide Module, ImportVector, Find, Placed, Once;
  }

  lemma BadExports(bytes: seq<Byte>, l: Layout)
    requires ScanOk(bytes) && Laid(bytes, Module(bytes).value, l)
    requires l.hasExports
    requires var v := ExportVector(bytes[l.exports.0..l.exports.1]); v.None? || !NoneReserved(v.value)
    ensures !Accepts(bytes)
  {
    hide Module, ExportVector, Find, Placed, Once, Reserved;
  }

  lemma FitsMeans(bytes: seq<Byte>, functions: seq<ImportExport>, count: nat, kept: seq<Byte>)
    requires Readable(bytes) && functions == Added(bytes) != []
    requires count == |ExportsOf(Module(bytes).value).value| && kept == OldEntries(Module(bytes).value)
    ensures Body(bytes) == Payload(count + |functions|, kept, functions)
    ensures Accepts(bytes) <==>
            && count + |functions| <= UINT32_MAX
            && RoomFor(functions, |functions| - 1, count + |functions|, kept)
            && |bytes| + |Body(bytes)| + 6 <= SIZE_MAX
  {
    hide Module, ExportsOf, Once, OldEntries, FunctionExports, ImportsOf, Payload, CanonicalName;
  }

  // The new section goes between the sections around its place.
  lemma LayoutBytes(bytes: seq<Byte>, l: Layout)
    requires ScanOk(bytes) && Laid(bytes, Module(bytes).value, l)
    ensures l.start <= l.end <= |bytes|
    ensures var sections, p := Module(bytes).value, Place(Module(bytes).value);
            bytes[..l.start] == Header + Raw(sections[..p.0]) && bytes[l.end..] == Raw(sections[p.1..])
  {
    hide Find, Raw, Place, Holds, Whole, Once;
    var sections := Module(bytes).value;
    var p := Place(sections);
    ModuleParts(bytes);
    hide Module;
    PlaceOfNothing(sections);
    SplitRaw(sections[..p.1], p.0);
    assert sections[..p.1][..p.0] == sections[..p.0];
    assert sections[..|sections|] == sections;
    assert l.start == |Header| + |Raw(sections[..p.0])| && l.end == |Header| + |Raw(sections[..p.1])|;
    hide Laid;
    BytesAt(bytes, sections, p.0);
    BytesAt(bytes, sections, p.1);
  }

  // Where section `k` starts.
  lemma BytesAt(bytes: seq<Byte>, sections: seq<Section>, k: nat)
    requires bytes == Header + Raw(sections) && k <= |sections|
    ensures var at := |Header| + |Raw(sections[..k])|;
            at <= |bytes| && bytes[..at] == Header + Raw(sections[..k]) && bytes[at..] == Raw(sections[k..])
  {
    hide Raw;
    SplitRaw(sections, k);
    assert bytes == (Header + Raw(sections[..k])) + Raw(sections[k..]);
  }

  lemma NoLimits(s: seq<Byte>)
    requires U(32, s).None? || U(32, s).value.value > 7
    ensures Limits(s).None?
  {
    hide U;
  }

  lemma LimitsAre(s: seq<Byte>, flags: Parsed<nat>)
    requires U(32, s) == Some(flags) && flags.value <= 7 && flags.size <= |s|
    ensures var bits := if flags.value / 4 % 2 == 1 then 64 else 32;
            var low := U(bits, s[flags.size..]);
            Limits(s) ==
            if low.None? then None
            else if flags.value % 2 == 0 then Some(flags.size + low.value.size)
            else
              var high := U(bits, s[flags.size..][low.value.size..]);
              if high.None? then None else Some(flags.size + low.value.size + high.value.size)
  {
    hide U;
    var bits := if flags.value / 4 % 2 == 1 then 64 else 32;
    var low := U(bits, s[flags.size..]);
    if low.Some? {
      Shifted(s, flags.size, low.value.size);
    }
  }

  lemma Shifted(s: seq<Byte>, i: nat, j: nat)
    requires i + j <= |s|
    ensures s[i..][j..] == s[i + j..]
  {
  }

  lemma SplitRaw(sections: seq<Section>, k: nat)
    requires k <= |sections|
    ensures Raw(sections) == Raw(sections[..k]) + Raw(sections[k..])
  {
    hide Raw;
    RawAppend(sections[..k], sections[k..]);
    assert sections[..k] + sections[k..] == sections;
  }

  // The bytes around the new section are the input's.
  lemma OutputBytes(bytes: seq<Byte>, l: Layout)
    requires Readable(bytes) && Laid(bytes, Module(bytes).value, l)
    ensures l.start <= l.end <= |bytes|
    ensures Output(bytes) == bytes[..l.start] + ([7] + Leb(|Body(bytes)|) + Body(bytes)) + bytes[l.end..]
  {
    hide Body, Find, Raw, Place, Laid, Leb, ExportsOf, ImportsOf, Module, Once;
    var sections := Module(bytes).value;
    var p := Place(sections);
    LayoutBytes(bytes, l);
    var added := NewSection(Body(bytes));
    RawAppend(sections[..p.0] + [added], sections[p.1..]);
    RawAppend(sections[..p.0], [added]);
    RawOne(added);
    assert Output(bytes) == Header + (Raw(sections[..p.0]) + added.raw + Raw(sections[p.1..]));
  }

  lemma PlaceOfNothing(sections: seq<Section>)
    ensures Find(sections, {7}) == |sections| && Find(sections, LATER) == |sections| ==> Place(sections) == (|sections|, |sections|)
    ensures Place(sections).0 <= Place(sections).1
  {
    hide Find;
  }

  lemma NotScanned(bytes: seq<Byte>)
    requires !ScanOk(bytes)
    ensures !Accepts(bytes)
  {
  }

  lemma LayoutIn(bytes: seq<Byte>, l: Layout)
    requires ScanOk(bytes) && Laid(bytes, Module(bytes).value, l)
    ensures l.hasImports ==> l.imports.0 <= l.imports.1 <= |bytes|
    ensures l.hasExports ==> l.exports.0 <= l.exports.1 <= |bytes|
  {
    hide Find, Placed, Module, Once;
  }

  method WritePayload(out: array<Byte>, cursor: nat, functions: array<ImportExport>, count: nat, exports: nat, kept: seq<Byte>)
    returns (next: nat)
    requires count <= functions.Length && cursor + |Payload(exports, kept, functions[..count])| <= out.Length
    modifies out
    ensures next == cursor + |Payload(exports, kept, functions[..count])|
    ensures out[..next] == old(out[..cursor]) + Payload(exports, kept, functions[..count])
  {
    hide Leb, Entries;
    next := WriteLeb(out, cursor, exports);
    next := Copy(out, next, kept);
    next := WriteEntries(out, next, functions, count);
  }

  method Write(bytes: seq<Byte>, l: Layout, functions: array<ImportExport>, count: nat, exports: nat, kept: seq<Byte>, payload: nat)
    returns (output: array<Byte>)
    requires count <= functions.Length && l.start <= l.end <= |bytes|
    requires payload == |Payload(exports, kept, functions[..count])|
    ensures output[..] == bytes[..l.start] + ([7] + Leb(payload) + Payload(exports, kept, functions[..count])) + bytes[l.end..]
    ensures fresh(output)
  {
    hide Leb, Entries, Payload;
    var payloadSize := LebSize(payload);
    var total := |bytes| - (l.end - l.start) + 1 + payloadSize + payload;
    output := new Byte[total];
    var cursor := Copy(output, 0, bytes[..l.start]);
    output[cursor] := 7;
    assert output[..cursor + 1] == output[..cursor] + [7];
    cursor := cursor + 1;
    cursor := WriteLeb(output, cursor, payload);
    cursor := WritePayload(output, cursor, functions, count, exports, kept);
    cursor := Copy(output, cursor, bytes[l.end..]);
    assert cursor == total;
    assert output[..] == output[..cursor];
  }

  // What the passes over a module find is enough to write the output.
  method Rewrite(bytes: seq<Byte>, l: Layout, functions: array<ImportExport>, count: nat, exportCount: nat, kept: seq<Byte>)
    returns (ok: bool, output: array?<Byte>, added: nat)
    requires |bytes| <= SIZE_MAX && count <= functions.Length
    requires Parsed3(bytes, l, functions[..count], exportCount, kept)
    ensures ok == Accepts(bytes)
    ensures output != null ==> ok && Added(bytes) != [] && output[..] == Output(bytes) && added == |Added(bytes)|
    ensures output == null ==> added == 0 && (ok ==> Added(bytes) == [])
  {
    hide Readable, Fits, Laid, Module, Body, Output, Leb, Entries, RoomFor, ExportsOf, OldEntries;
    ghost var all := functions[..count];
    output, added := null, 0;
    if count == 0 {
      return true, null, 0;
    }
    FitsMeans(bytes, all, exportCount, kept);
    if exportCount > UINT32_MAX - count {
      return false, null, 0;
    }
    var payload;
    ok, payload := Measure(functions, count, exportCount + count, |kept|, kept);
    if !ok || payload > UINT32_MAX || |bytes| > SIZE_MAX - payload - 6 {
      if payload > UINT32_MAX && Accepts(bytes) {
        BodyFits(bytes);
      }
      return false, null, 0;
    }
    OutputBytes(bytes, l);
    output := Write(bytes, l, functions, count, exportCount + count, kept, payload);
    return true, output, count;
  }

  /** Fails exactly on the modules outside the specification; leaves a module without
      function imports alone; otherwise builds the specified output in a buffer of
      exactly its size. */
  method Canonicalize(bytes: seq<Byte>) returns (ok: bool, output: array?<Byte>, added: nat)
    requires |bytes| <= SIZE_MAX
    ensures ok == Accepts(bytes)
    ensures output != null ==> ok && Added(bytes) != [] && output[..] == Output(bytes) && added == |Added(bytes)|
    ensures output == null ==> added == 0 && (ok ==> Added(bytes) == [])
  {
    hide Readable, Fits, Added, Laid, Module, ScanOk, Output, ImportVector, ExportVector, U, FunctionExports, NoneReserved, Parsed3;
    output, added := null, 0;
    var l;
    ok, l := Scan(bytes);
    if !ok {
      NotScanned(bytes);
      return;
    }
    LayoutIn(bytes, l);
    var functions, count: nat, exportCount: nat, kept: seq<Byte> := new ImportExport[0], 0, 0, [];
    ghost var imports: seq<Import>, exports: seq<Export> := [], [];
    if l.hasImports {
      var reader := new Reader(bytes, l.imports.0, l.imports.1);
      assert reader.Rest() == bytes[l.imports.0..l.imports.1];
      ok, functions, count, imports := ReadImports(reader);
      if !ok {
        BadImports(bytes, l);
        return;
      }
    }
    if l.hasExports {
      var reader := new Reader(bytes, l.exports.0, l.exports.1);
      assert reader.Rest() == bytes[l.exports.0..l.exports.1];
      ok, exportCount, kept, exports := ReadExports(reader);
      if !ok {
        BadExports(bytes, l);
        return;
      }
    }
    assert functions[..count] == FunctionExports(imports) by {
      FunctionExportsOfNothing();
    }
    NoneOfNone();
    SectionsRead(bytes, l, imports, exports, exportCount, kept);
    ok, output, added := Rewrite(bytes, l, functions, count, exportCount, kept);
  }

  lemma NoneOfNone()
    ensures NoneReserved([])
  {
  }
}
