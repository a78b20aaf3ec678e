/** The parts of the WebAssembly binary format that the canonical-import transform
    relies on (WebAssembly Core Specification 2.0, sections 5.2.2, 5.5.2, 5.5.5 and
    5.5.10), as decoding functions on byte sequences. */
module WasmBinary {
  import opened Bytes
  import opened Wrappers

  // A decoded value and the number of bytes it takes.
  datatype Parsed<+T> = Parsed(value: T, size: nat)

  // ---- 5.2.2: unsigned integers ----

  function Pow2(n: nat): (r: nat)
    ensures r >= 1
  {
    if n == 0 then 1 else 2 * Pow2(n - 1)
  }

  // uN: a last byte below 2^7 and 2^N, or a byte with its high bit set and a u(N-7).
  function U(bits: nat, s: seq<Byte>): (r: Option<Parsed<nat>>)
    ensures r.Some? ==> 1 <= r.value.size <= |s| && r.value.size <= (bits + 6) / 7 && r.value.value < Pow2(bits)
    decreases bits
  {
    if s == [] || bits == 0 then None
    else if s[0] < 128 then
      if s[0] < Pow2(bits) then Some(Parsed(s[0], 1)) else None
    else if bits > 7 then
      var m := U(bits - 7, s[1..]);
      if m.None? then None
      else
        Pow2Split(bits);
        Some(Parsed(128 * m.value.value + (s[0] - 128), m.value.size + 1))
    else None
  }

  lemma Pow2Split(bits: nat)
    requires bits >= 7
    ensures Pow2(bits) == 128 * Pow2(bits - 7)
  {
    assert Pow2(bits) == 2 * Pow2(bits - 1) == 4 * Pow2(bits - 2) == 8 * Pow2(bits - 3) == 16 * Pow2(bits - 4);
    assert Pow2(bits - 4) == 2 * Pow2(bits - 5) == 4 * Pow2(bits - 6) == 8 * Pow2(bits - 7);
  }

  lemma Pow2Small(bits: nat)
    ensures bits <= 7 ==> Pow2(bits) <= 128
  {
    Pow2Split(7);
    if bits <= 7 {
      Pow2Mono(bits, 7);
    }
  }

  lemma Pow2Is32()
    ensures Pow2(32) == 0x1_0000_0000
  {
    Pow2Split(32); Pow2Split(25); Pow2Split(18); Pow2Split(11);
  }

  // The shortest encoding.
  function Leb(v: nat): (r: seq<Byte>)
    ensures |r| >= 1
  {
    if v < 128 then [v] else [v % 128 + 128] + Leb(v / 128)
  }

  // What follows an encoding does not matter.
  lemma {:induction false} UPrefix(bits: nat, s: seq<Byte>, t: seq<Byte>)
    requires U(bits, s).Some?
    ensures U(bits, s + t) == U(bits, s)
    decreases bits
  {
    if s[0] >= 128 {
      assert (s + t)[1..] == s[1..] + t;
      UPrefix(bits - 7, s[1..], t);
    }
  }

  lemma {:induction false} LebRoundTrip(bits: nat, v: nat, t: seq<Byte>)
    requires bits >= 1 && v < Pow2(bits)
    ensures U(bits, Leb(v) + t) == Some(Parsed(v, |Leb(v)|))
    decreases v
  {
    var s := Leb(v) + t;
    if v < 128 {
      assert s[0] == v;
    } else {
      Pow2Small(bits);
      Pow2Split(bits);
      assert s[1..] == Leb(v / 128) + t;
      LebRoundTrip(bits - 7, v / 128, t);
    }
  }

  lemma {:induction false} Pow2Mono(a: nat, b: nat)
    requires a <= b
    ensures Pow2(a) <= Pow2(b)
    decreases b - a
  {
    if a < b {
      Pow2Mono(a + 1, b);
    }
  }

  // ---- 5.2.4, 5.3: names, value types, limits ----

  function Name(s: seq<Byte>): (r: Option<Parsed<seq<Byte>>>)
    ensures r.Some? ==> 1 <= r.value.size <= |s|
  {
    var n := U(32, s);
    if n.None? || n.value.value > |s| - n.value.size then None
    else Some(Parsed(s[n.value.size..n.value.size + n.value.value], n.value.size + n.value.value))
  }

  // A signed heap type index of at most `k` bytes.
  function HeapType(k: nat, s: seq<Byte>): (r: Option<nat>)
    ensures r.Some? ==> 1 <= r.value <= |s|
  {
    if k == 0 || s == [] then None
    else if s[0] < 128 then Some(1)
    else
      var m := HeapType(k - 1, s[1..]);
      if m.None? then None else Some(m.value + 1)
  }

  function ValueType(s: seq<Byte>): (r: Option<nat>)
    ensures r.Some? ==> 1 <= r.value <= |s|
  {
    if s == [] then None
    else if s[0] == 0x63 || s[0] == 0x64 then
      var m := HeapType(5, s[1..]);
      if m.None? then None else Some(m.value + 1)
    else if 0x66 <= s[0] <= 0x7f then Some(1)
    else None
  }

  function Limits(s: seq<Byte>): (r: Option<nat>)
    ensures r.Some? ==> 2 <= r.value <= |s|
  {
    var flags := U(32, s);
    if flags.None? || flags.value.value > 7 then None
    else
      var bits := if flags.value.value / 4 % 2 == 1 then 64 else 32;
      var low := U(bits, s[flags.value.size..]);
      if low.None? then None
      else if flags.value.value % 2 == 0 then Some(flags.value.size + low.value.size)
      else
        var high := U(bits, s[flags.value.size + low.value.size..]);
        if high.None? then None else Some(flags.value.size + low.value.size + high.value.size)
  }

  // ---- 5.5.5: imports ----

  datatype Import = Import(space: seq<Byte>, name: seq<Byte>, kind: Byte) {
    predicate IsFunction() { kind == 0 }
  }

  // The description after the kind byte: its size.
  function Description(kind: Byte, s: seq<Byte>): (r: Option<nat>)
    ensures r.Some? ==> 1 <= r.value <= |s|
  {
    match kind
    case 0 => (var t := U(32, s); if t.None? then None else Some(t.value.size))
    case 1 =>
      var t := ValueType(s);
      if t.None? then None
      else (var l := Limits(s[t.value..]); if l.None? then None else Some(t.value + l.value))
    case 2 => Limits(s)
    case 3 =>
      var t := ValueType(s);
      if t.None? || t.value == |s| || s[t.value] > 1 then None else Some(t.value + 1)
    case 4 =>
      if s == [] || s[0] != 0 then None
      else (var t := U(32, s[1..]); if t.None? then None else Some(1 + t.value.size))
    case _ => None
  }

  function ImportAt(s: seq<Byte>): (r: Option<Parsed<Import>>)
    ensures r.Some? ==> 4 <= r.value.size <= |s|
  {
    var m := Name(s);
    if m.None? then None
    else
      var n := Name(s[m.value.size..]);
      if n.None? || m.value.size + n.value.size == |s| then None
      else
        var k := m.value.size + n.value.size;
        var d := Description(s[k], s[k + 1..]);
        if d.None? then None else Some(Parsed(Import(m.value.value, n.value.value, s[k]), k + 1 + d.value))
  }

  // `n` imports and nothing else.
  function Imports(n: nat, s: seq<Byte>): (r: Option<seq<Import>>)
    ensures r.Some? ==> |r.value| == n
  {
    if n == 0 then if s == [] then Some([]) else None
    else
      var first := ImportAt(s);
      if first.None? then None
      else
        var rest := Imports(n - 1, s[first.value.size..]);
        if rest.None? then None else Some([first.value.value] + rest.value)
  }

  // ---- 5.5.10: exports ----

  datatype Export = Export(name: seq<Byte>, kind: Byte, index: nat)

  function ExportAt(s: seq<Byte>): (r: Option<Parsed<Export>>)
    ensures r.Some? ==> 3 <= r.value.size <= |s|
  {
    var n := Name(s);
    if n.None? || n.value.size == |s| || s[n.value.size] > 4 then None
    else
      var i := U(32, s[n.value.size + 1..]);
      if i.None? then None
      else Some(Parsed(Export(n.value.value, s[n.value.size], i.value.value), n.value.size + 1 + i.value.size))
  }

  function Exports(n: nat, s: seq<Byte>): (r: Option<seq<Export>>)
    ensures r.Some? ==> |r.value| == n
  {
    if n == 0 then if s == [] then Some([]) else None
    else
      var first := ExportAt(s);
      if first.None? then None
      else
        var rest := Exports(n - 1, s[first.value.size..]);
        if rest.None? then None else Some([first.value.value] + rest.value)
  }

  // A vector: its count, then the entries.
  function ImportVector(s: seq<Byte>): Option<seq<Import>> {
    var n := U(32, s);
    if n.None? then None else Imports(n.value.value, s[n.value.size..])
  }

  function ExportVector(s: seq<Byte>): Option<seq<Export>> {
    var n := U(32, s);
    if n.None? then None else Exports(n.value.value, s[n.value.size..])
  }

  // ---- 5.5.2: sections ----

  // `raw` is the whole section, `body` its contents.
  datatype Section = Section(kind: Byte, raw: seq<Byte>, body: seq<Byte>)

  function SectionAt(s: seq<Byte>): (r: Option<Section>)
    ensures r.Some? ==> 2 <= |r.value.raw| <= |s| && r.value.raw == s[..|r.value.raw|]
  {
    if s == [] then None
    else
      var n := U(32, s[1..]);
      if n.None? || n.value.value > |s| - 1 - n.value.size then None
      else
        var at := 1 + n.value.size;
        Some(Section(s[0], s[..at + n.value.value], s[at..at + n.value.value]))
  }

  function Sections(s: seq<Byte>): (r: Option<seq<Section>>) {
    if s == [] then Some([])
    else
      var first := SectionAt(s);
      if first.None? then None
      else
        var rest := Sections(s[|first.value.raw|..]);
        if rest.None? then None else Some([first.value] + rest.value)
  }

  const Header: seq<Byte> := [0, 97, 115, 109, 1, 0, 0, 0]

  function Module(bytes: seq<Byte>): Option<seq<Section>> {
    if |bytes| < 8 || bytes[..8] != Header then None else Sections(bytes[8..])
  }

  function Raw(sections: seq<Section>): seq<Byte> {
    if sections == [] then [] else sections[0].raw + Raw(sections[1..])
  }

  // ---- Decoding what was put together ----

  // What comes before a list that is still to be decoded.
  function Then<T>(seen: seq<T>, rest: Option<seq<T>>): Option<seq<T>> {
    if rest.None? then None else Some(seen + rest.value)
  }

  lemma ThenThen<T>(a: seq<T>, b: seq<T>, rest: Option<seq<T>>)
    ensures Then(a, Then(b, rest)) == Then(a + b, rest)
  {
    if rest.Some? {
      assert a + (b + rest.value) == (a + b) + rest.value;
    }
  }

  lemma NamePrefix(s: seq<Byte>, t: seq<Byte>)
    requires Name(s).Some?
    ensures Name(s + t) == Name(s)
  {
    hide U;
    UPrefix(32, s, t);
    var n := U(32, s).value;
    assert (s + t)[n.size..n.size + n.value] == s[n.size..n.size + n.value];
  }

  lemma ExportPrefix(s: seq<Byte>, t: seq<Byte>)
    requires ExportAt(s).Some?
    ensures ExportAt(s + t) == ExportAt(s)
  {
    hide U, Name;
    NamePrefix(s, t);
    var n := Name(s).value;
    assert (s + t)[n.size] == s[n.size];
    assert (s + t)[n.size + 1..] == s[n.size + 1..] + t;
    UPrefix(32, s[n.size + 1..], t);
  }

  // Vectors of exports decode piece by piece.
  lemma {:induction false} ExportsAppend(n: nat, s: seq<Byte>, m: nat, t: seq<Byte>)
    requires Exports(n, s).Some?
    ensures Exports(n + m, s + t) == Then(Exports(n, s).value, Exports(m, t))
    decreases n
  {
    hide ExportAt, U, Name;
    if n == 0 {
      assert s + t == t;
      assert Exports(m, t).Some? ==> [] + Exports(m, t).value == Exports(m, t).value;
    } else {
      var first := ExportAt(s).value;
      ExportPrefix(s, t);
      assert (s + t)[first.size..] == s[first.size..] + t;
      ExportsAppend(n - 1, s[first.size..], m, t);
      ThenThen([first.value], Exports(n - 1, s[first.size..]).value, Exports(m, t));
    }
  }

  lemma SectionPrefix(s: seq<Byte>, t: seq<Byte>)
    requires SectionAt(s).Some?
    ensures SectionAt(s + t) == SectionAt(s)
  {
    hide U;
    assert (s + t)[1..] == s[1..] + t;
    UPrefix(32, s[1..], t);
    var n := U(32, s[1..]).value;
    var at := 1 + n.size;
    assert (s + t)[..at + n.value] == s[..at + n.value];
    assert (s + t)[at..at + n.value] == s[at..at + n.value];
  }

  lemma {:induction false} SectionsAppend(s: seq<Byte>, t: seq<Byte>)
    requires Sections(s).Some?
    ensures Sections(s + t) == Then(Sections(s).value, Sections(t))
    decreases |s|
  {
    hide SectionAt, U;
    if s == [] {
      assert s + t == t;
      assert Sections(t).Some? ==> [] + Sections(t).value == Sections(t).value;
    } else {
      var first := SectionAt(s).value;
      SectionPrefix(s, t);
      assert (s + t)[|first.raw|..] == s[|first.raw|..] + t;
      SectionsAppend(s[|first.raw|..], t);
      ThenThen([first], Sections(s[|first.raw|..]).value, Sections(t));
    }
  }

  lemma {:induction false} RawAppend(a: seq<Section>, b: seq<Section>)
    ensures Raw(a + b) == Raw(a) + Raw(b)
  {
    if a == [] {
      assert a + b == b;
    } else {
      assert (a + b)[1..] == a[1..] + b;
      RawAppend(a[1..], b);
    }
  }

  // A section that decodes on its own is a list of one.
  lemma SectionAlone(raw: seq<Byte>)
    requires SectionAt(raw).Some? && SectionAt(raw).value.raw == raw
    ensures Sections(raw) == Some([SectionAt(raw).value])
  {
    hide SectionAt, U;
    var first := SectionAt(raw).value;
    assert raw[|first.raw|..] == [];
    assert Sections([]) == Some([]);
    assert [first] + [] == [first];
  }

  lemma {:induction false} UShort(bits: nat, s: seq<Byte>, k: nat)
    requires U(bits, s).Some? && U(bits, s).value.size <= k <= |s|
    ensures U(bits, s[..k]) == U(bits, s)
    decreases bits
  {
    if s[0] >= 128 {
      assert s[..k][1..] == s[1..][..k - 1];
      UShort(bits - 7, s[1..], k - 1);
    }
  }

  // A decoded section decodes again from its own bytes alone.
  lemma SectionAgain(s: seq<Byte>)
    requires SectionAt(s).Some?
    ensures SectionAt(SectionAt(s).value.raw) == SectionAt(s)
  {
    hide U;
    var first := SectionAt(s).value;
    var n := U(32, s[1..]).value;
    var at := 1 + n.size;
    assert first.raw == s[..at + n.value];
    assert first.raw[1..] == s[1..][..n.size + n.value];
    UShort(32, s[1..], n.size + n.value);
    assert first.raw[at..at + n.value] == s[at..at + n.value];
    assert first.raw[..at + n.value] == first.raw;
  }

  lemma SectionsOfNothing()
    ensures Sections([]) == Some([])
  {
  }

  // Sections that each decode from their own bytes decode from their concatenation.
  predicate Whole(section: Section) { SectionAt(section.raw) == Some(section) }

  lemma {:induction false} SectionsOfRaw(sections: seq<Section>)
    requires forall i :: 0 <= i < |sections| ==> Whole(sections[i])
    ensures Sections(Raw(sections)) == Some(sections)
  {
    hide SectionAt, U, Sections;
    if sections == [] {
      SectionsOfNothing();
    } else {
      SectionAlone(sections[0].raw);
      SectionsOfRaw(sections[1..]);
      SectionsAppend(sections[0].raw, Raw(sections[1..]));
      assert sections == [sections[0]] + sections[1..];
    }
  }

  // A module is the concatenation of its sections, and each decodes on its own.
  lemma {:induction false} SectionsAreRaw(s: seq<Byte>)
    requires Sections(s).Some?
    ensures Raw(Sections(s).value) == s
    ensures forall i :: 0 <= i < |Sections(s).value| ==> Whole(Sections(s).value[i])
    decreases |s|
  {
    hide SectionAt, U;
    if s != [] {
      var first := SectionAt(s).value;
      var rest := s[|first.raw|..];
      SectionsAreRaw(rest);
      SectionAgain(s);
      assert Sections(s).value == [first] + Sections(rest).value;
      assert Sections(s).value[1..] == Sections(rest).value;
      assert first.raw + rest == s;
    }
  }
}
