/** The grammar of what the canonical-import transform reads (WebAssembly Core Specification 2.0,
    sections 5.2.2, 5.2.4, 5.3, 5.5.2, 5.5.5, 5.5.10 and 5.5.16, with the proposals that WasmEncoding
    names), and that the decoding functions accept exactly the words of that grammar. An integer
    may be written with more bytes than it needs, as long as the width has bits for them. */
module WasmGrammar {
  import opened Bytes
  import opened Wrappers
  import opened WasmBinary
  import opened WasmEncoding

  // ---- Integers ----

  predicate IsInteger(bits: nat, e: seq<Byte>) {
    && e != [] && e[|e| - 1] < 128 && (forall i :: 0 <= i < |e| - 1 ==> e[i] >= 128)
    && 7 * (|e| - 1) < bits && e[|e| - 1] < Pow2(bits - 7 * (|e| - 1))
  }

  // Seven bits of each byte, the least significant first.
  function Number(e: seq<Byte>): nat {
    if e == [] then 0 else e[0] % 128 + 128 * Number(e[1..])
  }

  lemma {:induction false} IntegerRead(bits: nat, s: seq<Byte>)
    requires U(bits, s).Some?
    ensures var r := U(bits, s).value; IsInteger(bits, s[..r.size]) && r.value == Number(s[..r.size])
    decreases bits
  {
    hide Pow2;
    var r := U(bits, s).value;
    var e := s[..r.size];
    if s[0] >= 128 {
      IntegerRead(bits - 7, s[1..]);
      assert e[1..] == s[1..][..r.size - 1];
      assert forall i :: 0 < i < |e| ==> e[i] == e[1..][i - 1];
    } else {
      assert e[1..] == [];
    }
  }

  lemma {:induction false} IntegerAccepted(bits: nat, s: seq<Byte>, n: nat)
    requires n <= |s| && IsInteger(bits, s[..n])
    ensures U(bits, s) == Some(Parsed(Number(s[..n]), n))
    decreases n
  {
    hide Pow2;
    var e := s[..n];
    assert e[0] == s[0];
    if n == 1 {
      assert e[1..] == [];
    } else {
      assert s[1..][..n - 1] == e[1..];
      assert e[1..][|e| - 2] == e[|e| - 1];
      IntegerAccepted(bits - 7, s[1..], n - 1);
    }
  }

  /** An integer is read exactly where one of that width is written, with its value. */
  lemma IntegerIs(bits: nat, s: seq<Byte>, v: nat, n: nat)
    ensures U(bits, s) == Some(Parsed(v, n)) <==> n <= |s| && IsInteger(bits, s[..n]) && v == Number(s[..n])
  {
    hide U, IsInteger, Number;
    if U(bits, s).Some? {
      IntegerRead(bits, s);
    }
    if n <= |s| && IsInteger(bits, s[..n]) {
      IntegerAccepted(bits, s, n);
    }
  }

  // ---- Names, value types, limits ----

  ghost predicate IsName(name: seq<Byte>, e: seq<Byte>) {
    exists a :: 0 <= a <= |e| && IsInteger(32, e[..a]) && Number(e[..a]) == |name| && e[a..] == name
  }

  lemma NameIs(s: seq<Byte>, name: seq<Byte>, n: nat)
    ensures Name(s) == Some(Parsed(name, n)) <==> n <= |s| && IsName(name, s[..n])
  {
    hide U, IsInteger, Number;
    if Name(s) == Some(Parsed(name, n)) {
      var r := U(32, s).value;
      IntegerRead(32, s);
      assert s[..n][..r.size] == s[..r.size] && s[..n][r.size..] == name;
    }
    if n <= |s| && IsName(name, s[..n]) {
      var e := s[..n];
      var a :| 0 <= a <= |e| && IsInteger(32, e[..a]) && Number(e[..a]) == |name| && e[a..] == name;
      assert e[..a] == s[..a];
      IntegerAccepted(32, s, a);
      assert s[a..n] == e[a..];
    }
  }

  // One byte, or a reference with a heap type of one to five bytes.
  predicate IsValueType(e: seq<Byte>) {
    || (|e| == 1 && 0x66 <= e[0] <= 0x7f)
    || (&& 2 <= |e| <= 6 && (e[0] == 0x63 || e[0] == 0x64) && e[|e| - 1] < 128 && forall i :: 1 <= i < |e| - 1 ==> e[i] >= 128)
  }

  lemma {:induction false} HeapTypeIs(k: nat, s: seq<Byte>, n: nat)
    ensures HeapType(k, s) == Some(n) <==>
              1 <= n <= k && n <= |s| && s[n - 1] < 128 && forall i :: 0 <= i < n - 1 ==> s[i] >= 128
    decreases k
  {
    if k > 0 && s != [] && s[0] >= 128 && n > 0 {
      HeapTypeIs(k - 1, s[1..], n - 1);
      assert forall i :: 0 < i < |s| ==> s[i] == s[1..][i - 1];
    }
  }

  lemma ValueTypeIs(s: seq<Byte>, n: nat)
    ensures ValueType(s) == Some(n) <==> n <= |s| && IsValueType(s[..n])
  {
    hide HeapType;
    if s != [] && n > 0 {
      HeapTypeIs(5, s[1..], n - 1);
      assert n <= |s| ==> forall i :: 0 <= i < n ==> s[..n][i] == s[i];
      assert forall i :: 0 < i < |s| ==> s[i] == s[1..][i - 1];
    }
  }

  // Flags, a minimum and, if the flags are odd, a maximum; of 64 bits if the flags are 4 or more.
  ghost predicate IsLimits(e: seq<Byte>) {
    exists a, b :: 0 <= a <= b <= |e| && IsInteger(32, e[..a]) && Number(e[..a]) <= 7 && LimitsAfter(Number(e[..a]), e[a..b], e[b..])
  }

  predicate LimitsAfter(flags: nat, least: seq<Byte>, most: seq<Byte>) {
    && IsInteger(if flags >= 4 then 64 else 32, least)
    && if flags in {1, 3, 5, 7} then IsInteger(if flags >= 4 then 64 else 32, most) else most == []
  }

  lemma LimitsRead(s: seq<Byte>)
    requires Limits(s).Some?
    ensures IsLimits(s[..Limits(s).value])
  {
    hide U, IsInteger, Number;
    var flags := U(32, s).value;
    FlagBits(flags.value);
    var bits := if flags.value >= 4 then 64 else 32;
    var a, n := flags.size, Limits(s).value;
    var b := a + U(bits, s[a..]).value.size;
    IntegerRead(32, s);
    IntegerRead(bits, s[a..]);
    if b < n {
      IntegerRead(bits, s[b..]);
    }
    LimitsParts(s, a, b, n);
    hide Limits;
    assert LimitsAfter(Number(s[..a]), s[a..b], s[b..n]);
    assert 0 <= a <= b <= |s[..n]| && IsInteger(32, s[..n][..a]);
  }

  lemma LimitsParts(s: seq<Byte>, a: nat, b: nat, n: nat)
    requires a <= b <= n <= |s|
    ensures s[..n][..a] == s[..a] && s[..n][a..b] == s[a..b] && s[..n][b..] == s[b..n]
    ensures s[a..][..b - a] == s[a..b] && s[b..][..n - b] == s[b..n]
  {
  }

  lemma LimitsAccepted(s: seq<Byte>, n: nat, a: nat, b: nat)
    requires a <= b <= n <= |s| && IsInteger(32, s[..a]) && Number(s[..a]) <= 7 && LimitsAfter(Number(s[..a]), s[a..b], s[b..n])
    ensures Limits(s) == Some(n)
  {
    hide U, IsInteger, Number;
    var flags := Number(s[..a]);
    var bits := if flags >= 4 then 64 else 32;
    FlagBits(flags);
    IntegerAccepted(32, s, a);
    assert s[a..][..b - a] == s[a..b];
    IntegerAccepted(bits, s[a..], b - a);
    if flags in {1, 3, 5, 7} {
      assert s[b..][..n - b] == s[b..n];
      IntegerAccepted(bits, s[b..], n - b);
    }
  }

  lemma FlagBits(flags: nat)
    requires flags <= 7
    ensures flags / 4 % 2 == (if flags >= 4 then 1 else 0) && (flags % 2 == 1 <==> flags in {1, 3, 5, 7})
  {
  }

  lemma LimitsIs(s: seq<Byte>, n: nat)
    ensures Limits(s) == Some(n) <==> n <= |s| && IsLimits(s[..n])
  {
    hide Limits, IsInteger, Number, LimitsAfter;
    if Limits(s).Some? {
      LimitsRead(s);
    }
    if n <= |s| && IsLimits(s[..n]) {
      var e := s[..n];
      var a, b :| 0 <= a <= b <= |e| && IsInteger(32, e[..a]) && Number(e[..a]) <= 7 && LimitsAfter(Number(e[..a]), e[a..b], e[b..]);
      assert e[..a] == s[..a] && e[a..b] == s[a..b] && e[b..] == s[b..n];
      LimitsAccepted(s, n, a, b);
    }
  }

  // ---- Imports ----

  // Function, table, memory, global, tag.
  ghost predicate IsDescription(kind: Byte, e: seq<Byte>) {
    || (kind == 0 && IsInteger(32, e))
    || (kind == 1 && exists a :: 0 <= a <= |e| && IsValueType(e[..a]) && IsLimits(e[a..]))
    || (kind == 2 && IsLimits(e))
    || (kind == 3 && e != [] && IsValueType(e[..|e| - 1]) && e[|e| - 1] <= 1)
    || (kind == 4 && e != [] && e[0] == 0 && IsInteger(32, e[1..]))
  }

  lemma DescriptionIs(kind: Byte, s: seq<Byte>, n: nat)
    ensures Description(kind, s) == Some(n) <==> n <= |s| && IsDescription(kind, s[..n])
  {
    hide U, IsInteger, Number, IsValueType, IsLimits, ValueType, Limits;
    match kind
    case 0 => PlainIs(s, n);
    case 1 => TableIs(s, n);
    case 2 => LimitsIs(s, n);
    case 3 => GlobalIs(s, n);
    case 4 => TagIs(s, n);
    case _ =>
  }

  lemma PlainIs(s: seq<Byte>, n: nat)
    ensures U(32, s).Some? && U(32, s).value.size == n <==> n <= |s| && IsInteger(32, s[..n])
  {
    hide U, IsInteger, Number;
    IntegerIs(32, s, if U(32, s).Some? then U(32, s).value.value else 0, n);
    if n <= |s| {
      IntegerIs(32, s, Number(s[..n]), n);
    }
  }

  lemma TableIs(s: seq<Byte>, n: nat)
    ensures Description(1, s) == Some(n) <==> n <= |s| && exists a :: 0 <= a <= |s[..n]| && IsValueType(s[..n][..a]) && IsLimits(s[..n][a..])
  {
    hide IsValueType, IsLimits, ValueType, Limits;
    if Description(1, s) == Some(n) {
      var a := ValueType(s).value;
      ValueTypeIs(s, a);
      LimitsIs(s[a..], n - a);
      assert s[..n][..a] == s[..a] && s[..n][a..] == s[a..][..n - a];
    }
    if n <= |s| {
      var e := s[..n];
      if a :| 0 <= a <= |e| && IsValueType(e[..a]) && IsLimits(e[a..]) {
        assert e[..a] == s[..a] && e[a..] == s[a..][..n - a];
        ValueTypeIs(s, a);
        LimitsIs(s[a..], n - a);
      }
    }
  }

  lemma GlobalIs(s: seq<Byte>, n: nat)
    ensures Description(3, s) == Some(n) <==> 0 < n <= |s| && IsValueType(s[..n][..n - 1]) && s[n - 1] <= 1
  {
    hide IsValueType, ValueType;
    if n > 0 {
      ValueTypeIs(s, n - 1);
      assert n <= |s| ==> s[..n][..n - 1] == s[..n - 1];
    }
  }

  lemma TagIs(s: seq<Byte>, n: nat)
    ensures Description(4, s) == Some(n) <==> 0 < n <= |s| && s[0] == 0 && IsInteger(32, s[..n][1..])
  {
    hide U, IsInteger;
    if s != [] && n > 0 {
      PlainIs(s[1..], n - 1);
      assert n <= |s| ==> s[..n][1..] == s[1..][..n - 1];
    }
  }

  // Two names, the kind byte, the description.
  ghost predicate IsImport(x: Import, e: seq<Byte>) {
    exists a, b :: 0 <= a <= b < |e| && IsName(x.space, e[..a]) && IsName(x.name, e[a..b]) && x.kind == e[b] && IsDescription(x.kind, e[b + 1..])
  }

  lemma ImportRead(s: seq<Byte>)
    requires ImportAt(s).Some?
    ensures IsImport(ImportAt(s).value.value, s[..ImportAt(s).value.size])
  {
    hide Name, Description, IsName, IsDescription;
    var r := ImportAt(s).value;
    var e, space := s[..r.size], Name(s).value;
    var name := Name(s[space.size..]).value;
    var a, b := space.size, space.size + name.size;
    NameIs(s, space.value, a);
    NameIs(s[a..], name.value, name.size);
    DescriptionIs(s[b], s[b + 1..], r.size - b - 1);
    assert e[..a] == s[..a] && e[a..b] == s[a..][..name.size] && e[b + 1..] == s[b + 1..][..r.size - b - 1];
  }

  lemma ImportAccepted(s: seq<Byte>, x: Import, n: nat, a: nat, b: nat)
    requires a <= b < n <= |s| && IsName(x.space, s[..a]) && IsName(x.name, s[a..b]) && x.kind == s[b] && IsDescription(x.kind, s[b + 1..n])
    ensures ImportAt(s) == Some(Parsed(x, n))
  {
    hide Name, Description, IsName, IsDescription;
    assert s[a..][..b - a] == s[a..b] && s[b + 1..][..n - b - 1] == s[b + 1..n];
    NameIs(s, x.space, a);
    NameIs(s[a..], x.name, b - a);
    DescriptionIs(s[b], s[b + 1..], n - b - 1);
  }

  lemma ImportIs(s: seq<Byte>, x: Import, n: nat)
    ensures ImportAt(s) == Some(Parsed(x, n)) <==> n <= |s| && IsImport(x, s[..n])
  {
    hide ImportAt, IsName, IsDescription;
    if ImportAt(s).Some? {
      ImportRead(s);
    }
    if n <= |s| && IsImport(x, s[..n]) {
      var e := s[..n];
      var a, b :| 0 <= a <= b < |e| && IsName(x.space, e[..a]) && IsName(x.name, e[a..b]) && x.kind == e[b] && IsDescription(x.kind, e[b + 1..]);
      assert e[..a] == s[..a] && e[a..b] == s[a..b] && e[b + 1..] == s[b + 1..n];
      ImportAccepted(s, x, n, a, b);
    }
  }

  // These imports one after the other, and nothing else.
  ghost predicate AreImports(xs: seq<Import>, e: seq<Byte>) {
    if xs == [] then e == [] else exists a :: 0 <= a <= |e| && IsImport(xs[0], e[..a]) && AreImports(xs[1..], e[a..])
  }

  lemma {:induction false} ImportsRead(n: nat, s: seq<Byte>)
    requires Imports(n, s).Some?
    ensures AreImports(Imports(n, s).value, s)
  {
    hide ImportAt, IsImport;
    if n > 0 {
      var first := ImportAt(s).value;
      ImportIs(s, first.value, first.size);
      ImportsRead(n - 1, s[first.size..]);
      assert Imports(n, s).value[1..] == Imports(n - 1, s[first.size..]).value;
    }
  }

  lemma {:induction false} ImportsAccepted(xs: seq<Import>, s: seq<Byte>)
    requires AreImports(xs, s)
    ensures Imports(|xs|, s) == Some(xs)
  {
    hide ImportAt, IsImport;
    if xs != [] {
      var a :| 0 <= a <= |s| && IsImport(xs[0], s[..a]) && AreImports(xs[1..], s[a..]);
      ImportIs(s, xs[0], a);
      ImportsAccepted(xs[1..], s[a..]);
      assert [xs[0]] + xs[1..] == xs;
    }
  }

  /** A vector of imports is read exactly where one is written: its length, then its imports. */
  lemma ImportVectorIs(s: seq<Byte>, xs: seq<Import>)
    ensures ImportVector(s) == Some(xs) <==>
              exists a :: 0 <= a <= |s| && IsInteger(32, s[..a]) && Number(s[..a]) == |xs| && AreImports(xs, s[a..])
  {
    hide U, IsInteger, Number, AreImports, Imports;
    if ImportVector(s) == Some(xs) {
      IntegerRead(32, s);
      ImportsRead(|xs|, s[U(32, s).value.size..]);
    }
    if a :| 0 <= a <= |s| && IsInteger(32, s[..a]) && Number(s[..a]) == |xs| && AreImports(xs, s[a..]) {
      IntegerAccepted(32, s, a);
      ImportsAccepted(xs, s[a..]);
    }
  }

  // ---- Exports ----

  // A name, the kind byte, the index.
  ghost predicate IsExport(x: Export, e: seq<Byte>) {
    exists a :: 0 <= a < |e| && IsName(x.name, e[..a]) && x.kind == e[a] <= 4 && IsInteger(32, e[a + 1..]) && x.index == Number(e[a + 1..])
  }

  lemma ExportRead(s: seq<Byte>)
    requires ExportAt(s).Some?
    ensures IsExport(ExportAt(s).value.value, s[..ExportAt(s).value.size])
  {
    hide U, Name, IsName, IsInteger, Number;
    var x, n, a := ExportAt(s).value.value, ExportAt(s).value.size, Name(s).value.size;
    NameIs(s, x.name, a);
    IntegerRead(32, s[a + 1..]);
    assert s[..n][..a] == s[..a] && s[..n][a + 1..] == s[a + 1..][..n - a - 1];
  }

  lemma ExportAccepted(s: seq<Byte>, x: Export, n: nat, a: nat)
    requires a < n <= |s| && IsName(x.name, s[..a]) && x.kind == s[a] <= 4
    requires IsInteger(32, s[a + 1..][..n - a - 1]) && x.index == Number(s[a + 1..][..n - a - 1])
    ensures ExportAt(s) == Some(Parsed(x, n))
  {
    hide U, Name, IsName, IsInteger, Number;
    NameIs(s, x.name, a);
    IntegerAccepted(32, s[a + 1..], n - a - 1);
  }

  lemma ExportIs(s: seq<Byte>, x: Export, n: nat)
    ensures ExportAt(s) == Some(Parsed(x, n)) <==> n <= |s| && IsExport(x, s[..n])
  {
    hide ExportAt, IsName, IsInteger, Number;
    if ExportAt(s).Some? {
      ExportRead(s);
    }
    if n <= |s| && IsExport(x, s[..n]) {
      var e := s[..n];
      var a :| 0 <= a < |e| && IsName(x.name, e[..a]) && x.kind == e[a] <= 4 && IsInteger(32, e[a + 1..]) && x.index == Number(e[a + 1..]);
      assert e[..a] == s[..a] && e[a + 1..] == s[a + 1..][..n - a - 1];
      ExportAccepted(s, x, n, a);
    }
  }

  ghost predicate AreExports(xs: seq<Export>, e: seq<Byte>) {
    if xs == [] then e == [] else exists a :: 0 <= a <= |e| && IsExport(xs[0], e[..a]) && AreExports(xs[1..], e[a..])
  }

  lemma {:induction false} ExportsRead(n: nat, s: seq<Byte>)
    requires Exports(n, s).Some?
    ensures AreExports(Exports(n, s).value, s)
  {
    hide ExportAt, IsExport;
    if n > 0 {
      var first := ExportAt(s).value;
      ExportIs(s, first.value, first.size);
      ExportsRead(n - 1, s[first.size..]);
      assert Exports(n, s).value[1..] == Exports(n - 1, s[first.size..]).value;
    }
  }

  lemma {:induction false} ExportsAccepted(xs: seq<Export>, s: seq<Byte>)
    requires AreExports(xs, s)
    ensures Exports(|xs|, s) == Some(xs)
  {
    hide ExportAt, IsExport;
    if xs != [] {
      var a :| 0 <= a <= |s| && IsExport(xs[0], s[..a]) && AreExports(xs[1..], s[a..]);
      ExportIs(s, xs[0], a);
      ExportsAccepted(xs[1..], s[a..]);
      assert [xs[0]] + xs[1..] == xs;
    }
  }

  /** A vector of exports is read exactly where one is written. */
  lemma ExportVectorIs(s: seq<Byte>, xs: seq<Export>)
    ensures ExportVector(s) == Some(xs) <==>
              exists a :: 0 <= a <= |s| && IsInteger(32, s[..a]) && Number(s[..a]) == |xs| && AreExports(xs, s[a..])
  {
    hide U, IsInteger, Number, AreExports, Exports;
    if ExportVector(s) == Some(xs) {
      IntegerRead(32, s);
      ExportsRead(|xs|, s[U(32, s).value.size..]);
    }
    if a :| 0 <= a <= |s| && IsInteger(32, s[..a]) && Number(s[..a]) == |xs| && AreExports(xs, s[a..]) {
      IntegerAccepted(32, s, a);
      ExportsAccepted(xs, s[a..]);
    }
  }

  // ---- Modules ----

  // The kind byte, the size, the contents.
  ghost predicate IsSection(x: Section, e: seq<Byte>) {
    && x.raw == e && e != [] && x.kind == e[0]
    && exists a :: 1 <= a <= |e| && IsInteger(32, e[1..a]) && Number(e[1..a]) == |x.body| && x.body == e[a..]
  }

  lemma SectionRead(s: seq<Byte>)
    requires SectionAt(s).Some?
    ensures IsSection(SectionAt(s).value, s[..|SectionAt(s).value.raw|])
  {
    hide U, IsInteger, Number;
    var x, r := SectionAt(s).value, U(32, s[1..]).value;
    var e, a := s[..|x.raw|], 1 + r.size;
    IntegerRead(32, s[1..]);
    assert e[1..a] == s[1..][..r.size] && e[a..] == x.body;
  }

  lemma SectionAccepted(s: seq<Byte>, x: Section, a: nat)
    requires 1 <= a <= |x.raw| <= |s| && x.raw == s[..|x.raw|] && x.kind == s[0]
    requires IsInteger(32, s[1..][..a - 1]) && Number(s[1..][..a - 1]) == |x.body| && x.body == s[a..|x.raw|]
    ensures SectionAt(s) == Some(x)
  {
    hide U, IsInteger, Number;
    IntegerAccepted(32, s[1..], a - 1);
  }

  lemma SectionIs(s: seq<Byte>, x: Section)
    ensures SectionAt(s) == Some(x) <==> |x.raw| <= |s| && IsSection(x, s[..|x.raw|])
  {
    hide U, IsInteger, Number, SectionAt;
    var n := |x.raw|;
    if SectionAt(s) == Some(x) {
      SectionRead(s);
    }
    if n <= |s| && IsSection(x, s[..n]) {
      var e := s[..n];
      var a :| 1 <= a <= |e| && IsInteger(32, e[1..a]) && Number(e[1..a]) == |x.body| && x.body == e[a..];
      assert e[1..a] == s[1..][..a - 1] && s[a..n] == e[a..];
      SectionAccepted(s, x, a);
    }
  }

  ghost predicate AreSections(xs: seq<Section>, e: seq<Byte>) {
    if xs == [] then e == []
    else |xs[0].raw| <= |e| && IsSection(xs[0], e[..|xs[0].raw|]) && AreSections(xs[1..], e[|xs[0].raw|..])
  }

  lemma {:induction false} SectionsRead(s: seq<Byte>)
    requires Sections(s).Some?
    ensures AreSections(Sections(s).value, s)
  {
    hide SectionAt, IsSection;
    if s != [] {
      var first := SectionAt(s).value;
      SectionIs(s, first);
      SectionsRead(s[|first.raw|..]);
      assert Sections(s).value[1..] == Sections(s[|first.raw|..]).value;
    }
  }

  lemma {:induction false} SectionsAccepted(xs: seq<Section>, s: seq<Byte>)
    requires AreSections(xs, s)
    ensures Sections(s) == Some(xs)
  {
    hide SectionAt;
    if xs != [] {
      SectionIs(s, xs[0]);
      assert s[..|xs[0].raw|] != [];
      hide IsSection;
      SectionsAccepted(xs[1..], s[|xs[0].raw|..]);
      assert [xs[0]] + xs[1..] == xs;
    }
  }

  /** A module is read exactly where one is written: the eight bytes, then its sections. */
  lemma ModuleIs(bytes: seq<Byte>, xs: seq<Section>)
    ensures Module(bytes) == Some(xs) <==>
              |bytes| >= 8 && bytes[..8] == [0, 97, 115, 109, 1, 0, 0, 0] && AreSections(xs, bytes[8..])
  {
    hide Sections, AreSections;
    if Module(bytes).Some? {
      SectionsRead(bytes[8..]);
    }
    if |bytes| >= 8 && AreSections(xs, bytes[8..]) {
      SectionsAccepted(xs, bytes[8..]);
    }
  }
}
