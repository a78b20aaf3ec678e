/** The binary format written out byte by byte (WebAssembly Core Specification 2.0, sections
    5.3, 5.5.2, 5.5.5 and 5.5.10; sharing and 64-bit limits by the threads and memory64
    proposals, tags by the exception-handling proposal). The decoding functions read it back. */
module WasmEncoding {
  import opened Bytes
  import opened Wrappers
  import opened WasmBinary

  // A type of values: one byte, or a reference to a heap type of up to five bytes.
  datatype Value = Simple(code: Byte) | Reference(nullable: bool, heap: seq<Byte>)

  predicate ValueOk(v: Value) {
    match v
    case Simple(code) => 0x66 <= code <= 0x7f
    case Reference(_, heap) =>
      1 <= |heap| <= 5 && heap[|heap| - 1] < 128 && forall i :: 0 <= i < |heap| - 1 ==> heap[i] >= 128
  }

  function EncodeValue(v: Value): (r: seq<Byte>)
    ensures |r| >= 1
  {
    match v
    case Simple(code) => [code]
    case Reference(nullable, heap) => [if nullable then 0x63 else 0x64] + heap
  }

  datatype Range = Range(shared: bool, wide: bool, least: nat, most: Option<nat>)

  predicate RangeOk(r: Range) {
    && r.least < Pow2(if r.wide then 64 else 32)
    && (r.most.Some? ==> r.most.value < Pow2(if r.wide then 64 else 32))
  }

  function Flags(r: Range): Byte {
    (if r.most.Some? then 1 else 0) + (if r.shared then 2 else 0) + (if r.wide then 4 else 0)
  }

  function EncodeRange(r: Range): seq<Byte> {
    [Flags(r)] + Leb(r.least) + if r.most.Some? then Leb(r.most.value) else []
  }

  // What a module can import.
  datatype Extern =
    | Function(kind: nat)
    | Table(element: Value, range: Range)
    | Memory(range: Range)
    | Global(value: Value, mutable: bool)
    | Tag(kind: nat)

  predicate ExternOk(x: Extern) {
    match x
    case Function(t) => t < Pow2(32)
    case Table(v, r) => ValueOk(v) && RangeOk(r)
    case Memory(r) => RangeOk(r)
    case Global(v, _) => ValueOk(v)
    case Tag(t) => t < Pow2(32)
  }

  function KindByte(x: Extern): Byte {
    match x
    case Function(_) => 0
    case Table(_, _) => 1
    case Memory(_) => 2
    case Global(_, _) => 3
    case Tag(_) => 4
  }

  function EncodeExtern(x: Extern): seq<Byte> {
    match x
    case Function(t) => Leb(t)
    case Table(v, r) => EncodeValue(v) + EncodeRange(r)
    case Memory(r) => EncodeRange(r)
    case Global(v, mutable) => EncodeValue(v) + [if mutable then 1 else 0]
    case Tag(t) => [0] + Leb(t)
  }

  function EncodeName(name: seq<Byte>): seq<Byte> { Leb(|name|) + name }

  datatype External = External(space: seq<Byte>, name: seq<Byte>, what: Extern)

  predicate ExternalOk(e: External) {
    |e.space| < Pow2(32) && |e.name| < Pow2(32) && ExternOk(e.what)
  }

  function EncodeImport(e: External): seq<Byte> {
    EncodeName(e.space) + EncodeName(e.name) + [KindByte(e.what)] + EncodeExtern(e.what)
  }

  function EncodeImports(es: seq<External>): seq<Byte> {
    if es == [] then [] else EncodeImport(es[0]) + EncodeImports(es[1..])
  }

  function EncodeExport(x: Export): seq<Byte> {
    EncodeName(x.name) + [x.kind] + Leb(x.index)
  }

  // A section's number, size and contents.
  function EncodeSection(kind: Byte, body: seq<Byte>): seq<Byte> {
    [kind] + Leb(|body|) + body
  }

  // ---- Reading it back ----

  lemma NameReads(name: seq<Byte>, tail: seq<Byte>)
    requires |name| < Pow2(32)
    ensures Name(EncodeName(name) + tail) == Some(Parsed(name, |EncodeName(name)|))
  {
    hide U, Leb, Pow2;
    var s := EncodeName(name) + tail;
    LebRoundTrip32(|name|, name + tail);
    assert s == Leb(|name|) + (name + tail);
    assert s[|Leb(|name|)|..|Leb(|name|)| + |name|] == name;
  }

  lemma LebRoundTrip32(v: nat, tail: seq<Byte>)
    requires v < Pow2(32)
    ensures U(32, Leb(v) + tail) == Some(Parsed(v, |Leb(v)|))
  {
    LebRoundTrip(32, v, tail);
  }

  lemma {:induction false} HeapReads(k: nat, heap: seq<Byte>, tail: seq<Byte>)
    requires 1 <= |heap| <= k && heap[|heap| - 1] < 128 && forall i :: 0 <= i < |heap| - 1 ==> heap[i] >= 128
    ensures HeapType(k, heap + tail) == Some(|heap|)
  {
    var s := heap + tail;
    assert s[0] == heap[0];
    if |heap| > 1 {
      assert s[1..] == heap[1..] + tail;
      HeapReads(k - 1, heap[1..], tail);
    }
  }

  lemma ValueReads(v: Value, tail: seq<Byte>)
    requires ValueOk(v)
    ensures ValueType(EncodeValue(v) + tail) == Some(|EncodeValue(v)|)
  {
    hide HeapType;
    var s := EncodeValue(v) + tail;
    match v
    case Simple(code) => assert s[0] == code;
    case Reference(nullable, heap) =>
      assert s[1..] == heap + tail;
      HeapReads(5, heap, tail);
  }

  lemma RangeReads(r: Range, tail: seq<Byte>)
    requires RangeOk(r)
    ensures Limits(EncodeRange(r) + tail) == Some(|EncodeRange(r)|)
  {
    hide Limits, Leb, Pow2, EncodeRange;
    match r.most
    case None => OpenReads(r, tail);
    case Some(most) => ClosedReads(r, most, tail);
  }

  lemma FlagsMean(r: Range)
    ensures Flags(r) < 8
    ensures Flags(r) / 4 % 2 == (if r.wide then 1 else 0) && Flags(r) % 2 == (if r.most.Some? then 1 else 0)
  {
  }

  lemma OpenReads(r: Range, tail: seq<Byte>)
    requires RangeOk(r) && r.most.None?
    ensures Limits(EncodeRange(r) + tail) == Some(|EncodeRange(r)|)
  {
    hide U, Leb, Pow2, Flags;
    var s := EncodeRange(r) + tail;
    FlagsMean(r);
    FlagReads(Flags(r), Leb(r.least) + tail);
    assert s == [Flags(r)] + (Leb(r.least) + tail);
    assert s[1..] == Leb(r.least) + tail;
    Reads(r.wide, r.least, tail);
  }

  lemma ClosedReads(r: Range, most: nat, tail: seq<Byte>)
    requires RangeOk(r) && r.most == Some(most)
    ensures Limits(EncodeRange(r) + tail) == Some(|EncodeRange(r)|)
  {
    hide U, Leb, Pow2, Flags;
    var s := EncodeRange(r) + tail;
    var rest := Leb(most) + tail;
    FlagsMean(r);
    FlagReads(Flags(r), Leb(r.least) + rest);
    assert s == [Flags(r)] + (Leb(r.least) + rest);
    assert s[1..] == Leb(r.least) + rest;
    Reads(r.wide, r.least, rest);
    assert s[1 + |Leb(r.least)|..] == rest;
    Reads(r.wide, most, tail);
  }

  lemma FlagReads(f: Byte, tail: seq<Byte>)
    requires f < 8
    ensures U(32, [f] + tail) == Some(Parsed(f, 1))
  {
    Pow2Is32();
    LebRoundTrip(32, f, tail);
  }

  lemma Reads(wide: bool, v: nat, tail: seq<Byte>)
    requires v < Pow2(if wide then 64 else 32)
    ensures U(if wide then 64 else 32, Leb(v) + tail) == Some(Parsed(v, |Leb(v)|))
  {
    LebRoundTrip(if wide then 64 else 32, v, tail);
  }

  lemma ExternReads(x: Extern, tail: seq<Byte>)
    requires ExternOk(x)
    ensures Description(KindByte(x), EncodeExtern(x) + tail) == Some(|EncodeExtern(x)|)
  {
    hide U, Leb, Pow2, ValueType, Limits, EncodeValue, EncodeRange, ValueOk, RangeOk;
    var s := EncodeExtern(x) + tail;
    match x
    case Function(t) => LebRoundTrip32(t, tail);
    case Table(v, r) =>
      assert s == EncodeValue(v) + (EncodeRange(r) + tail);
      ValueReads(v, EncodeRange(r) + tail);
      assert s[|EncodeValue(v)|..] == EncodeRange(r) + tail;
      RangeReads(r, tail);
    case Memory(r) => RangeReads(r, tail);
    case Global(v, mutable) =>
      assert s == EncodeValue(v) + ([if mutable then 1 else 0] + tail);
      ValueReads(v, [if mutable then 1 else 0] + tail);
      assert s[|EncodeValue(v)|] == if mutable then 1 else 0;
    case Tag(t) =>
      LebRoundTrip32(t, tail);
      assert s[1..] == Leb(t) + tail;
  }

  /** Every import that the format has is read back, to its end, with its kind byte. */
  lemma ImportReads(e: External, tail: seq<Byte>)
    requires ExternalOk(e)
    ensures ImportAt(EncodeImport(e) + tail) == Some(Parsed(Import(e.space, e.name, KindByte(e.what)), |EncodeImport(e)|))
  {
    hide Name, Description, EncodeName, EncodeExtern, KindByte, Pow2, ExternOk;
    var s := EncodeImport(e) + tail;
    var kind, about := KindByte(e.what), EncodeExtern(e.what);
    var second := EncodeName(e.name) + ([kind] + about + tail);
    assert s == EncodeName(e.space) + second;
    NameReads(e.space, second);
    assert s[|EncodeName(e.space)|..] == second;
    NameReads(e.name, [kind] + about + tail);
    var k := |EncodeName(e.space)| + |EncodeName(e.name)|;
    assert s[k] == kind;
    assert s[k + 1..] == about + tail;
    ExternReads(e.what, tail);
  }

  function Kinds(es: seq<External>): (r: seq<Import>)
    ensures |r| == |es|
  {
    seq(|es|, i requires 0 <= i < |es| => Import(es[i].space, es[i].name, KindByte(es[i].what)))
  }

  lemma {:induction false} ImportsRead(es: seq<External>)
    requires forall i :: 0 <= i < |es| ==> ExternalOk(es[i])
    ensures Imports(|es|, EncodeImports(es)) == Some(Kinds(es))
  {
    hide ImportAt, EncodeImport, ExternalOk, KindByte;
    if es == [] {
      assert Kinds(es) == [];
    } else {
      ImportReads(es[0], EncodeImports(es[1..]));
      ImportsRead(es[1..]);
      var s := EncodeImports(es);
      assert s[|EncodeImport(es[0])|..] == EncodeImports(es[1..]);
      assert Kinds(es) == [Import(es[0].space, es[0].name, KindByte(es[0].what))] + Kinds(es[1..]);
    }
  }

  /** A vector of imports, of any kinds, is read as these imports in order. */
  lemma ImportVectorReads(es: seq<External>)
    requires |es| < Pow2(32) && forall i :: 0 <= i < |es| ==> ExternalOk(es[i])
    ensures ImportVector(Leb(|es|) + EncodeImports(es)) == Some(Kinds(es))
  {
    hide U, Leb, Imports, EncodeImports, ExternalOk, Pow2;
    LebRoundTrip32(|es|, EncodeImports(es));
    ImportsRead(es);
    assert (Leb(|es|) + EncodeImports(es))[|Leb(|es|)|..] == EncodeImports(es);
  }

  /** An export of one of the five kinds is read back. */
  lemma ExportReads(x: Export, tail: seq<Byte>)
    requires |x.name| < Pow2(32) && x.kind <= 4 && x.index < Pow2(32)
    ensures ExportAt(EncodeExport(x) + tail) == Some(Parsed(x, |EncodeExport(x)|))
  {
    hide U, Leb, Pow2, Name, EncodeName;
    var s := EncodeExport(x) + tail;
    assert s == EncodeName(x.name) + ([x.kind] + Leb(x.index) + tail);
    NameReads(x.name, [x.kind] + Leb(x.index) + tail);
    var k := |EncodeName(x.name)|;
    assert s[k] == x.kind;
    assert s[k + 1..] == Leb(x.index) + tail;
    LebRoundTrip32(x.index, tail);
  }

  /** A section is read back, whatever its kind, with what follows left over. */
  lemma SectionReads(kind: Byte, body: seq<Byte>, tail: seq<Byte>)
    requires |body| < Pow2(32)
    ensures SectionAt(EncodeSection(kind, body) + tail) == Some(Section(kind, EncodeSection(kind, body), body))
  {
    hide U, Leb, Pow2;
    var raw := EncodeSection(kind, body);
    var s := raw + tail;
    LebRoundTrip32(|body|, body + tail);
    assert s[1..] == Leb(|body|) + (body + tail);
    var at := 1 + |Leb(|body|)|;
    assert s[..at + |body|] == raw;
    assert s[at..at + |body|] == body;
  }

  datatype Part = Part(kind: Byte, body: seq<Byte>)

  function EncodeParts(parts: seq<Part>): seq<Byte> {
    if parts == [] then [] else EncodeSection(parts[0].kind, parts[0].body) + EncodeParts(parts[1..])
  }

  function AsSections(parts: seq<Part>): seq<Section> {
    seq(|parts|, i requires 0 <= i < |parts| => Section(parts[i].kind, EncodeSection(parts[i].kind, parts[i].body), parts[i].body))
  }

  lemma {:induction false} PartsRead(parts: seq<Part>)
    requires forall i :: 0 <= i < |parts| ==> |parts[i].body| < Pow2(32)
    ensures Sections(EncodeParts(parts)) == Some(AsSections(parts))
  {
    hide SectionAt, Pow2, Leb;
    if parts == [] {
      assert AsSections(parts) == [];
    } else {
      var p := parts[0];
      SectionReads(p.kind, p.body, EncodeParts(parts[1..]));
      PartsRead(parts[1..]);
      var s := EncodeParts(parts);
      assert s[|EncodeSection(p.kind, p.body)|..] == EncodeParts(parts[1..]);
      assert AsSections(parts) == [Section(p.kind, EncodeSection(p.kind, p.body), p.body)] + AsSections(parts[1..]);
    }
  }

  /** A module is its eight-byte header followed by sections of any kinds, and nothing else. */
  lemma ModuleReads(parts: seq<Part>)
    requires forall i :: 0 <= i < |parts| ==> |parts[i].body| < Pow2(32)
    ensures Module([0, 97, 115, 109, 1, 0, 0, 0] + EncodeParts(parts)) == Some(AsSections(parts))
  {
    hide Sections, Pow2, AsSections, EncodeParts;
    var bytes := [0, 97, 115, 109, 1, 0, 0, 0] + EncodeParts(parts);
    PartsRead(parts);
    assert bytes[..8] == [0, 97, 115, 109, 1, 0, 0, 0];
    assert bytes[8..] == EncodeParts(parts);
  }
}
