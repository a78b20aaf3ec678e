/** What the canonical-import transform is for: a module gets one more export for
    every function it imports, under a reserved name made of the import's ordinal,
    and nothing else about it changes. */
module CanonicalSpec {
  import opened Bytes
  import opened Wrappers
  import opened WasmBinary

  const UINT32_MAX: nat := 0xFFFF_FFFF
  const SIZE_MAX: nat := 0xFFFF_FFFF_FFFF_FFFF

  // "\0lasm.import."
  const PREFIX: seq<Byte> := [0, 108, 97, 115, 109, 46, 105, 109, 112, 111, 114, 116, 46]

  // ---- Names ----

  // An unsigned integer in decimal, as `%u` prints it.
  function Decimal(v: nat): (r: seq<Byte>)
    ensures |r| >= 1
  {
    if v < 10 then [48 + v] else Decimal(v / 10) + [48 + v % 10]
  }

  function CanonicalName(ordinal: nat): seq<Byte> { PREFIX + Decimal(ordinal) }

  predicate Reserved(name: seq<Byte>) { |name| >= |PREFIX| && name[..|PREFIX|] == PREFIX }

  function Undecimal(s: seq<Byte>): int {
    if s == [] then 0 else 10 * Undecimal(s[..|s| - 1]) + (s[|s| - 1] as int - 48)
  }

  lemma {:induction false} DecimalReads(v: nat)
    ensures Undecimal(Decimal(v)) == v
  {
    var s := Decimal(v);
    if v >= 10 {
      assert s[..|s| - 1] == Decimal(v / 10);
      DecimalReads(v / 10);
    } else {
      assert s[..0] == [];
    }
  }

  // The decimal digits of the number, without leading zeros.
  lemma {:induction false} DecimalMeans(v: nat)
    ensures Undecimal(Decimal(v)) == v
    ensures forall i :: 0 <= i < |Decimal(v)| ==> 48 <= Decimal(v)[i] <= 57
    ensures v > 0 ==> Decimal(v)[0] != 48
    ensures var d, n := Decimal(v), |Decimal(v)|; d[n - 1] == 48 + v % 10 && d[..n - 1] == if v < 10 then [] else Decimal(v / 10)
  {
    DecimalReads(v);
    if v >= 10 {
      DecimalMeans(v / 10);
    }
  }

  // Different ordinals get different names.
  lemma NamesDiffer(a: nat, b: nat)
    requires a != b
    ensures CanonicalName(a) != CanonicalName(b)
  {
    hide Decimal, Undecimal;
    DecimalReads(a);
    DecimalReads(b);
    assert CanonicalName(a)[|PREFIX|..] == Decimal(a);
    assert CanonicalName(b)[|PREFIX|..] == Decimal(b);
  }

  lemma {:induction false} DecimalSize(v: nat, digits: nat, limit: nat)
    requires digits >= 1 && v < limit && limit == Ten(digits)
    ensures |Decimal(v)| <= digits
    decreases digits
  {
    if v >= 10 {
      assert limit == 10 * Ten(digits - 1);
      assert digits >= 2;
      DecimalSize(v / 10, digits - 1, Ten(digits - 1));
    }
  }

  function Ten(n: nat): (r: nat)
    ensures r >= 1
  {
    if n == 0 then 1 else 10 * Ten(n - 1)
  }

  lemma TenOf10()
    ensures Ten(10) == 10_000_000_000
  {
    assert Ten(2) == 100;
    assert Ten(4) == 10_000 by { assert Ten(3) == 1000; }
    assert Ten(6) == 1_000_000 by { assert Ten(5) == 100_000; }
    assert Ten(8) == 100_000_000 by { assert Ten(7) == 10_000_000; }
  }

  // The name always fits in its 64-byte buffer.
  lemma NameFits(ordinal: nat)
    requires ordinal <= UINT32_MAX
    ensures |PREFIX| < |CanonicalName(ordinal)| <= 23
  {
    hide Decimal, Ten;
    TenOf10();
    DecimalSize(ordinal, 10, Ten(10));
  }

  lemma {:induction false} LebSizes(v: nat, k: nat)
    requires k >= 1 && v < Pow2(7 * k)
    ensures |Leb(v)| <= k
    decreases k
  {
    Pow2Split(7 * k);
    assert Pow2(0) == 1;
    if v >= 128 {
      LebSizes(v / 128, k - 1);
    }
  }

  lemma LebFits(v: nat)
    requires v <= UINT32_MAX
    ensures |Leb(v)| <= 5
    ensures v < 128 ==> |Leb(v)| == 1
  {
    hide Pow2;
    Pow2Is32();
    Pow2Mono(32, 35);
    LebSizes(v, 5);
  }

  // ---- The added exports ----

  datatype ImportExport = ImportExport(ordinal: nat, index: nat)

  // Function imports in order: the import's position and the function index it defines.
  function FunctionExports(imports: seq<Import>): (r: seq<ImportExport>)
    ensures |r| <= |imports|
  {
    if imports == [] then []
    else
      var n := |imports| - 1;
      var before := FunctionExports(imports[..n]);
      if imports[n].IsFunction() then before + [ImportExport(n, |before|)] else before
  }

  function AddedExports(added: seq<ImportExport>): seq<Export> {
    seq(|added|, i requires 0 <= i < |added| => Export(CanonicalName(added[i].ordinal), 0, added[i].index))
  }

  function Entry(f: ImportExport): seq<Byte> {
    Leb(|CanonicalName(f.ordinal)|) + CanonicalName(f.ordinal) + [0] + Leb(f.index)
  }

  function Entries(added: seq<ImportExport>): seq<Byte> {
    if added == [] then [] else Entries(added[..|added| - 1]) + Entry(added[|added| - 1])
  }

  function Payload(count: nat, kept: seq<Byte>, added: seq<ImportExport>): seq<Byte> {
    Leb(count) + kept + Entries(added)
  }

  // ---- Choosing the place ----

  // The first section of one of the kinds, or the number of sections.
  function Find(sections: seq<Section>, kinds: set<Byte>): (r: nat)
    ensures r <= |sections|
    ensures forall i :: 0 <= i < r ==> sections[i].kind !in kinds
    ensures r < |sections| ==> sections[r].kind in kinds
  {
    if sections == [] || sections[0].kind in kinds then 0 else 1 + Find(sections[1..], kinds)
  }

  predicate Once(sections: seq<Section>, kind: Byte) {
    forall i, j :: 0 <= i < j < |sections| ==> sections[i].kind != kind || sections[j].kind != kind
  }

  function ImportsOf(sections: seq<Section>): Option<seq<Import>> {
    var i := Find(sections, {2});
    if i == |sections| then Some([]) else ImportVector(sections[i].body)
  }

  function ExportsOf(sections: seq<Section>): Option<seq<Export>> {
    var i := Find(sections, {7});
    if i == |sections| then Some([]) else ExportVector(sections[i].body)
  }

  // The encoded exports, without their count.
  function OldEntries(sections: seq<Section>): seq<Byte>
    requires ExportsOf(sections).Some?
  {
    var i := Find(sections, {7});
    if i == |sections| then []
    else (var n := U(32, sections[i].body).value; sections[i].body[n.size..])
  }

  // The sections that come after the export section (5.5.2).
  const LATER: set<Byte> := {8, 9, 10, 11, 12}

  function Place(sections: seq<Section>): (r: (nat, nat))
    ensures r.0 <= r.1 <= |sections|
  {
    var e := Find(sections, {7});
    if e < |sections| then (e, e + 1)
    else (var f := Find(sections, LATER); (f, f))
  }

  // ---- The result ----

  function NewSection(body: seq<Byte>): Section { Section(7, [7] + Leb(|body|) + body, body) }

  function Rewritten(sections: seq<Section>, body: seq<Byte>): seq<Section> {
    var p := Place(sections);
    sections[..p.0] + [NewSection(body)] + sections[p.1..]
  }

  predicate Readable(bytes: seq<Byte>) {
    && Module(bytes).Some?
    && var sections := Module(bytes).value;
    && Once(sections, 2) && Once(sections, 7)
    && ImportsOf(sections).Some? && ExportsOf(sections).Some?
    && forall i :: 0 <= i < |ExportsOf(sections).value| ==> !Reserved(ExportsOf(sections).value[i].name)
  }

  function Added(bytes: seq<Byte>): seq<ImportExport>
    requires Readable(bytes)
  {
    FunctionExports(ImportsOf(Module(bytes).value).value)
  }

  function Body(bytes: seq<Byte>): seq<Byte>
    requires Readable(bytes)
  {
    var sections := Module(bytes).value;
    Payload(|ExportsOf(sections).value| + |Added(bytes)|, OldEntries(sections), Added(bytes))
  }

  // The new section's size can be written: the last added name leaves room for 12 more bytes.
  predicate Fits(bytes: seq<Byte>)
    requires Readable(bytes)
  {
    var sections := Module(bytes).value;
    var added := Added(bytes);
    var count := |ExportsOf(sections).value| + |added|;
    && count <= UINT32_MAX
    && (added != [] ==>
          var last := |added| - 1;
          |Payload(count, OldEntries(sections), added[..last])| + |CanonicalName(added[last].ordinal)| + 12 <= UINT32_MAX)
    && |bytes| + |Body(bytes)| + 6 <= SIZE_MAX
  }

  predicate Accepts(bytes: seq<Byte>) {
    Readable(bytes) && (Added(bytes) != [] ==> Fits(bytes))
  }

  function Output(bytes: seq<Byte>): seq<Byte>
    requires Readable(bytes)
  {
    Header + Raw(Rewritten(Module(bytes).value, Body(bytes)))
  }

  // ---- The added exports decode ----

  lemma EntryDecodes(f: ImportExport)
    requires f.ordinal <= UINT32_MAX && f.index <= UINT32_MAX
    ensures Exports(1, Entry(f)) == Some([Export(CanonicalName(f.ordinal), 0, f.index)])
  {
    hide U, Leb, CanonicalName;
    var name := CanonicalName(f.ordinal);
    var s := Entry(f);
    NameFits(f.ordinal);
    Pow2Is32();
    LebRoundTrip(32, |name|, name + [0] + Leb(f.index));
    assert s == Leb(|name|) + (name + [0] + Leb(f.index));
    var k := |Leb(|name|)|;
    assert s[k..k + |name|] == name;
    assert s[k + |name|] == 0;
    LebRoundTrip(32, f.index, []);
    assert Leb(f.index) + [] == Leb(f.index);
    assert s[k + |name| + 1..] == Leb(f.index);
    assert s[|s|..] == [];
    assert Exports(0, s[|s|..]) == Some([]);
    var e := Export(name, 0, f.index);
    assert [e] + [] == [e];
    assert ExportAt(s) == Some(Parsed(e, |s|));
  }

  predicate InRange(added: seq<ImportExport>) {
    forall i :: 0 <= i < |added| ==> added[i].ordinal <= UINT32_MAX && added[i].index <= UINT32_MAX
  }

  lemma {:induction false} EntriesDecode(added: seq<ImportExport>)
    requires InRange(added)
    ensures Exports(|added|, Entries(added)) == Some(AddedExports(added))
  {
    hide Entry, U, ExportAt, CanonicalName;
    if added == [] {
      assert AddedExports(added) == [];
    } else {
      var n := |added| - 1;
      EntriesDecode(added[..n]);
      EntryDecodes(added[n]);
      ExportsAppend(n, Entries(added[..n]), 1, Entry(added[n]));
      assert AddedExports(added) == AddedExports(added[..n]) + [Export(CanonicalName(added[n].ordinal), 0, added[n].index)];
    }
  }

  // The new body holds the kept exports, then one for every imported function.
  lemma PayloadDecodes(kept: seq<Byte>, n: nat, added: seq<ImportExport>)
    requires Exports(n, kept).Some? && InRange(added)
    requires n + |added| <= UINT32_MAX
    ensures ExportVector(Payload(n + |added|, kept, added)) == Some(Exports(n, kept).value + AddedExports(added))
  {
    hide U, Leb, ExportAt, Exports, Entries, AddedExports;
    var count := n + |added|;
    var body := Payload(count, kept, added);
    Pow2Is32();
    LebRoundTrip(32, count, kept + Entries(added));
    assert body == Leb(count) + (kept + Entries(added));
    assert body[|Leb(count)|..] == kept + Entries(added);
    EntriesDecode(added);
    ExportsAppend(n, kept, |added|, Entries(added));
  }

  // ---- Which exports are added ----

  // The number of functions imported: the index the next one gets (2.5.1).
  function Functions(imports: seq<Import>): nat {
    if imports == [] then 0
    else Functions(imports[..|imports| - 1]) + if imports[|imports| - 1].IsFunction() then 1 else 0
  }

  lemma {:induction false} AddedCount(imports: seq<Import>)
    ensures |FunctionExports(imports)| == Functions(imports)
  {
    if imports != [] {
      AddedCount(imports[..|imports| - 1]);
    }
  }

  lemma {:induction false} AddedIsImported(imports: seq<Import>, i: nat)
    requires i < |FunctionExports(imports)|
    ensures var f := FunctionExports(imports)[i];
            && f.ordinal < |imports| && imports[f.ordinal].IsFunction()
            && f.index == i == Functions(imports[..f.ordinal])
  {
    var n := |imports| - 1;
    var init := imports[..n];
    var before := FunctionExports(init);
    if i < |before| {
      AddedIsImported(init, i);
      assert init[..before[i].ordinal] == imports[..before[i].ordinal];
    } else {
      AddedCount(init);
      assert FunctionExports(imports)[i] == ImportExport(n, |before|);
    }
  }

  lemma {:induction false} ImportedIsAdded(imports: seq<Import>, o: nat)
    requires o < |imports| && imports[o].IsFunction()
    ensures var i := Functions(imports[..o]);
            i < |FunctionExports(imports)| && FunctionExports(imports)[i] == ImportExport(o, i)
  {
    var n := |imports| - 1;
    var init := imports[..n];
    if o < n {
      assert init[..o] == imports[..o];
      ImportedIsAdded(init, o);
    } else {
      AddedCount(init);
    }
  }

  lemma {:induction false} AddedInOrder(imports: seq<Import>, i: nat, j: nat)
    requires i < j < |FunctionExports(imports)|
    ensures FunctionExports(imports)[i].ordinal < FunctionExports(imports)[j].ordinal
  {
    var init := imports[..|imports| - 1];
    if j < |FunctionExports(init)| {
      AddedInOrder(init, i, j);
    } else {
      AddedIsImported(init, i);
    }
  }

  lemma AddedInRange(imports: seq<Import>)
    requires |imports| <= UINT32_MAX
    ensures InRange(FunctionExports(imports))
  {
    forall i | 0 <= i < |FunctionExports(imports)|
      ensures FunctionExports(imports)[i].ordinal <= UINT32_MAX && FunctionExports(imports)[i].index <= UINT32_MAX
    {
      AddedIsImported(imports, i);
    }
  }

  // The imports before `n` whose kind byte is 0.
  function FunctionsBefore(imports: seq<Import>, n: nat): set<nat>
    requires n <= |imports|
  {
    set p: nat | p < n && imports[p].kind == 0
  }

  lemma {:induction false} FunctionsCount(imports: seq<Import>, n: nat)
    requires n <= |imports|
    ensures Functions(imports[..n]) == |FunctionsBefore(imports, n)|
  {
    if n > 0 {
      FunctionsCount(imports, n - 1);
      assert imports[..n][..n - 1] == imports[..n - 1];
      assert FunctionsBefore(imports, n) ==
             FunctionsBefore(imports, n - 1) + if imports[n - 1].kind == 0 then {n - 1} else {};
    } else {
      assert FunctionsBefore(imports, 0) == {};
    }
  }

  /** Exactly the imports whose kind byte is 0, each once and in order, with the index the module
      knows it by: the number of such imports before it. */
  lemma AddedAreTheFunctionImports(imports: seq<Import>)
    ensures |FunctionExports(imports)| == |set o: nat | o < |imports| && imports[o].kind == 0|
    ensures forall i :: 0 <= i < |FunctionExports(imports)| ==>
              var f := FunctionExports(imports)[i];
              f.ordinal < |imports| && imports[f.ordinal].kind == 0 && f.index == |set p: nat | p < f.ordinal && imports[p].kind == 0|
    ensures forall o: nat :: o < |imports| && imports[o].kind == 0 ==>
              ImportExport(o, |set p: nat | p < o && imports[p].kind == 0|) in FunctionExports(imports)
    ensures forall i, j :: 0 <= i < j < |FunctionExports(imports)| ==>
              FunctionExports(imports)[i].ordinal < FunctionExports(imports)[j].ordinal
  {
    hide FunctionExports, Functions;
    AddedCount(imports);
    assert imports[..|imports|] == imports;
    FunctionsCount(imports, |imports|);
    assert FunctionsBefore(imports, |imports|) == set o: nat | o < |imports| && imports[o].kind == 0;
    forall i | 0 <= i < |FunctionExports(imports)|
      ensures var f := FunctionExports(imports)[i];
              f.ordinal < |imports| && imports[f.ordinal].kind == 0 && f.index == |set p: nat | p < f.ordinal && imports[p].kind == 0|
    {
      AddedIsImported(imports, i);
      FunctionsCount(imports, FunctionExports(imports)[i].ordinal);
    }
    forall o: nat | o < |imports| && imports[o].kind == 0
      ensures ImportExport(o, |set p: nat | p < o && imports[p].kind == 0|) in FunctionExports(imports)
    {
      ImportedIsAdded(imports, o);
      FunctionsCount(imports, o);
    }
    forall i, j | 0 <= i < j < |FunctionExports(imports)|
      ensures FunctionExports(imports)[i].ordinal < FunctionExports(imports)[j].ordinal
    {
      AddedInOrder(imports, i, j);
    }
  }

  // ---- What the output means ----

  predicate Changes(bytes: seq<Byte>) { Accepts(bytes) && Added(bytes) != [] }

  lemma VectorCount(s: seq<Byte>)
    ensures ImportVector(s).Some? ==> |ImportVector(s).value| <= UINT32_MAX
    ensures ExportVector(s).Some? ==> |ExportVector(s).value| <= UINT32_MAX
    ensures ExportVector(s).Some? ==>
              Exports(|ExportVector(s).value|, s[U(32, s).value.size..]) == ExportVector(s)
  {
    hide U, Imports, Exports;
    Pow2Is32();
  }

  lemma OldEntriesDecode(sections: seq<Section>)
    requires ExportsOf(sections).Some?
    ensures Exports(|ExportsOf(sections).value|, OldEntries(sections)) == ExportsOf(sections)
  {
    hide U, Find, ExportVector;
    var i := Find(sections, {7});
    if i < |sections| {
      VectorCount(sections[i].body);
    }
  }

  lemma ImportsCount(sections: seq<Section>)
    requires ImportsOf(sections).Some?
    ensures |ImportsOf(sections).value| <= UINT32_MAX
  {
    hide ImportVector, Find;
    var i := Find(sections, {2});
    if i < |sections| {
      VectorCount(sections[i].body);
    }
  }

  lemma BodyDecodes(bytes: seq<Byte>)
    requires Changes(bytes)
    ensures ExportVector(Body(bytes)) == Some(ExportsOf(Module(bytes).value).value + AddedExports(Added(bytes)))
  {
    hide Module, ExportsOf, Exports, ExportVector, Payload, AddedExports, OldEntries, ImportsOf, FunctionExports, Once;
    var sections := Module(bytes).value;
    OldEntriesDecode(sections);
    ImportsCount(sections);
    AddedInRange(ImportsOf(sections).value);
    PayloadDecodes(OldEntries(sections), |ExportsOf(sections).value|, Added(bytes));
  }

  lemma NewSectionWhole(body: seq<Byte>)
    requires |body| <= UINT32_MAX
    ensures Whole(NewSection(body))
  {
    hide U, Leb;
    var raw := NewSection(body).raw;
    Pow2Is32();
    LebRoundTrip(32, |body|, body);
    var k := |Leb(|body|)|;
    assert raw[1..] == Leb(|body|) + body;
    assert raw[1 + k..1 + k + |body|] == body;
    assert raw[..1 + k + |body|] == raw;
  }

  // Nothing but the last added name can make the section too long, and it does not.
  lemma BodyFits(bytes: seq<Byte>)
    requires Changes(bytes)
    ensures |Body(bytes)| <= UINT32_MAX
  {
    hide Module, Leb, ExportsOf, OldEntries, CanonicalName, FunctionExports, Find, Once;
    var sections := Module(bytes).value;
    var added := Added(bytes);
    var last := added[|added| - 1];
    var i := Find(sections, {2});
    if i < |sections| {
      VectorCount(sections[i].body);
    }
    AddedInRange(ImportsOf(sections).value);
    NameFits(last.ordinal);
    LebFits(|CanonicalName(last.ordinal)|);
    LebFits(last.index);
  }

  lemma ModuleParts(bytes: seq<Byte>)
    requires Module(bytes).Some?
    ensures bytes == Header + Raw(Module(bytes).value)
    ensures forall i :: 0 <= i < |Module(bytes).value| ==> Whole(Module(bytes).value[i])
  {
    hide Sections, Whole;
    SectionsAreRaw(bytes[8..]);
  }

  /** The output is a module whose sections are the input's, byte for byte and in order,
      but for the export section: that one holds the old exports followed by the added ones. */
  lemma OutputMeans(bytes: seq<Byte>)
    requires Changes(bytes)
    ensures Module(Output(bytes)) == Some(Rewritten(Module(bytes).value, Body(bytes)))
    ensures ExportVector(Body(bytes)) == Some(ExportsOf(Module(bytes).value).value + AddedExports(Added(bytes)))
  {
    hide Whole, Sections, Body, Place, ExportsOf, ImportsOf, Once, Fits, Added, NewSection;
    BodyDecodes(bytes);
    BodyFits(bytes);
    var sections := Module(bytes).value;
    ModuleParts(bytes);
    NewSectionWhole(Body(bytes));
    SectionsOfRaw(Rewritten(sections, Body(bytes)));
    assert Output(bytes)[8..] == Raw(Rewritten(sections, Body(bytes)));
    assert Output(bytes)[..8] == Header;
  }
}
