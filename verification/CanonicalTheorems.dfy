/** What a caller of the canonical-import transform can rely on. */
module CanonicalTheorems {
  import opened Bytes
  import opened Wrappers
  import opened WasmBinary
  import opened CanonicalSpec

  // ---- Everything else is unchanged ----

  function Without(sections: seq<Section>, kind: Byte): seq<Section> {
    if sections == [] then []
    else (if sections[0].kind == kind then [] else [sections[0]]) + Without(sections[1..], kind)
  }

  lemma {:induction false} WithoutAppend(a: seq<Section>, b: seq<Section>, kind: Byte)
    ensures Without(a + b, kind) == Without(a, kind) + Without(b, kind)
  {
    if a == [] {
      assert a + b == b;
    } else {
      assert (a + b)[1..] == a[1..] + b;
      WithoutAppend(a[1..], b, kind);
    }
  }

  lemma PlaceSplits(sections: seq<Section>)
    ensures var p := Place(sections); Without(sections[p.0..p.1], 7) == []
    ensures sections == sections[..Place(sections).0] + sections[Place(sections).0..Place(sections).1] + sections[Place(sections).1..]
  {
    var p := Place(sections);
    if p.0 < p.1 {
      assert sections[p.0..p.1] == [sections[p.0]];
    }
  }

  lemma WithoutNew(body: seq<Byte>)
    ensures Without([NewSection(body)], 7) == []
  {
    assert [NewSection(body)][1..] == [];
  }

  lemma OthersKept(sections: seq<Section>, body: seq<Byte>)
    ensures Without(Rewritten(sections, body), 7) == Without(sections, 7)
  {
    hide Place, Without;
    var p := Place(sections);
    var head, mid, tail := sections[..p.0], sections[p.0..p.1], sections[p.1..];
    PlaceSplits(sections);
    WithoutAppend(head + mid, tail, 7);
    WithoutAppend(head, mid, 7);
    WithoutAppend(head + [NewSection(body)], tail, 7);
    WithoutAppend(head, [NewSection(body)], 7);
    WithoutNew(body);
  }

  lemma ExportPlace(sections: seq<Section>, body: seq<Byte>)
    requires Once(sections, 7)
    ensures Find(Rewritten(sections, body), {7}) == Place(sections).0 < |Rewritten(sections, body)|
    ensures Rewritten(sections, body)[Place(sections).0] == NewSection(body)
    ensures Once(Rewritten(sections, body), 7)
  {
    var p := Place(sections).0;
    var after := Rewritten(sections, body);
    assert after[p] == NewSection(body);
    NoneBefore(sections);
    var e := Find(sections, {7});
    forall i | 0 <= i < |after| && i != p
      ensures after[i].kind != 7
    {
      assert i < p ==> after[i] == sections[i];
      assert i > p ==> after[i] == sections[Place(sections).1 + (i - p - 1)];
      if e < |sections| {
        assert sections[e].kind == 7;
      }
    }
    assert Find(after, {7}) == p;
  }

  lemma NoneBefore(sections: seq<Section>)
    ensures forall i :: 0 <= i < Place(sections).0 ==> sections[i].kind != 7
  {
    var e := Find(sections, {7});
    if e == |sections| {
      forall i | 0 <= i < Place(sections).0
        ensures sections[i].kind != 7
      {
      }
    }
  }

  /** Exactly one section is an export section, it lists the old exports followed by the
      added ones, and the other sections are the input's, byte for byte and in order. */
  lemma OnlyExportsChange(bytes: seq<Byte>)
    requires Changes(bytes)
    ensures Module(Output(bytes)).Some?
    ensures Without(Module(Output(bytes)).value, 7) == Without(Module(bytes).value, 7)
    ensures Once(Module(Output(bytes)).value, 7)
    ensures ExportsOf(Module(Output(bytes)).value) == Some(ExportsOf(Module(bytes).value).value + AddedExports(Added(bytes)))
  {
    hide Place, Rewritten, Without, Module, Find, Once, ExportVector, Body, Output, Fits, Added;
    OutputMeans(bytes);
    var sections, body := Module(bytes).value, Body(bytes);
    OthersKept(sections, body);
    ExportPlace(sections, body);
  }

  // ---- In the bytes of the format ----

  predicate Starts(name: seq<Byte>, prefix: seq<Byte>) { |name| >= |prefix| && name[..|prefix|] == prefix }

  /** A module can be read exactly when its sections decode with at most one of kind 2, a vector of
      imports, and at most one of kind 7, a vector of exports whose names do not start with
      "\0lasm.import.". */
  lemma ReadableMeans(bytes: seq<Byte>)
    ensures Readable(bytes) <==>
              && Module(bytes).Some?
              && var sections := Module(bytes).value;
              && (forall i, j :: 0 <= i < j < |sections| && sections[i].kind == sections[j].kind ==> sections[i].kind !in {2, 7})
              && (forall i :: 0 <= i < |sections| && sections[i].kind == 2 ==> ImportVector(sections[i].body).Some?)
              && (forall i :: 0 <= i < |sections| && sections[i].kind == 7 ==>
                    && ExportVector(sections[i].body).Some?
                    && forall x :: x in ExportVector(sections[i].body).value ==>
                         !Starts(x.name, [0, 108, 97, 115, 109, 46, 105, 109, 112, 111, 114, 116, 46]))
  {
    hide Module, ImportVector, ExportVector;
    if Module(bytes).Some? {
      var sections := Module(bytes).value;
      FirstIsOnly(sections, 2);
      FirstIsOnly(sections, 7);
    }
  }

  lemma FirstIsOnly(sections: seq<Section>, kind: Byte)
    ensures Once(sections, kind) ==> forall i :: 0 <= i < |sections| && sections[i].kind == kind ==> i == Find(sections, {kind})
  {
  }

  /** The sections in which imports and exports are found. */
  lemma WhereTheyAre(bytes: seq<Byte>)
    requires Readable(bytes)
    ensures bytes[..8] == [0, 97, 115, 109, 1, 0, 0, 0]
    ensures var sections := Module(bytes).value;
            && (forall i :: 0 <= i < |sections| && sections[i].kind == 2 ==> ImportVector(sections[i].body) == ImportsOf(sections))
            && (forall i :: 0 <= i < |sections| && sections[i].kind == 7 ==> ExportVector(sections[i].body) == ExportsOf(sections))
            && ((forall i :: 0 <= i < |sections| ==> sections[i].kind != 2) ==> ImportsOf(sections) == Some([]))
            && ((forall i :: 0 <= i < |sections| ==> sections[i].kind != 7) ==> ExportsOf(sections) == Some([]))
  {
    hide ImportVector, ExportVector, Sections;
    FirstIsOnly(Module(bytes).value, 2);
    FirstIsOnly(Module(bytes).value, 7);
  }

  // `x` is the added export of import `o`: a function under the name "\0lasm.import." and the
  // ordinal in decimal digits, with the number of function imports before it as its index.
  predicate Adds(imports: seq<Import>, o: nat, x: Export) {
    && o < |imports| && imports[o].kind == 0 && x.kind == 0
    && x.name == [0, 108, 97, 115, 109, 46, 105, 109, 112, 111, 114, 116, 46] + Decimal(o)
    && x.index == |set p: nat | p < o && imports[p].kind == 0|
  }

  ghost predicate IsAdded(imports: seq<Import>, x: Export) {
    exists o: nat :: Adds(imports, o, x)
  }

  // Old exports, followed by one for every import with kind byte 0.
  ghost predicate Extends(imports: seq<Import>, before: seq<Export>, all: seq<Export>) {
    && |before| <= |all| && all[..|before|] == before
    && (forall k :: |before| <= k < |all| ==> IsAdded(imports, all[k]))
    && (forall o: nat :: o < |imports| && imports[o].kind == 0 ==> exists k :: |before| <= k < |all| && Adds(imports, o, all[k]))
  }

  lemma AddsOne(imports: seq<Import>, o: nat, x: Export)
    requires o < |imports| && imports[o].kind == 0 && x == Export(CanonicalName(o), 0, Functions(imports[..o]))
    ensures Adds(imports, o, x)
  {
    hide Functions, Decimal;
    FunctionsCount(imports, o);
    assert FunctionsBefore(imports, o) == set p: nat | p < o && imports[p].kind == 0;
  }

  lemma AddedOne(imports: seq<Import>, i: nat)
    requires i < |FunctionExports(imports)|
    ensures Adds(imports, FunctionExports(imports)[i].ordinal, AddedExports(FunctionExports(imports))[i])
  {
    hide FunctionExports, Functions, CanonicalName, Adds;
    AddedIsImported(imports, i);
    AddsOne(imports, FunctionExports(imports)[i].ordinal, AddedExports(FunctionExports(imports))[i]);
  }

  lemma ImportedOne(imports: seq<Import>, o: nat) returns (i: nat)
    requires o < |imports| && imports[o].kind == 0
    ensures i < |FunctionExports(imports)| && Adds(imports, o, AddedExports(FunctionExports(imports))[i])
  {
    hide FunctionExports, Functions, CanonicalName, Adds;
    ImportedIsAdded(imports, o);
    i := Functions(imports[..o]);
    AddsOne(imports, o, AddedExports(FunctionExports(imports))[i]);
  }

  lemma AddedExtend(imports: seq<Import>, before: seq<Export>)
    ensures Extends(imports, before, before + AddedExports(FunctionExports(imports)))
  {
    hide FunctionExports, Adds;
    var added := AddedExports(FunctionExports(imports));
    var all := before + added;
    assert all[..|before|] == before;
    forall k | |before| <= k < |all|
      ensures IsAdded(imports, all[k])
    {
      AddedOne(imports, k - |before|);
      assert all[k] == added[k - |before|];
    }
    forall o: nat | o < |imports| && imports[o].kind == 0
      ensures exists k :: |before| <= k < |all| && Adds(imports, o, all[k])
    {
      var i := ImportedOne(imports, o);
      assert all[|before| + i] == added[i];
    }
    assert all[..|before|] == before;
  }

  /** The output has a section of kind 7, and it holds the old exports followed by the new ones. */
  lemma NewExports(bytes: seq<Byte>, after: seq<Section>)
    requires Changes(bytes) && Module(Output(bytes)) == Some(after)
    ensures exists i :: 0 <= i < |after| && after[i].kind == 7
    ensures forall i :: 0 <= i < |after| && after[i].kind == 7 ==>
              && ExportVector(after[i].body).Some?
              && Extends(ImportsOf(Module(bytes).value).value, ExportsOf(Module(bytes).value).value, ExportVector(after[i].body).value)
  {
    hide Module, Find, ExportVector, FunctionExports, ImportsOf, Output, Fits, Without, Extends, AddedExports, Once;
    OnlyExportsChange(bytes);
    AddedExtend(ImportsOf(Module(bytes).value).value, ExportsOf(Module(bytes).value).value);
    OnlyOneVector(after);
    SomeAdded(Added(bytes));
    HasExports(after, ExportsOf(after).value);
  }

  lemma SomeAdded(added: seq<ImportExport>)
    ensures |AddedExports(added)| == |added|
  {
  }

  lemma OnlyOneVector(sections: seq<Section>)
    requires Once(sections, 7)
    ensures forall i :: 0 <= i < |sections| && sections[i].kind == 7 ==> ExportVector(sections[i].body) == ExportsOf(sections)
  {
    hide ExportVector;
    FirstIsOnly(sections, 7);
  }

  lemma HasExports(sections: seq<Section>, all: seq<Export>)
    requires ExportsOf(sections) == Some(all) && all != []
    ensures exists i :: 0 <= i < |sections| && sections[i].kind == 7
    ensures Find(sections, {7}) < |sections| && ExportVector(sections[Find(sections, {7})].body) == Some(all)
  {
    hide ExportVector;
  }

  /** The module is left alone exactly when no import has kind byte 0. */
  lemma ChangesWhen(bytes: seq<Byte>)
    requires Accepts(bytes)
    ensures Changes(bytes) <==> exists o :: 0 <= o < |ImportsOf(Module(bytes).value).value| && ImportsOf(Module(bytes).value).value[o].kind == 0
  {
    hide Module, FunctionExports, ImportsOf, Fits, Once, ExportsOf;
    var imports := ImportsOf(Module(bytes).value).value;
    AddedAreTheFunctionImports(imports);
    if o :| 0 <= o < |imports| && imports[o].kind == 0 {
      assert ImportExport(o, |set p: nat | p < o && imports[p].kind == 0|) in Added(bytes);
    }
  }

  /** A readable module with function imports is refused only for its size: when there were more
      exports than 32 bits count, when the new section would not leave room for 12 bytes behind
      the last added name in 32 bits, or when the output could not be addressed. */
  lemma RefusedWhen(bytes: seq<Byte>)
    requires Readable(bytes) && Added(bytes) != []
    ensures var exports, added := ExportsOf(Module(bytes).value).value, Added(bytes);
            var before := Payload(|exports| + |added|, OldEntries(Module(bytes).value), added[..|added| - 1]);
            Accepts(bytes) <==>
            && |exports| + |added| <= 0xFFFF_FFFF
            && |before| + 13 + |Decimal(added[|added| - 1].ordinal)| + 12 <= 0xFFFF_FFFF
            && |bytes| + |Body(bytes)| + 6 <= 0xFFFF_FFFF_FFFF_FFFF
  {
    hide Module, ExportsOf, OldEntries, FunctionExports, ImportsOf, Payload, Decimal, Body;
  }

  // ---- The added names ----

  /** Old and added names never collide, and no two added names are equal. */
  lemma AddedNamesAreFresh(bytes: seq<Byte>)
    requires Readable(bytes)
    ensures forall i, j :: 0 <= i < j < |AddedExports(Added(bytes))| ==>
              AddedExports(Added(bytes))[i].name != AddedExports(Added(bytes))[j].name
    ensures forall i, j :: 0 <= i < |ExportsOf(Module(bytes).value).value| && 0 <= j < |AddedExports(Added(bytes))| ==>
              ExportsOf(Module(bytes).value).value[i].name != AddedExports(Added(bytes))[j].name
  {
    hide FunctionExports, Decimal, Module, ExportsOf, ImportsOf, Once;
    var added := Added(bytes);
    var imports := ImportsOf(Module(bytes).value).value;
    forall i, j | 0 <= i < j < |added|
      ensures CanonicalName(added[i].ordinal) != CanonicalName(added[j].ordinal)
    {
      AddedInOrder(imports, i, j);
      NamesDiffer(added[i].ordinal, added[j].ordinal);
    }
    forall j | 0 <= j < |added|
      ensures Reserved(CanonicalName(added[j].ordinal))
    {
      var name := CanonicalName(added[j].ordinal);
      assert name[..|PREFIX|] == PREFIX;
    }
  }

  /** A transformed module is recognised and rejected. */
  lemma AppliedTwice(bytes: seq<Byte>)
    requires Changes(bytes)
    ensures !Accepts(Output(bytes))
  {
    hide Module, Without, Output, Decimal, Find, Once, FunctionExports, ExportVector, Fits, ImportVector;
    OnlyExportsChange(bytes);
    var added := Added(bytes);
    var before := ExportsOf(Module(bytes).value).value;
    var exports := ExportsOf(Module(Output(bytes)).value).value;
    var name := CanonicalName(added[0].ordinal);
    assert exports[|before|] == AddedExports(added)[0];
    assert name[..|PREFIX|] == PREFIX;
    assert Reserved(exports[|before|].name);
  }

  // ---- The order of sections ----

  // 5.5.2 (and, for tag sections, the exception-handling proposal): the place of each kind.
  function Rank(kind: Byte): nat {
    match kind
    case 1 => 1
    case 2 => 2
    case 3 => 3
    case 4 => 4
    case 5 => 5
    case 13 => 6
    case 6 => 7
    case 7 => 8
    case 8 => 9
    case 9 => 10
    case 12 => 11
    case 10 => 12
    case 11 => 13
    case _ => 0
  }

  // Custom sections anywhere; the others at most once and in order.
  predicate Ordered(sections: seq<Section>) {
    && (forall i :: 0 <= i < |sections| ==> sections[i].kind <= 13)
    && (forall i, j :: 0 <= i < j < |sections| && sections[i].kind != 0 && sections[j].kind != 0 ==>
          Rank(sections[i].kind) < Rank(sections[j].kind))
  }

  lemma LaterRanks(kind: Byte)
    requires 0 < kind <= 13
    ensures kind in LATER <==> Rank(kind) > 8
    ensures kind == 7 <==> Rank(kind) == 8
  {
  }

  lemma PlaceIsInOrder(sections: seq<Section>)
    requires Ordered(sections)
    ensures forall i :: 0 <= i < Place(sections).0 && sections[i].kind != 0 ==> Rank(sections[i].kind) < 8
    ensures forall i :: Place(sections).1 <= i < |sections| && sections[i].kind != 0 ==> Rank(sections[i].kind) > 8
  {
    hide Rank;
    var p := Place(sections);
    var e := Find(sections, {7});
    LaterRanks(7);
    forall i | 0 <= i < p.0 && sections[i].kind != 0
      ensures Rank(sections[i].kind) < 8
    {
      LaterRanks(sections[i].kind);
    }
    forall i | p.1 <= i < |sections| && sections[i].kind != 0
      ensures Rank(sections[i].kind) > 8
    {
      LaterRanks(sections[i].kind);
      if e == |sections| {
        assert p.0 < |sections| && sections[p.0].kind in LATER;
        LaterRanks(sections[p.0].kind);
      }
    }
  }

  /** The export section goes where the format wants it. */
  lemma OrderKept(sections: seq<Section>, body: seq<Byte>)
    requires Ordered(sections)
    ensures Ordered(Rewritten(sections, body))
  {
    hide Rank, Place;
    var p := Place(sections);
    var after := Rewritten(sections, body);
    LaterRanks(7);
    PlaceIsInOrder(sections);
    forall i | 0 <= i < |after|
      ensures i < p.0 ==> after[i] == sections[i]
      ensures i == p.0 ==> after[i].kind == 7
      ensures i > p.0 ==> p.1 + (i - p.0 - 1) < |sections| && after[i] == sections[p.1 + (i - p.0 - 1)]
    {
    }
    forall i, j | 0 <= i < j < |after| && after[i].kind != 0 && after[j].kind != 0
      ensures Rank(after[i].kind) < Rank(after[j].kind)
    {
      if i > p.0 {
        var k, l := p.1 + (i - p.0 - 1), p.1 + (j - p.0 - 1);
        assert Rank(sections[k].kind) < Rank(sections[l].kind);
      }
    }
  }
}
