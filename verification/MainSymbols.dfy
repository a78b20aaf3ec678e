/** Function pointers of the main module: the table is indexed, every exported function
    gets an entry, and a pointer looked up later names its function in every Store. */
module MainSymbols {
  import opened Bytes
  import opened WasmBinary
  import opened FunctionIndex

  const SIZE_MAX: nat := 0xFFFF_FFFF_FFFF_FFFF
  const SLOT_SIZE: nat := 16

  // Functions are numbered; a Store knows function `f` by the address `addresses[f]`.
  datatype Item = Function(f: nat) | Null | NotFunction

  datatype ExportKind = FunctionExport(f: nat) | OtherExport

  datatype Export = Export(name: seq<Byte>, kind: ExportKind)

  ghost predicate Addresses(addresses: seq<nat>) {
    && (forall f :: 0 <= f < |addresses| ==> addresses[f] != 0)
    && (forall f, g :: 0 <= f < g < |addresses| ==> addresses[f] != addresses[g])
  }

  ghost predicate Known(addresses: seq<nat>, table: seq<Item>, exports: seq<Export>) {
    && (forall i :: 0 <= i < |table| && table[i].Function? ==> table[i].f < |addresses|)
    && (forall i :: 0 <= i < |exports| && exports[i].kind.FunctionExport? ==> exports[i].kind.f < |addresses|)
    && (forall i, j :: 0 <= i < j < |exports| ==> exports[i].name != exports[j].name)
  }

  predicate Wanted(e: Export) { e.kind.FunctionExport? && 0 !in e.name }

  // The functions exported under a C string but not in the table, in the order of their first export.
  function Pending(table: seq<Item>, exports: seq<Export>): (r: seq<nat>)
    ensures |r| <= |exports|
  {
    if exports == [] then []
    else
      var n := |exports| - 1;
      var before := Pending(table, exports[..n]);
      var e := exports[n];
      if Wanted(e) && Function(e.kind.f) !in table && e.kind.f !in before then before + [e.kind.f] else before
  }

  function Functions(fs: seq<nat>): (r: seq<Item>)
    ensures |r| == |fs|
    ensures forall i :: 0 <= i < |fs| ==> r[i] == Function(fs[i])
  {
    seq(|fs|, i requires 0 <= i < |fs| => Function(fs[i]))
  }

  // Each function of the table is indexed under its address, with its last entry.
  ghost predicate Indexed(m: map<nat, nat>, addresses: seq<nat>, table: seq<Item>) {
    && (forall f :: 0 <= f < |addresses| ==> (addresses[f] in m <==> Function(f) in table))
    && (forall f :: 0 <= f < |addresses| && addresses[f] in m ==> LastEntry(table, f, m[addresses[f]]))
    && |m| <= |table|
  }

  predicate LastEntry(table: seq<Item>, f: nat, p: nat) {
    && p < |table| && table[p] == Function(f)
    && forall q :: p < q < |table| ==> table[q] != Function(f)
  }

  // ---- What the index is for ----

  /** Two pointers are equal exactly when they are of one function. */
  lemma PointersIdentify(m: map<nat, nat>, addresses: seq<nat>, table: seq<Item>, f: nat, g: nat)
    requires Indexed(m, addresses, table) && f < |addresses| && g < |addresses|
    requires addresses[f] in m && addresses[g] in m
    ensures m[addresses[f]] == m[addresses[g]] <==> f == g
  {
    assert LastEntry(table, f, m[addresses[f]]) && LastEntry(table, g, m[addresses[g]]);
  }

  /** Stores that load one module agree on every pointer, whatever addresses they use. */
  lemma StoresAgree(m: map<nat, nat>, n: map<nat, nat>, a: seq<nat>, b: seq<nat>, table: seq<Item>, f: nat)
    requires Indexed(m, a, table) && Indexed(n, b, table) && |a| == |b| && f < |a|
    ensures a[f] in m <==> b[f] in n
    ensures a[f] in m ==> m[a[f]] == n[b[f]]
  {
    if a[f] in m {
      assert LastEntry(table, f, m[a[f]]) && LastEntry(table, f, n[b[f]]);
    }
  }

  predicate Exported(exports: seq<Export>, f: nat) {
    exists i :: 0 <= i < |exports| && Wanted(exports[i]) && exports[i].kind.f == f
  }

  lemma ExportedStep(exports: seq<Export>, f: nat)
    requires exports != []
    ensures var n := |exports| - 1;
            Exported(exports, f) <==> Exported(exports[..n], f) || (Wanted(exports[n]) && exports[n].kind.f == f)
  {
    var init := exports[..|exports| - 1];
    assert forall i :: 0 <= i < |init| ==> init[i] == exports[i];
  }

  // The entries added are the functions missing from the table.
  lemma {:induction false} PendingMeans(table: seq<Item>, exports: seq<Export>, f: nat)
    ensures f in Pending(table, exports) <==>
            Function(f) !in table && exists i :: 0 <= i < |exports| && exports[i].kind == FunctionExport(f) && 0 !in exports[i].name
  {
    ExportedMeans(exports, f);
    if exports != [] {
      PendingMeans(table, exports[..|exports| - 1], f);
      ExportedStep(exports, f);
    }
  }

  lemma ExportedMeans(exports: seq<Export>, f: nat)
    ensures Exported(exports, f) <==> exists i :: 0 <= i < |exports| && exports[i].kind == FunctionExport(f) && 0 !in exports[i].name
  {
  }

  // They come in the order of their first exports.
  lemma {:induction false} PendingInOrder(table: seq<Item>, exports: seq<Export>, i: nat, j: nat)
    requires i < j < |Pending(table, exports)|
    ensures exists a :: 0 <= a < |exports| && exports[a].kind == FunctionExport(Pending(table, exports)[i]) && 0 !in exports[a].name
              && forall b :: 0 <= b <= a && exports[b].kind == FunctionExport(Pending(table, exports)[j]) ==> 0 in exports[b].name
  {
    hide Exported;
    var n := |exports| - 1;
    var init := exports[..n];
    var before := Pending(table, init);
    assert forall k :: 0 <= k < n ==> init[k] == exports[k];
    if j < |before| {
      PendingInOrder(table, init, i, j);
      var a :| 0 <= a < |init| && init[a].kind == FunctionExport(before[i]) && 0 !in init[a].name
        && forall b :: 0 <= b <= a && init[b].kind == FunctionExport(before[j]) ==> 0 in init[b].name;
      assert exports[a] == init[a];
    } else {
      PendingMeans(table, init, before[i]);
      PendingMeans(table, init, exports[n].kind.f);
      assert before[i] in before;
      var a :| 0 <= a < |init| && init[a].kind == FunctionExport(before[i]) && 0 !in init[a].name;
      assert exports[a] == init[a];
    }
  }

  // None is added twice.
  lemma {:induction false} PendingOnce(table: seq<Item>, exports: seq<Export>)
    ensures forall i, j :: 0 <= i < j < |Pending(table, exports)| ==> Pending(table, exports)[i] != Pending(table, exports)[j]
  {
    if exports != [] {
      PendingOnce(table, exports[..|exports| - 1]);
    }
  }

  // One more entry at the end of the table.
  lemma IndexedSnoc(m: map<nat, nat>, addresses: seq<nat>, table: seq<Item>, item: Item)
    requires Addresses(addresses) && Indexed(m, addresses, table)
    requires item.Function? ==> item.f < |addresses|
    ensures Indexed(if item.Function? then m[addresses[item.f] := |table|] else m, addresses, table + [item])
  {
    var after := table + [item];
    var n := if item.Function? then m[addresses[item.f] := |table|] else m;
    assert after[|table|] == item;
    assert forall i :: 0 <= i < |table| ==> after[i] == table[i];
    assert item.Function? ==> n.Keys == m.Keys + {addresses[item.f]};
    forall f | 0 <= f < |addresses|
      ensures addresses[f] in n <==> Function(f) in after
      ensures addresses[f] in n ==> LastEntry(after, f, n[addresses[f]])
    {
      if item != Function(f) {
        assert addresses[f] in n <==> addresses[f] in m;
        assert addresses[f] in m ==> LastEntry(table, f, m[addresses[f]]) && n[addresses[f]] == m[addresses[f]];
      }
    }
  }

  // The most entries whose index can be allocated: 2^58.
  const MOST_ENTRIES: nat := 0x400_0000_0000_0000

  lemma Pow2Is59()
    ensures Pow2(59) == 2 * MOST_ENTRIES
  {
    Pow2Split(59); Pow2Split(52); Pow2Split(45); Pow2Split(38); Pow2Split(31); Pow2Split(24); Pow2Split(17); Pow2Split(10);
  }

  /** After preparation, looking up any function exported under a C string succeeds. */
  lemma EveryExportHasAnEntry(table: seq<Item>, exports: seq<Export>, e: Export)
    requires e in exports && e.kind.FunctionExport? && 0 !in e.name
    ensures Function(e.kind.f) in table + Functions(Pending(table, exports))
  {
    hide Pending;
    PendingMeans(table, exports, e.kind.f);
    InTable(table, Pending(table, exports), e.kind.f);
  }

  // The table after preparation: the old entries, and behind them the functions that had none.
  ghost predicate Extends(before: seq<Item>, exports: seq<Export>, after: seq<Item>) {
    && |before| <= |after| && after[..|before|] == before
    && (forall k :: |before| <= k < |after| ==>
          && after[k].Function? && after[k] !in after[..k]
          && exists i :: 0 <= i < |exports| && exports[i].kind == FunctionExport(after[k].f) && 0 !in exports[i].name)
    && (forall i :: 0 <= i < |exports| && exports[i].kind.FunctionExport? && 0 !in exports[i].name ==>
          Function(exports[i].kind.f) in after)
  }

  lemma PreparedExtends(before: seq<Item>, exports: seq<Export>)
    ensures Extends(before, exports, before + Functions(Pending(before, exports)))
  {
    hide Pending, Exported;
    var pending := Pending(before, exports);
    var after := before + Functions(pending);
    PendingOnce(before, exports);
    assert after[..|before|] == before;
    forall k | |before| <= k < |after|
      ensures after[k].Function? && after[k] !in after[..k]
      ensures exists i :: 0 <= i < |exports| && exports[i].kind == FunctionExport(after[k].f) && 0 !in exports[i].name
    {
      var f := pending[k - |before|];
      assert after[k] == Function(f) && f in pending;
      PendingMeans(before, exports, f);
      forall j | 0 <= j < k
        ensures after[j] != after[k]
      {
        assert j < |before| ==> after[j] == before[j];
        assert j >= |before| ==> after[j] == Function(pending[j - |before|]);
      }
    }
    forall i | 0 <= i < |exports| && exports[i].kind.FunctionExport? && 0 !in exports[i].name
      ensures Function(exports[i].kind.f) in after
    {
      EveryExportHasAnEntry(before, exports, exports[i]);
    }
  }

  class Probe {
    const addresses: seq<nat>
    const limit: nat
    var table: seq<Item>
    var functions: Index?
    var mainTableSize: nat

    constructor (addresses: seq<nat>, table: seq<Item>, limit: nat)
      requires |table| <= limit
      ensures this.addresses == addresses && this.table == table && this.limit == limit && functions == null
    {
      this.addresses, this.table, this.limit := addresses, table, limit;
      functions, mainTableSize := null, 0;
    }

    // Twice as many slots as there can be entries, and a power of two.
    static method Capacity(entries: nat) returns (ok: bool, bits: nat)
      ensures ok ==> entries < Pow2(bits) && entries * 2 <= Pow2(bits)
      ensures ok <==> entries <= MOST_ENTRIES
    {
      var slots;
      slots, bits := 2, 1;
      Pow2Is59();
      while slots < entries * 2
        invariant 1 <= bits <= 59 && slots == Pow2(bits) && slots >= 2
        decreases entries * 2 - slots
      {
        Pow2Mono(bits, 59);
        if slots > SIZE_MAX / 2 / SLOT_SIZE {
          return false, bits;
        }
        slots, bits := slots * 2, bits + 1;
      }
      Pow2Mono(bits, 59);
      return true, bits;
    }

    ghost predicate Prepared()
      reads this, functions, if functions != null then {functions.slots} else {}
    {
      functions != null && functions.Valid() && Indexed(functions.contents, addresses, table) && mainTableSize == |table|
    }

    /** On success every function exported under a C string has an entry, the entries that
        were there are unchanged, and each function's pointer is its last entry. */
    method Prepare(exports: seq<Export>) returns (ok: bool)
      requires Addresses(addresses) && Known(addresses, table, exports)
      modifies this
      ensures ok ==> Prepared() && fresh(functions) && fresh(functions.slots)
      ensures ok ==> table == old(table) + Functions(Pending(old(table), exports))
      ensures ok ==> Extends(old(table), exports, table)
      ensures !ok ==> table == old(table)
      ensures ok <==>
                && |old(table)| + |exports| <= 0x400_0000_0000_0000 && NotFunction !in old(table)
                && (Pending(old(table), exports) != [] ==> |old(table)| + |Pending(old(table), exports)| <= limit)
    {
      PreparedExtends(table, exports);
      hide Pending, Indexed, Agrees, Addresses, Extends;
      var size := |table|;
      if size > SIZE_MAX / 4 || |exports| > SIZE_MAX / 4 {
        return false;
      }
      var bits;
      ok, bits := Capacity(size + |exports|);
      if !ok {
        return false;
      }
      functions := new Index(bits);
      ok := IndexTable(functions, size);
      if !ok {
        return false;
      }
      var pending := IndexExports(functions, exports);
      if |pending| > 0 {
        if |table| + |pending| > limit {
          return false;
        }
        Grow(pending);
      } else {
        assert table + Functions(pending) == table;
      }
      mainTableSize := |table|;
      return true;
    }

    // Grown once with null entries, which are then set.
    method Grow(pending: seq<nat>)
      modifies this`table
      ensures table == old(table) + Functions(pending)
    {
      var size := |table|;
      table := table + seq(|pending|, _ => Null);
      for index := 0 to |pending|
        invariant |table| == size + |pending| && table[..size] == old(table)
        invariant forall i :: 0 <= i < index ==> table[size + i] == Function(pending[i])
      {
        table := table[size + index := Function(pending[index])];
      }
      assert table == table[..size] + table[size..];
      assert table[size..] == Functions(pending);
    }

    // Match the last table entry for a function that has several.
    method IndexTable(index: Index, size: nat) returns (ok: bool)
      requires Addresses(addresses) && forall i :: 0 <= i < |table| && table[i].Function? ==> table[i].f < |addresses|
      requires index.Valid() && index.contents == map[] && size == |table| < Pow2(index.bits)
      modifies index, index.slots
      ensures index.Valid()
      ensures ok ==> Indexed(index.contents, addresses, table)
      ensures ok <==> NotFunction !in table
    {
      hide Indexed, Stops, Agrees;
      NothingIndexed(addresses);
      for i := 0 to size
        invariant index.Valid() && |index.contents| <= i && Indexed(index.contents, addresses, table[..i])
        invariant NotFunction !in table[..i]
      {
        assert table[..i + 1] == table[..i] + [table[i]];
        IndexedSnoc(index.contents, addresses, table[..i], table[i]);
        if table[i].NotFunction? {
          return false;
        }
        if table[i].Function? {
          var identity := addresses[table[i].f];
          var slot, d := index.Find(identity);
          index.Put(slot, d, identity, i);
        }
      }
      assert table[..size] == table;
      return true;
    }

    method IndexExports(index: Index, exports: seq<Export>) returns (pending: seq<nat>)
      requires Addresses(addresses) && Known(addresses, table, exports)
      requires index.Valid() && Indexed(index.contents, addresses, table) && |table| + |exports| < Pow2(index.bits)
      modifies index, index.slots
      ensures index.Valid() && pending == Pending(table, exports)
      ensures Indexed(index.contents, addresses, table + Functions(pending))
    {
      hide Indexed, Stops, Agrees;
      pending := [];
      assert table + Functions([]) == table;
      for i := 0 to |exports|
        invariant index.Valid() && pending == Pending(table, exports[..i])
        invariant Indexed(index.contents, addresses, table + Functions(pending))
      {
        var e := exports[i];
        assert exports[..i + 1][..i] == exports[..i];
        if e.kind.FunctionExport? && 0 !in e.name {
          var identity := addresses[e.kind.f];
          var slot, d := index.Find(identity);
          IndexedMeans(index.contents, addresses, table + Functions(pending), e.kind.f);
          InTable(table, pending, e.kind.f);
          if index.slots[slot].identity == 0 {
            IndexedSnoc(index.contents, addresses, table + Functions(pending), Function(e.kind.f));
            assert table + Functions(pending + [e.kind.f]) == (table + Functions(pending)) + [Function(e.kind.f)];
            index.Put(slot, d, identity, |table| + |pending|);
            pending := pending + [e.kind.f];
          }
        }
      }
      assert exports[..|exports|] == exports;
    }

    // The function branch of a lookup in the main module.
    method Lookup(exports: seq<Export>, name: seq<Byte>) returns (found: bool, pointer: nat)
      requires Addresses(addresses) && Known(addresses, table, exports) && Prepared()
      ensures found ==>
                && pointer < |table| && table[pointer].Function? && table[pointer] !in table[pointer + 1..]
                && exists i :: 0 <= i < |exports| && exports[i].name == name && exports[i].kind == FunctionExport(table[pointer].f)
      ensures !found ==> pointer == 0 && forall e :: e in exports && e.name == name && e.kind.FunctionExport? ==> Function(e.kind.f) !in table
    {
      hide Stops, Agrees;
      for i := 0 to |exports|
        invariant forall j :: 0 <= j < i ==> exports[j].name != name
      {
        if exports[i].name == name {
          if exports[i].kind.FunctionExport? {
            var slot, d := functions.Find(addresses[exports[i].kind.f]);
            if functions.slots[slot].identity != 0 {
              IsLast(table, exports[i].kind.f, functions.slots[slot].pointer);
              return true, functions.slots[slot].pointer;
            }
          }
          return false, 0;
        }
      }
      return false, 0;
    }
  }

  lemma IsLast(table: seq<Item>, f: nat, p: nat)
    requires LastEntry(table, f, p)
    ensures p < |table| && table[p] == Function(f) && table[p] !in table[p + 1..]
  {
  }

  lemma NothingIndexed(addresses: seq<nat>)
    ensures Indexed(map[], addresses, [])
  {
  }

  lemma IndexedMeans(m: map<nat, nat>, addresses: seq<nat>, table: seq<Item>, f: nat)
    requires Indexed(m, addresses, table) && f < |addresses|
    ensures addresses[f] in m <==> Function(f) in table
    ensures |m| <= |table|
  {
  }

  lemma InTable(table: seq<Item>, pending: seq<nat>, f: nat)
    ensures Function(f) in table + Functions(pending) <==> Function(f) in table || f in pending
  {
    var all := table + Functions(pending);
    if f in pending {
      var i :| 0 <= i < |pending| && pending[i] == f;
      assert all[|table| + i] == Function(f);
    }
    if Function(f) in table {
      var i :| 0 <= i < |table| && table[i] == Function(f);
      assert all[i] == Function(f);
    }
  }
}
