/** The open-addressing index from function identities to function pointers: bits of the
    hash, probing, and a hash table that agrees with a map. */
module FunctionIndex {
  import opened Bytes
  import opened WasmBinary

  // ---- Bits of unsigned machine words ----

  function And(a: nat, b: nat): (r: nat)
    ensures r <= b
  {
    if a == 0 || b == 0 then 0 else 2 * And(a / 2, b / 2) + (a % 2) * (b % 2)
  }

  function Xor(a: nat, b: nat): nat {
    if a == 0 then b else if b == 0 then a else 2 * Xor(a / 2, b / 2) + (a + b) % 2
  }

  // A mask of ones below a power of two is a remainder.
  lemma {:induction false} AndMask(a: nat, k: nat)
    ensures And(a, Pow2(k) - 1) == a % Pow2(k)
    decreases k
  {
    if k == 0 || a == 0 {
      NoMask(a, k);
    } else {
      hide And, Pow2;
      AndMask(a / 2, k - 1);
      PowDoubles(k);
      MaskStep(a, Pow2(k - 1), Pow2(k));
    }
  }

  lemma NoMask(a: nat, k: nat)
    requires k == 0 || a == 0
    ensures And(a, Pow2(k) - 1) == a % Pow2(k)
  {
    if k == 0 {
      AndNothing(a, 0);
    } else {
      hide And;
      AndNothing(a, Pow2(k) - 1);
      ZeroRemainder(Pow2(k));
    }
  }

  lemma AndNothing(a: nat, b: nat)
    requires a == 0 || b == 0
    ensures And(a, b) == 0
  {
  }

  lemma ZeroRemainder(n: nat)
    requires n > 0
    ensures 0 % n == 0
  {
  }

  lemma PowDoubles(k: nat)
    requires k > 0
    ensures Pow2(k) == 2 * Pow2(k - 1)
  {
  }

  lemma MaskStep(a: nat, m: nat, n: nat)
    requires a > 0 && m > 0 && n == 2 * m && And(a / 2, m - 1) == a / 2 % m
    ensures And(a, n - 1) == a % n
  {
    hide And;
    AndOdd(a, m - 1);
    HalfRemainder(a, m);
  }

  lemma AndOdd(a: nat, b: nat)
    requires a > 0
    ensures And(a, 2 * b + 1) == 2 * And(a / 2, b) + a % 2
  {
    assert (2 * b + 1) / 2 == b && (2 * b + 1) % 2 == 1;
    AndUnfolds(a, 2 * b + 1);
    hide And;
  }

  lemma AndUnfolds(a: nat, b: nat)
    requires a > 0 && b > 0
    ensures And(a, b) == 2 * And(a / 2, b / 2) + (a % 2) * (b % 2)
  {
  }

  lemma HalfRemainder(a: nat, m: nat)
    requires m > 0
    ensures a % (2 * m) == 2 * (a / 2 % m) + a % 2
  {
    var q, r := a / 2 / m, a / 2 % m;
    assert a / 2 == q * m + r;
    assert a == (2 * m) * q + (2 * r + a % 2) by {
      assert (2 * m) * q == 2 * (q * m);
    }
    RemainderOf(2 * m, q, 2 * r + a % 2);
  }

  lemma RemainderOf(m: nat, q: nat, r: nat)
    requires r < m
    ensures (m * q + r) % m == r
  {
    var x := m * q + r;
    assert x / m == q by {
      assert x - m * q == r;
      QuotientOf(x, m, q);
    }
  }

  lemma QuotientOf(x: nat, m: nat, q: nat)
    requires m > 0 && 0 <= x - m * q < m
    ensures x / m == q && x % m == x - m * q
  {
    var p := x / m;
    assert x == m * p + x % m;
    Multiples(m, p, q);
    Multiples(m, q, p);
  }

  lemma {:induction false} Multiples(m: nat, p: nat, q: nat)
    ensures p > q ==> m * p >= m * q + m
    decreases p
  {
    if p > q + 1 {
      Multiples(m, p - 1, q);
      assert m * p == m * (p - 1) + m;
    } else if p == q + 1 {
      assert m * (q + 1) == m * q + m;
    }
  }

  // The 64-bit finaliser that spreads an address over all bits.
  function Hash(identity: nat): nat {
    var a := Xor(identity, identity / 0x2_0000_0000);
    var b := a * 0xff51_afd7_ed55_8ccd % WORD;
    Xor(b, b / 0x2_0000_0000)
  }

  // ---- Probing ----

  datatype Slot = Slot(identity: nat, pointer: nat)

  function Home(identity: nat, capacity: nat): (r: nat)
    requires capacity > 0
    ensures r < capacity
  {
    And(Hash(identity), capacity - 1)
  }

  // The `d`-th slot of a probe that starts at `home`.
  function At(home: nat, d: nat, capacity: nat): (r: nat)
    requires home < capacity && d < capacity
    ensures r < capacity
  {
    if home + d < capacity then home + d else home + d - capacity
  }

  lemma ProbeMoves(home: nat, d: nat, k: nat)
    requires home < Pow2(k) && d < Pow2(k)
    ensures And(At(home, d, Pow2(k)) + 1, Pow2(k) - 1) ==
            if At(home, d, Pow2(k)) + 1 == Pow2(k) then 0 else At(home, d, Pow2(k)) + 1
  {
    hide And, Pow2, At;
    NextMasked(At(home, d, Pow2(k)), k);
  }

  lemma NextMasked(i: nat, k: nat)
    requires i < Pow2(k)
    ensures And(i + 1, Pow2(k) - 1) == if i + 1 == Pow2(k) then 0 else i + 1
  {
    hide And, Pow2;
    AndMask(i + 1, k);
    if i + 1 < Pow2(k) {
      QuotientOf(i + 1, Pow2(k), 0);
    } else {
      QuotientOf(Pow2(k), Pow2(k), 1);
    }
  }

  // Every slot is on every probe.
  lemma Reachable(home: nat, i: nat, capacity: nat) returns (d: nat)
    requires home < capacity && i < capacity
    ensures d < capacity && At(home, d, capacity) == i
  {
    d := if i >= home then i - home else i + capacity - home;
  }

  // `x` is found before any free slot.
  predicate Chained(s: seq<Slot>, x: nat, d: nat) {
    && d < |s|
    && s[At(Home(x, |s|), d, |s|)].identity == x
    && forall e :: 0 <= e < d ==> s[At(Home(x, |s|), e, |s|)].identity != 0
  }

  ghost predicate Agrees(s: seq<Slot>, m: map<nat, nat>) {
    && |m| < |s| && 0 !in m
    && (forall i :: 0 <= i < |s| && s[i].identity != 0 ==> s[i].identity in m && s[i].pointer == m[s[i].identity])
    && (forall i, j :: 0 <= i < j < |s| && s[i].identity != 0 ==> s[i].identity != s[j].identity)
    && (forall x :: x in m ==> exists d :: Chained(s, x, d))
  }

  lemma {:induction false} Distinct(s: seq<nat>, keys: set<nat>)
    requires forall i :: 0 <= i < |s| ==> s[i] in keys
    requires forall i, j :: 0 <= i < j < |s| ==> s[i] != s[j]
    ensures |s| <= |keys|
  {
    if s != [] {
      var n := |s| - 1;
      Distinct(s[..n], keys - {s[n]});
    }
  }

  // There is always a free slot, so every probe ends.
  lemma FreeSlot(s: seq<Slot>, m: map<nat, nat>) returns (i: nat)
    requires Agrees(s, m)
    ensures i < |s| && s[i].identity == 0
  {
    if forall k :: 0 <= k < |s| ==> s[k].identity != 0 {
      var ids := seq(|s|, k requires 0 <= k < |s| => s[k].identity);
      Distinct(ids, m.Keys);
      assert false;
    }
    i :| 0 <= i < |s| && s[i].identity == 0;
  }

  // Where a probe for `x` stops.
  ghost predicate Stops(s: seq<Slot>, x: nat, d: nat) {
    && d < |s|
    && s[At(Home(x, |s|), d, |s|)].identity in {0, x}
    && forall e :: 0 <= e < d ==> s[At(Home(x, |s|), e, |s|)].identity !in {0, x}
  }

  // It stops at `x` exactly when `x` is in the map.
  lemma StopsRight(s: seq<Slot>, m: map<nat, nat>, x: nat, d: nat)
    requires Agrees(s, m) && x != 0 && Stops(s, x, d)
    ensures s[At(Home(x, |s|), d, |s|)].identity == if x in m then x else 0
    ensures x in m ==> s[At(Home(x, |s|), d, |s|)].pointer == m[x]
  {
    hide Home, At;
  }

  lemma ChainKept(s: seq<Slot>, m: map<nat, nat>, x: nat, p: nat, d: nat, y: nat) returns (c: nat)
    requires Agrees(s, m) && x != 0 && Stops(s, x, d) && (y == x || y in m)
    ensures Chained(s[At(Home(x, |s|), d, |s|) := Slot(x, p)], y, c)
  {
    hide Home, At;
    var t := s[At(Home(x, |s|), d, |s|) := Slot(x, p)];
    if y == x {
      c := d;
    } else {
      c :| Chained(s, y, c);
      StopsRight(s, m, x, d);
    }
  }

  lemma Filled(s: seq<Slot>, m: map<nat, nat>, x: nat, p: nat, d: nat)
    requires Agrees(s, m) && x != 0 && Stops(s, x, d)
    requires x !in m ==> |m| + 1 < |s|
    ensures Agrees(s[At(Home(x, |s|), d, |s|) := Slot(x, p)], m[x := p])
  {
    hide Home, At, Chained;
    StopsRight(s, m, x, d);
    var i := At(Home(x, |s|), d, |s|);
    var t := s[i := Slot(x, p)];
    var n := m[x := p];
    assert n.Keys == m.Keys + {x};
    forall y | y in n
      ensures exists c :: Chained(t, y, c)
    {
      var c := ChainKept(s, m, x, p, d, y);
    }
    forall j | 0 <= j < |t| && j != i && t[j].identity != 0
      ensures t[j].identity != x
    {
      if t[j].identity == x {
        assert false;
      }
    }
  }

  class Index {
    const bits: nat
    const slots: array<Slot>
    ghost var contents: map<nat, nat>

    ghost predicate Valid()
      reads this, slots
    {
      slots.Length == Pow2(bits) && Agrees(slots[..], contents)
    }

    constructor (bits: nat)
      ensures Valid() && contents == map[] && this.bits == bits && fresh(slots)
    {
      this.bits := bits;
      slots := new Slot[Pow2(bits)](_ => Slot(0, 0));
      contents := map[];
    }

    // The slot that holds the identity, or the free one where it belongs.
    method Find(identity: nat) returns (index: nat, ghost d: nat)
      requires Valid() && identity != 0
      ensures Stops(slots[..], identity, d) && index == At(Home(identity, slots.Length), d, slots.Length)
      ensures slots[index].identity == if identity in contents then identity else 0
      ensures identity in contents ==> slots[index].pointer == contents[identity]
    {
      hide Home, Agrees, And, Pow2;
      ghost var s := slots[..];
      ghost var free := FreeSlot(s, contents);
      ghost var bound := Reachable(Home(identity, slots.Length), free, slots.Length);
      index, d := Home(identity, slots.Length), 0;
      while slots[index].identity != 0 && slots[index].identity != identity
        invariant d <= bound && index == At(Home(identity, slots.Length), d, slots.Length)
        invariant forall e :: 0 <= e < d ==> s[At(Home(identity, |s|), e, |s|)].identity !in {0, identity}
        decreases bound - d
      {
        assert d < bound;
        ProbeMoves(Home(identity, slots.Length), d, bits);
        index := And(index + 1, slots.Length - 1);
        d := d + 1;
      }
      StopsRight(s, contents, identity, d);
    }

    method Put(index: nat, ghost d: nat, identity: nat, pointer: nat)
      requires Valid() && identity != 0
      requires Stops(slots[..], identity, d) && index == At(Home(identity, slots.Length), d, slots.Length)
      requires identity !in contents ==> |contents| + 1 < slots.Length
      modifies this, slots
      ensures Valid() && contents == old(contents)[identity := pointer]
    {
      hide Home, At, Agrees, Stops;
      Filled(slots[..], contents, identity, pointer, d);
      slots[index] := Slot(identity, pointer);
      contents := contents[identity := pointer];
      assert slots[..] == old(slots[..])[index := Slot(identity, pointer)];
    }
  }
}
