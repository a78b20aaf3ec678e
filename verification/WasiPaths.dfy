/** Paths over the preopened directories: normal forms computed in a buffer with
    backtracking, and the preopened directory that contains a path. */
module WasiPaths {
  import opened Bytes
  import opened Wrappers
  import opened WasiFiles

  const SLASH: Byte := 47
  const DOT: Byte := 46

  // ---- Components ----

  // The pieces between slashes; empty ones do not count.
  function Parts(s: seq<Byte>): seq<seq<Byte>> {
    if s == [] then []
    else if s[0] == SLASH then Parts(s[1..])
    else
      var n := IndexOf(s, SLASH);
      [s[..n]] + Parts(s[n..])
  }

  // "." stays, ".." goes up (and stays at the root), anything else goes down.
  function Enter(at: seq<seq<Byte>>, part: seq<Byte>): seq<seq<Byte>> {
    if part == [DOT] then at
    else if part == [DOT, DOT] then (if at == [] then [] else at[..|at| - 1])
    else at + [part]
  }

  function Walk(at: seq<seq<Byte>>, parts: seq<seq<Byte>>): seq<seq<Byte>> {
    if parts == [] then at else Enter(Walk(at, parts[..|parts| - 1]), parts[|parts| - 1])
  }

  predicate Proper(part: seq<Byte>) {
    part != [] && SLASH !in part && 0 !in part && part != [DOT] && part != [DOT, DOT]
  }

  predicate AllProper(parts: seq<seq<Byte>>) { forall i :: 0 <= i < |parts| ==> Proper(parts[i]) }

  // Each component behind a slash.
  function Slashed(parts: seq<seq<Byte>>): seq<Byte> {
    if parts == [] then [] else Slashed(parts[..|parts| - 1]) + ([SLASH] + parts[|parts| - 1])
  }

  // Slashes between components only.
  function Joined(parts: seq<seq<Byte>>): seq<Byte> {
    if parts == [] then [] else Slashed(parts)[1..]
  }

  // A normal path: "/a/b" or "./a/b".
  function Normal(rooted: bool, parts: seq<seq<Byte>>): seq<Byte> {
    if rooted then (if parts == [] then [SLASH] else Slashed(parts)) else [DOT] + Slashed(parts)
  }

  ghost predicate IsNormal(s: seq<Byte>) {
    exists rooted, parts :: AllProper(parts) && s == Normal(rooted, parts)
  }

  // What a C string of these bytes is.
  function Text(s: seq<Byte>): (r: seq<Byte>)
    ensures 0 !in r
  {
    s[..IndexOf(s, 0)]
  }

  // ---- Laws of components ----

  lemma {:induction false} PartsAcross(a: seq<Byte>, b: seq<Byte>)
    ensures Parts(a + [SLASH] + b) == Parts(a) + Parts(b)
    decreases |a|
  {
    var s := a + [SLASH] + b;
    if a == [] {
      assert s[1..] == b;
    } else if a[0] == SLASH {
      assert s[1..] == a[1..] + [SLASH] + b;
      PartsAcross(a[1..], b);
    } else {
      hide Parts;
      PartsAcross(a[IndexOf(a, SLASH)..], b);
      PartAcross(a, b, s);
    }
  }

  lemma PartAcross(a: seq<Byte>, b: seq<Byte>, s: seq<Byte>)
    requires a != [] && a[0] != SLASH && s == a + [SLASH] + b
    requires Parts(a[IndexOf(a, SLASH)..] + [SLASH] + b) == Parts(a[IndexOf(a, SLASH)..]) + Parts(b)
    ensures Parts(s) == Parts(a) + Parts(b)
  {
    var n := IndexOf(a, SLASH);
    SlashStays(a, b, s);
    FirstPart(s);
    FirstPart(a);
    hide Parts, IndexOf;
    Together(a[..n], Parts(a[n..]), Parts(b));
  }

  lemma SlashStays(a: seq<Byte>, b: seq<Byte>, s: seq<Byte>)
    requires a != [] && a[0] != SLASH && s == a + [SLASH] + b
    ensures s[0] == a[0] && IndexOf(s, SLASH) == IndexOf(a, SLASH)
    ensures s[..IndexOf(a, SLASH)] == a[..IndexOf(a, SLASH)]
    ensures s[IndexOf(a, SLASH)..] == a[IndexOf(a, SLASH)..] + [SLASH] + b
  {
    ghost var n := IndexOf(a, SLASH);
    hide IndexOf;
    Cut(a, b, s, n);
    IndexIs(s, SLASH, n);
  }

  lemma Cut(a: seq<Byte>, b: seq<Byte>, s: seq<Byte>, n: nat)
    requires n <= |a| && s == a + [SLASH] + b
    ensures n < |s| && s[..n] == a[..n] && s[n..] == a[n..] + [SLASH] + b
    ensures s[n] == if n < |a| then a[n] else SLASH
    ensures forall i :: 0 <= i < n ==> s[i] == a[i]
  {
  }

  lemma Together(part: seq<Byte>, x: seq<seq<Byte>>, y: seq<seq<Byte>>)
    ensures [part] + (x + y) == ([part] + x) + y
  {
  }

  lemma FirstPart(s: seq<Byte>)
    requires s != [] && s[0] != SLASH
    ensures Parts(s) == [s[..IndexOf(s, SLASH)]] + Parts(s[IndexOf(s, SLASH)..])
  {
  }

  lemma IndexIs(s: seq<Byte>, b: Byte, n: nat)
    requires n < |s| && s[n] == b && forall i :: 0 <= i < n ==> s[i] != b
    ensures IndexOf(s, b) == n
  {
  }

  lemma OnePart(part: seq<Byte>)
    requires part != [] && SLASH !in part
    ensures Parts(part) == [part]
  {
    var n := IndexOf(part, SLASH);
    assert part[..|part|] == part && part[|part|..] == [];
  }

  // Components survive being written out.
  lemma {:induction false} PartsOfSlashed(parts: seq<seq<Byte>>)
    requires AllProper(parts)
    ensures Parts(Slashed(parts)) == parts
  {
    hide IndexOf;
    if parts != [] {
      var n := |parts| - 1;
      PartsOfSlashed(parts[..n]);
      PartsAcross(Slashed(parts[..n]), parts[n]);
      assert Slashed(parts) == Slashed(parts[..n]) + [SLASH] + parts[n];
      OnePart(parts[n]);
    }
  }

  lemma {:induction false} WalkProper(at: seq<seq<Byte>>, parts: seq<seq<Byte>>)
    requires AllProper(parts)
    ensures Walk(at, parts) == at + parts
  {
    if parts == [] {
      assert at + parts == at;
    } else {
      WalkProper(at, parts[..|parts| - 1]);
      assert at + parts == (at + parts[..|parts| - 1]) + [parts[|parts| - 1]];
    }
  }

  lemma {:induction false} WalkOn(at: seq<seq<Byte>>, a: seq<seq<Byte>>, b: seq<seq<Byte>>)
    ensures Walk(at, a + b) == Walk(Walk(at, a), b)
  {
    if b == [] {
      assert a + b == a;
    } else {
      assert (a + b)[..|a + b| - 1] == a + b[..|b| - 1];
      WalkOn(at, a, b[..|b| - 1]);
    }
  }

  lemma {:induction false} PartsAreClean(s: seq<Byte>)
    requires 0 !in s
    ensures forall i :: 0 <= i < |Parts(s)| ==> Parts(s)[i] != [] && SLASH !in Parts(s)[i] && 0 !in Parts(s)[i]
    decreases |s|
  {
    if s != [] {
      if s[0] == SLASH {
        PartsAreClean(s[1..]);
      } else {
        PartsAreClean(s[IndexOf(s, SLASH)..]);
      }
    }
  }

  lemma {:induction false} WalkStaysProper(at: seq<seq<Byte>>, parts: seq<seq<Byte>>)
    requires AllProper(at)
    requires forall i :: 0 <= i < |parts| ==> parts[i] != [] && SLASH !in parts[i] && 0 !in parts[i]
    ensures AllProper(Walk(at, parts))
  {
    if parts != [] {
      WalkStaysProper(at, parts[..|parts| - 1]);
    }
  }

  // ---- What normalizing means ----

  // A path is walked from the root, or from the working directory.
  function Normalized(cwd: seq<Byte>, path: seq<Byte>): seq<Byte> {
    var joined := if path != [] && path[0] == SLASH then Text(path) else Text(cwd + [SLASH] + path);
    Normal(joined != [] && joined[0] == SLASH, Walk([], Parts(joined)))
  }

  lemma TextOf(s: seq<Byte>)
    ensures 0 !in s ==> Text(s) == s
  {
    if 0 !in s {
      assert s[..|s|] == s;
    }
  }

  lemma {:induction false} SlashedClean(parts: seq<seq<Byte>>)
    requires AllProper(parts)
    ensures 0 !in Slashed(parts)
  {
    if parts != [] {
      SlashedClean(parts[..|parts| - 1]);
    }
  }

  lemma NormalParts(rooted: bool, parts: seq<seq<Byte>>)
    requires AllProper(parts)
    ensures 0 !in Normal(rooted, parts)
    ensures Walk([], Parts(Normal(rooted, parts))) == parts
    ensures Normal(rooted, parts) != [] && (Normal(rooted, parts)[0] == SLASH <==> rooted)
  {
    hide IndexOf;
    SlashedClean(parts);
    PartsOfSlashed(parts);
    WalkProper([], parts);
    assert [] + parts == parts;
    if rooted {
      if parts == [] {
        assert Parts([SLASH]) == Parts([SLASH][1..]) == [];
      } else {
        SlashedHead(parts);
      }
    } else {
      OnePart([DOT]);
      DotThen(parts);
    }
  }

  lemma {:induction false} SlashedHead(parts: seq<seq<Byte>>)
    requires parts != []
    ensures Slashed(parts) != [] && Slashed(parts)[0] == SLASH
  {
    if |parts| > 1 {
      SlashedHead(parts[..|parts| - 1]);
    } else {
      assert Slashed(parts[..0]) == [];
    }
  }

  lemma DotThen(parts: seq<seq<Byte>>)
    requires AllProper(parts)
    ensures Walk([], Parts([DOT] + Slashed(parts))) == parts
  {
    hide IndexOf;
    OnePart([DOT]);
    if parts == [] {
      assert [DOT] + Slashed(parts) == [DOT];
      assert Walk([], [[DOT]]) == Enter(Walk([], [[DOT]][..0]), [DOT]);
    } else {
      SlashedHead(parts);
      var rest := Slashed(parts)[1..];
      assert [DOT] + Slashed(parts) == [DOT] + [SLASH] + rest;
      PartsAcross([DOT], rest);
      PartsAcross([], rest);
      assert [] + [SLASH] + rest == Slashed(parts);
      PartsOfSlashed(parts);
      WalkOn([], [[DOT]], parts);
      assert Walk([], [[DOT]]) == Enter(Walk([], [[DOT]][..0]), [DOT]);
      WalkProper([], parts);
      assert [] + parts == parts;
    }
  }

  /** Normalizing gives a normal path, which normalizing again leaves alone. */
  lemma NormalizedIsNormal(cwd: seq<Byte>, path: seq<Byte>)
    ensures IsNormal(Normalized(cwd, path))
    ensures forall other :: other == Normalized(cwd, path) && other[0] == SLASH ==> Normalized(cwd, other) == other
  {
    hide IndexOf, Parts, Walk, Normal;
    var joined := if path != [] && path[0] == SLASH then Text(path) else Text(cwd + [SLASH] + path);
    var rooted := joined != [] && joined[0] == SLASH;
    var parts := Walk([], Parts(joined));
    PartsAreClean(joined);
    WalkStaysProper([], Parts(joined));
    NormalParts(rooted, parts);
    var normal := Normal(rooted, parts);
    TextOf(normal);
  }

  /** A relative path is walked from the working directory; an absolute one from the root. */
  lemma RelativeToWorkingDirectory(rooted: bool, at: seq<seq<Byte>>, path: seq<Byte>)
    requires AllProper(at) && 0 !in path
    ensures path == [] || path[0] != SLASH ==>
              Normalized(Normal(rooted, at), path) == Normal(rooted, Walk(at, Parts(path)))
    ensures path != [] && path[0] == SLASH ==>
              Normalized(Normal(rooted, at), path) == Normal(true, Walk([], Parts(path)))
  {
    hide IndexOf, Walk, Normal;
    var cwd := Normal(rooted, at);
    var joined := cwd + [SLASH] + path;
    NormalParts(rooted, at);
    TextOf(path);
    TextOf(joined);
    PartsAcross(cwd, path);
    WalkOn([], Parts(cwd), Parts(path));
  }

  // ---- In the bytes of a path ----

  // The whole path: joined to the working directory unless it starts with a slash.
  function Whole(cwd: seq<Byte>, path: seq<Byte>): seq<Byte> {
    if path != [] && path[0] == SLASH then Text(path) else Text(cwd + [SLASH] + path)
  }

  // Its components from the root or from "." on.
  function At(cwd: seq<Byte>, path: seq<Byte>): seq<seq<Byte>> { Walk([], Parts(Whole(cwd, path))) }

  predicate Rooted(cwd: seq<Byte>, path: seq<Byte>) { Whole(cwd, path) != [] && Whole(cwd, path)[0] == SLASH }

  lemma WholeOn(cwd: seq<Byte>, path: seq<Byte>, tail: seq<Byte>)
    requires path != [] && 0 !in cwd && 0 !in path && 0 !in tail
    ensures Whole(cwd, path + [SLASH] + tail) == Whole(cwd, path) + [SLASH] + tail
    ensures Rooted(cwd, path + [SLASH] + tail) == Rooted(cwd, path)
  {
    var more := path + [SLASH] + tail;
    assert more[0] == path[0];
    TextOf(path);
    TextOf(more);
    TextOf(cwd + [SLASH] + path);
    TextOf(cwd + [SLASH] + more);
    assert cwd + [SLASH] + more == cwd + [SLASH] + path + [SLASH] + tail;
  }

  // One more component enters it.
  lemma OneOn(cwd: seq<Byte>, path: seq<Byte>, part: seq<Byte>)
    requires path != [] && 0 !in cwd && 0 !in path && 0 !in part && part != [] && SLASH !in part
    ensures At(cwd, path + [SLASH] + part) == Enter(At(cwd, path), part)
    ensures Rooted(cwd, path + [SLASH] + part) == Rooted(cwd, path)
  {
    hide Parts, Enter, Whole;
    WholeOn(cwd, path, part);
    PartsAcross(Whole(cwd, path), part);
    OnePart(part);
    WalkStep(Parts(Whole(cwd, path)), part);
  }

  lemma NoneOn(cwd: seq<Byte>, path: seq<Byte>)
    requires path != [] && 0 !in cwd && 0 !in path
    ensures At(cwd, path + [SLASH]) == At(cwd, path) && Rooted(cwd, path + [SLASH]) == Rooted(cwd, path)
  {
    hide Enter, Whole;
    assert path + [SLASH] == path + [SLASH] + [];
    WholeOn(cwd, path, []);
    PartsAcross(Whole(cwd, path), []);
    assert Parts(Whole(cwd, path)) + [] == Parts(Whole(cwd, path));
  }

  lemma NormalizedAt(cwd: seq<Byte>, path: seq<Byte>)
    ensures Normalized(cwd, path) == Normal(Rooted(cwd, path), At(cwd, path))
    ensures AllProper(At(cwd, path))
  {
    hide Parts, Walk, Normal, AllProper;
    PartsAreClean(Whole(cwd, path));
    NothingIsProper();
    WalkStaysProper([], Parts(Whole(cwd, path)));
  }

  lemma NothingIsProper()
    ensures AllProper([])
  {
  }

  /** How a path goes on: a slash (47) and a "." (46) at its end stay where they are, a name goes
      down, and ".." takes the name before it back. */
  lemma PathGoesOn(cwd: seq<Byte>, path: seq<Byte>, name: seq<Byte>)
    requires path != [] && 0 !in cwd && 0 !in path
    requires name != [] && 0 !in name && 47 !in name && name != [46] && name != [46, 46]
    ensures Normalized(cwd, path + [47]) == Normalized(cwd, path)
    ensures Normalized(cwd, path + [47] + [46]) == Normalized(cwd, path)
    ensures Normalized(cwd, path + [47] + name + [47] + [46, 46]) == Normalized(cwd, path)
    ensures Normalized(cwd, path + [47] + name) == (if Normalized(cwd, path) == [47] then [47] else Normalized(cwd, path) + [47]) + name
  {
    hide At, Rooted, Walk, Normal, Parts;
    var at := At(cwd, path);
    NormalizedAt(cwd, path);
    NormalizedAt(cwd, path + [47]);
    NormalizedAt(cwd, path + [47] + [46]);
    NormalizedAt(cwd, path + [47] + name);
    NormalizedAt(cwd, path + [47] + name + [47] + [46, 46]);
    NoneOn(cwd, path);
    OneOn(cwd, path, [46]);
    OneOn(cwd, path, name);
    OneOn(cwd, path + [47] + name, [46, 46]);
    assert Enter(Enter(at, name), [46, 46]) == at;
    OneMore(Rooted(cwd, path), at, name);
    RootOrMore(Rooted(cwd, path), at);
  }

  lemma RootOrMore(rooted: bool, parts: seq<seq<Byte>>)
    requires AllProper(parts)
    ensures |Normal(rooted, parts)| <= 1 && rooted <==> Normal(rooted, parts) == [47]
  {
    if parts != [] {
      SlashedLong(parts);
      assert |Normal(rooted, parts)| > 1;
    } else {
      assert Normal(rooted, parts)[0] == if rooted then 47 else 46;
    }
  }

  /** Where a path starts: at the root, where ".." stays, behind the working directory, or at ".",
      where ".." stays too; and it ends at the first zero byte. */
  lemma PathStarts(cwd: seq<Byte>, path: seq<Byte>, rest: seq<Byte>)
    requires 0 !in cwd && 0 !in path
    ensures Normalized(cwd, [47]) == [47] && Normalized(cwd, [47, 46, 46]) == [47]
    ensures cwd != [] && cwd[0] == 47 && (path == [] || path[0] != 47) ==> Normalized(cwd, path) == Normalized(cwd, cwd + [47] + path)
    ensures Normalized([46], [46]) == [46] && Normalized([46], [46, 46]) == [46]
    ensures Normalized(cwd, path + [0] + rest) == Normalized(cwd, path)
  {
    hide Text, Normalized;
    RootStays();
    DotStays();
    if path == [] || path[0] != 47 {
      Relative(cwd, path);
    }
    EndsAtZero(path, rest);
    EndsAtZero(cwd + [47] + path, rest);
    assert cwd + [47] + (path + [0] + rest) == cwd + [47] + path + [0] + rest;
    StartsZero(cwd, path, rest);
  }

  lemma Relative(cwd: seq<Byte>, path: seq<Byte>)
    requires path == [] || path[0] != 47
    ensures cwd != [] && cwd[0] == 47 ==> Normalized(cwd, path) == Normalized(cwd, cwd + [47] + path)
  {
    hide Text, Walk, Normal, Parts;
  }

  lemma StartsZero(cwd: seq<Byte>, path: seq<Byte>, rest: seq<Byte>)
    requires path == [] || (path + [0] + rest)[0] == path[0]
    requires Text(path + [0] + rest) == Text(path) && Text(cwd + [47] + (path + [0] + rest)) == Text(cwd + [47] + path)
    ensures Normalized(cwd, path + [0] + rest) == Normalized(cwd, path)
  {
    hide Text, Walk, Normal, Parts;
  }

  lemma EndsAtZero(s: seq<Byte>, rest: seq<Byte>)
    requires 0 !in s
    ensures Text(s + [0] + rest) == Text(s)
    ensures s == [] || (s + [0] + rest)[0] == s[0]
  {
    TextOf(s);
    IndexIs(s + [0] + rest, 0, |s|);
  }

  lemma RootStays()
    ensures forall cwd :: Normalized(cwd, [47]) == [47] && Normalized(cwd, [47, 46, 46]) == [47]
  {
    TextOf([47]);
    TextOf([47, 46, 46]);
    assert [47] == [] + [SLASH] + [] && [47, 46, 46] == [] + [SLASH] + [46, 46];
    PartsAcross([], []);
    PartsAcross([], [46, 46]);
    OnePart([46, 46]);
    WalkStep([], [46, 46]);
    assert [] + [[46, 46]] == [[46, 46]];
  }

  lemma DotStays()
    ensures Normalized([46], [46]) == [46] && Normalized([46], [46, 46]) == [46]
  {
    TextOf([46] + [SLASH] + [46]);
    TextOf([46] + [SLASH] + [46, 46]);
    PartsAcross([46], [46]);
    PartsAcross([46], [46, 46]);
    OnePart([46]);
    OnePart([46, 46]);
    WalkStep([], [46]);
    assert [] + [[46]] == [[46]];
    WalkStep([[46]], [46]);
    WalkStep([[46]], [46, 46]);
  }

  // ---- The buffer ----

  // What comes before the last component's slash.
  function Before(rooted: bool, parts: seq<seq<Byte>>): seq<Byte>
    requires parts != []
  {
    (if rooted then [] else [DOT]) + Slashed(parts[..|parts| - 1])
  }

  lemma LastPart(rooted: bool, parts: seq<seq<Byte>>)
    requires parts != []
    ensures Normal(rooted, parts) == Before(rooted, parts) + [SLASH] + parts[|parts| - 1]
    ensures Normal(rooted, parts[..|parts| - 1]) == if Before(rooted, parts) == [] then [SLASH] else Before(rooted, parts)
  {
    var init := parts[..|parts| - 1];
    if rooted && init != [] {
      SlashedHead(init);
    }
    assert [] + Slashed(init) == Slashed(init);
    assert Slashed(parts) == Slashed(init) + ([SLASH] + parts[|parts| - 1]);
  }

  lemma OneMore(rooted: bool, parts: seq<seq<Byte>>, part: seq<Byte>)
    requires AllProper(parts)
    ensures Normal(rooted, parts + [part]) ==
            (if |Normal(rooted, parts)| > 1 || !rooted then Normal(rooted, parts) + [SLASH] + part else [SLASH] + part)
  {
    var more := parts + [part];
    assert more[..|parts|] == parts;
    assert Slashed(more) == Slashed(parts) + ([SLASH] + part);
    if rooted && parts != [] {
      SlashedLong(parts);
      assert Normal(rooted, more) == Normal(rooted, parts) + [SLASH] + part;
    } else if rooted {
      assert Slashed(more) == [SLASH] + part;
    } else {
      assert [DOT] + Slashed(more) == ([DOT] + Slashed(parts)) + [SLASH] + part;
    }
  }

  lemma SlashedLong(parts: seq<seq<Byte>>)
    requires parts != [] && AllProper(parts)
    ensures |Slashed(parts)| > 1
  {
  }

  // A path that does not start at the root starts with ".", alone or before a slash.
  predicate Dotted(text: seq<Byte>) { |text| > 0 && text[0] == DOT && (|text| > 1 ==> text[1] == SLASH) }

  lemma LastIsClean(s: seq<Byte>, rooted: bool, parts: seq<seq<Byte>>)
    requires AllProper(parts) && parts != [] && s == Normal(rooted, parts)
    ensures forall i :: |Before(rooted, parts)| < i < |s| ==> s[i] != SLASH
  {
    hide Normal, Before;
    LastPart(rooted, parts);
    var base, last := |Before(rooted, parts)|, parts[|parts| - 1];
    assert forall i :: base < i < |s| ==> s[i] == last[i - base - 1] && s[i] in last;
  }

  // Where going back from the end stops: behind the last component's slash.
  lemma BacktrackStops(s: seq<Byte>, rooted: bool, parts: seq<seq<Byte>>, o: nat)
    requires AllProper(parts) && parts != [] && s == Normal(rooted, parts)
    requires |Before(rooted, parts)| + 1 <= o <= |s| && (o <= 1 || s[o - 1] == SLASH)
    ensures o == |Before(rooted, parts)| + 1
    ensures s[..if o > 1 then o - 1 else o] == Normal(rooted, parts[..|parts| - 1])
  {
    hide Normal, Before;
    LastPart(rooted, parts);
    LastIsClean(s, rooted, parts);
  }

  // Drops the last component, if there is one.
  method Backtrack(out: array<Byte>, end: nat, ghost rooted: bool, ghost parts: seq<seq<Byte>>) returns (o: nat)
    requires AllProper(parts) && end <= out.Length && out[..end] == Normal(rooted, parts)
    ensures o <= end && out[..o] == Normal(rooted, if parts == [] then [] else parts[..|parts| - 1])
  {
    hide Slashed, Before, Normal;
    o := end;
    ghost var base: int := 0;
    NothingEntered(rooted);
    if parts != [] {
      LastPart(rooted, parts);
      base := |Before(rooted, parts)|;
    }
    while o > 1 && out[o - 1] != SLASH
      invariant base + 1 <= o <= end
    {
      BehindSlash(out[..end], rooted, parts, o);
      o := o - 1;
    }
    if parts != [] {
      BacktrackStops(out[..end], rooted, parts, o);
      assert out[..end][..o] == out[..o] && out[..end][..o - 1] == out[..o - 1];
    }
    if o > 1 {
      o := o - 1;
    }
  }

  lemma BehindSlash(s: seq<Byte>, rooted: bool, parts: seq<seq<Byte>>, o: nat)
    requires s == Normal(rooted, parts) && 1 < o <= |s| && s[o - 1] != SLASH
    ensures parts != [] ==> o != |Before(rooted, parts)| + 1
    ensures parts == [] ==> |s| == 1
  {
    if parts != [] {
      LastPart(rooted, parts);
    }
  }

  lemma NothingEntered(rooted: bool)
    ensures |Normal(rooted, [])| == 1 && Enter([], [DOT, DOT]) == []
  {
  }

  // Writes one more component behind the path so far.
  method Append(out: array<Byte>, end: nat, part: seq<Byte>, rooted: bool, ghost parts: seq<seq<Byte>>) returns (o: nat)
    requires AllProper(parts) && end <= out.Length && out[..end] == Normal(rooted, parts) && part != []
    requires end + 1 + |part| <= out.Length
    modifies out
    ensures o <= out.Length && out[..o] == Normal(rooted, parts + [part])
    ensures o == end + |part| + if end > 1 || !rooted then 1 else 0
  {
    hide Slashed, Normal;
    OneMore(rooted, parts, part);
    NothingEntered(rooted);
    ghost var normal := Normal(rooted, parts);
    o := end;
    if o > 1 || !rooted {
      out[o] := SLASH;
      o := o + 1;
    } else {
      RootAlone(rooted, parts);
    }
    CopyPart(out, o, part);
    o := o + |part|;
  }

  method CopyPart(out: array<Byte>, o: nat, part: seq<Byte>)
    requires o + |part| <= out.Length
    modifies out
    ensures out[..o + |part|] == old(out[..o]) + part
  {
    for i := 0 to |part|
      invariant out[..o + i] == old(out[..o]) + part[..i]
    {
      out[o + i] := part[i];
      assert out[..o + i + 1] == out[..o + i] + [part[i]];
      assert part[..i + 1] == part[..i] + [part[i]];
    }
    assert part[..|part|] == part;
  }

  lemma RootAlone(rooted: bool, parts: seq<seq<Byte>>)
    requires rooted && |Normal(rooted, parts)| <= 1
    ensures Normal(rooted, parts) == [SLASH]
  {
    if parts != [] {
      SlashedHead(parts);
    }
  }

  // The working directory is normal, so joined paths start with a slash or with "./".
  lemma JoinedStarts(cwd: seq<Byte>, path: seq<Byte>)
    requires IsNormal(cwd)
    ensures var text := if path != [] && path[0] == SLASH then Text(path) else Text(cwd + [SLASH] + path);
            text != [] && (text[0] == SLASH || Dotted(text))
  {
    var rooted, parts :| AllProper(parts) && cwd == Normal(rooted, parts);
    if parts != [] {
      SlashedHead(parts);
    }
    var joined := if path != [] && path[0] == SLASH then path else cwd + [SLASH] + path;
    assert joined[0] == SLASH || (joined[0] == DOT && joined[1] == SLASH);
  }

  lemma PartsStep(s: seq<Byte>, at: nat, start: nat, end: nat)
    requires at <= start < end <= |s|
    requires forall i :: at <= i < start ==> s[i] == SLASH
    requires forall i :: start <= i < end ==> s[i] != SLASH
    requires end < |s| ==> s[end] == SLASH
    ensures Parts(s[at..]) == [s[start..end]] + Parts(s[end..])
    decreases start - at
  {
    if at < start {
      assert s[at..][1..] == s[at + 1..];
      PartsStep(s, at + 1, start, end);
    } else {
      var t := s[at..];
      if end < |s| {
        IndexIs(t, SLASH, end - at);
      } else {
        assert forall i :: 0 <= i < |t| ==> t[i] == s[at + i];
        assert IndexOf(t, SLASH) == |t|;
      }
      assert t[..end - at] == s[start..end] && t[end - at..] == s[end..];
    }
  }

  lemma PartsEnd(s: seq<Byte>, at: nat)
    requires at <= |s| && forall i :: at <= i < |s| ==> s[i] == SLASH
    ensures Parts(s[at..]) == []
    decreases |s| - at
  {
    if at < |s| {
      assert s[at..][1..] == s[at + 1..];
      PartsEnd(s, at + 1);
    }
  }

  lemma WalkStep(seen: seq<seq<Byte>>, part: seq<Byte>)
    ensures Walk([], seen + [part]) == Enter(Walk([], seen), part)
  {
    assert (seen + [part])[..|seen|] == seen;
  }

  lemma Regroup(seen: seq<seq<Byte>>, part: seq<Byte>, rest: seq<seq<Byte>>)
    ensures seen + ([part] + rest) == (seen + [part]) + rest
  {
  }

  // No token starts with what the buffer cannot hold: the path so far fits what was read.
  predicate Room(at: nat, o: nat, text: seq<Byte>) {
    && at <= |text|
    && (o == 1 || o <= at)
    && (0 < at < |text| ==> text[at] == SLASH)
  }

  // One component of the path: dropped, taken back, or appended.
  method Component(out: array<Byte>, end: nat, text: seq<Byte>, ghost from: nat, start: nat, at: nat, rooted: bool,
                   ghost stack: seq<seq<Byte>>) returns (o: nat)
    requires text != [] && rooted == (text[0] == SLASH) && (rooted || Dotted(text)) && 0 !in text && Room(from, end, text)
    requires from <= start < at <= |text| && text[start] != SLASH
    requires forall i :: from <= i < start ==> text[i] == SLASH
    requires forall i :: start <= i < at ==> text[i] != SLASH
    requires at < |text| ==> text[at] == SLASH
    requires end < out.Length && |text| + 2 <= out.Length && out[..end] == Normal(rooted, stack) && AllProper(stack)
    modifies out
    ensures o < out.Length && Room(at, o, text)
    ensures out[..o] == Normal(rooted, Enter(stack, text[start..at])) && AllProper(Enter(stack, text[start..at]))
  {
    hide Normal, Enter, Slashed, Proper, AllProper;
    var part := text[start..at];
    o := end;
    TokenFits(text, from, start, at, o, rooted);
    if part == [DOT] {
      EnterDot(stack);
    } else if part == [DOT, DOT] {
      o := Backtrack(out, o, rooted, stack);
      EnterUp(stack);
      EnterUp(Enter(stack, [DOT, DOT]));
    } else {
      EnterDown(stack, part, text, start, at);
      o := Append(out, o, part, rooted, stack);
    }
  }

  /** The buffer, allocated before, holds the normal form and its terminator. */
  method Normalize(cwd: seq<Byte>, path: seq<Byte>) returns (out: array<Byte>, o: nat)
    requires IsNormal(cwd)
    ensures o < out.Length == (if path != [] && path[0] == SLASH then 0 else |cwd|) + |path| + 3
    ensures out[..o] == Normalized(cwd, path) && out[o] == 0
  {
    hide Walk, Normal, Parts, Enter, IndexOf, Slashed, IsNormal;
    var absolute := path != [] && path[0] == SLASH;
    var base := if absolute then 0 else |cwd|;
    JoinedStarts(cwd, path);
    var text := Text(if absolute then path else cwd + [SLASH] + path);
    out := new Byte[base + |path| + 3](_ => 0);
    var rooted := text[0] == SLASH;
    out[0] := if rooted then SLASH else DOT;
    o := 1;
    var at := 0;
    ghost var seen: seq<seq<Byte>> := [];
    Begin(out[..1], rooted, text);
    while true
      invariant Room(at, o, text) && o < out.Length
      invariant Parts(text) == seen + Parts(text[at..])
      invariant out[..o] == Normal(rooted, Walk([], seen)) && AllProper(Walk([], seen))
      decreases |text| - at
    {
      ghost var from := at;
      while at < |text| && text[at] == SLASH
        invariant from <= at <= |text| && forall i :: from <= i < at ==> text[i] == SLASH
      {
        at := at + 1;
      }
      if at == |text| {
        PartsEnd(text, from);
        assert seen + [] == seen;
        break;
      }
      var start := at;
      while at < |text| && text[at] != SLASH
        invariant start <= at <= |text| && forall i :: start <= i < at ==> text[i] != SLASH
      {
        at := at + 1;
      }
      var part := text[start..at];
      PartsStep(text, from, start, at);
      Regroup(seen, part, Parts(text[at..]));
      WalkStep(seen, part);
      o := Component(out, o, text, from, start, at, rooted, Walk([], seen));
      seen := seen + [part];
    }
    out[o] := 0;
  }

  lemma Begin(start: seq<Byte>, rooted: bool, text: seq<Byte>)
    requires start == [if rooted then SLASH else DOT]
    ensures Room(0, 1, text) && Parts(text) == [] + Parts(text[0..])
    ensures start == Normal(rooted, Walk([], [])) && AllProper(Walk([], []))
  {
    assert text[0..] == text;
  }

  lemma TokenFits(text: seq<Byte>, from: nat, start: nat, at: nat, o: nat, rooted: bool)
    requires text != [] && rooted == (text[0] == SLASH) && (rooted || Dotted(text)) && Room(from, o, text)
    requires from <= start < at <= |text| && text[start] != SLASH
    requires forall i :: from <= i < start ==> text[i] == SLASH
    requires forall i :: start <= i < at ==> text[i] != SLASH
    requires at < |text| ==> text[at] == SLASH
    ensures text[start..at] != [DOT] ==>
              o + (at - start) + (if o > 1 || !rooted then 1 else 0) <= at && o + 1 + (at - start) <= |text| + 1
  {
    if start == 0 {
      assert |text| > 1 ==> at == 1;
      assert text[0..1] == [DOT];
    }
  }

  lemma EnterDot(stack: seq<seq<Byte>>)
    ensures Enter(stack, [DOT]) == stack
  {
  }

  lemma EnterUp(stack: seq<seq<Byte>>)
    ensures AllProper(stack) ==> AllProper(Enter(stack, [DOT, DOT]))
    ensures Enter(stack, [DOT, DOT]) == if stack == [] then [] else stack[..|stack| - 1]
    ensures forall rooted :: |Normal(rooted, stack)| >= 1
  {
    forall rooted
      ensures |Normal(rooted, stack)| >= 1
    {
      if stack != [] {
        SlashedHead(stack);
      }
    }
  }

  lemma EnterDown(stack: seq<seq<Byte>>, part: seq<Byte>, text: seq<Byte>, start: nat, at: nat)
    requires start < at <= |text| && part == text[start..at] && 0 !in text
    requires forall i :: start <= i < at ==> text[i] != SLASH
    requires part != [DOT] && part != [DOT, DOT]
    ensures Enter(stack, part) == stack + [part]
    ensures AllProper(stack) ==> AllProper(stack + [part])
  {
    assert forall i :: 0 <= i < |part| ==> part[i] == text[start + i] && part[i] in text;
  }

  // ---- The preopened directory of a path ----

  datatype Preopen = Preopen(fd: nat, absolute: bool, name: seq<Byte>)

  // Preopened names are stored without a leading "/" or "./" and without a trailing slash.
  ghost predicate Named(p: Preopen) {
    exists parts :: AllProper(parts) && p.name == Joined(parts)
  }

  // A normal path without its "/" or "./".
  function Rest(normal: seq<Byte>): seq<Byte>
    requires normal != []
  {
    if |normal| > 1 && normal[1] == SLASH then normal[2..] else normal[1..]
  }

  lemma RestOfNormal(rooted: bool, parts: seq<seq<Byte>>)
    requires AllProper(parts)
    ensures Normal(rooted, parts) != [] && Rest(Normal(rooted, parts)) == Joined(parts)
    ensures Normal(rooted, parts)[0] == SLASH <==> rooted
  {
    if parts != [] {
      SlashedHead(parts);
      if rooted {
        FirstIsClean(parts);
      } else {
        assert ([DOT] + Slashed(parts))[2..] == Slashed(parts)[1..];
      }
    }
  }

  lemma {:induction false} FirstIsClean(parts: seq<seq<Byte>>)
    requires AllProper(parts) && parts != []
    ensures |Slashed(parts)| > 1 && Slashed(parts)[0] == SLASH && Slashed(parts)[1] == parts[0][0] != SLASH
  {
    var n := |parts| - 1;
    if n > 0 {
      FirstIsClean(parts[..n]);
    } else {
      assert Slashed(parts[..0]) == [];
      assert parts[0][0] in parts[0];
    }
  }

  lemma {:induction false} SlashedAppend(a: seq<seq<Byte>>, b: seq<seq<Byte>>)
    ensures Slashed(a + b) == Slashed(a) + Slashed(b)
  {
    if b == [] {
      assert a + b == a;
    } else {
      assert (a + b)[..|a + b| - 1] == a + b[..|b| - 1];
      SlashedAppend(a, b[..|b| - 1]);
    }
  }

  lemma PartsOfJoined(parts: seq<seq<Byte>>)
    requires AllProper(parts)
    ensures Parts(Joined(parts)) == parts
    ensures Joined(parts) == [] <==> parts == []
  {
    hide IndexOf;
    PartsOfSlashed(parts);
    if parts != [] {
      FirstIsClean(parts);
      assert Slashed(parts) == [] + [SLASH] + Joined(parts);
      PartsAcross([], Joined(parts));
    }
  }

  // The test on the text: the name, then the end or a slash.
  predicate Contains(name: seq<Byte>, rest: seq<Byte>) {
    name == [] || (|name| <= |rest| && rest[..|name|] == name && (|rest| == |name| || rest[|name|] == SLASH))
  }

  // It tests components: the directory's are the first of the path's.
  lemma ContainsMeans(dir: seq<seq<Byte>>, parts: seq<seq<Byte>>)
    requires AllProper(dir) && AllProper(parts)
    ensures Contains(Joined(dir), Joined(parts)) <==> dir <= parts
  {
    hide Joined, Slashed, Parts;
    PartsOfJoined(dir);
    PartsOfJoined(parts);
    if dir <= parts {
      JoinedSplit(dir, parts);
    } else if Contains(Joined(dir), Joined(parts)) {
      ContainedParts(dir, parts);
    }
  }

  lemma ContainedParts(dir: seq<seq<Byte>>, parts: seq<seq<Byte>>)
    requires AllProper(dir) && AllProper(parts) && Contains(Joined(dir), Joined(parts))
    ensures dir <= parts
  {
    hide Joined, Slashed, Parts;
    PartsOfJoined(dir);
    PartsOfJoined(parts);
    var name, rest := Joined(dir), Joined(parts);
    if name != [] && |name| < |rest| {
      var tail := rest[|name| + 1..];
      assert rest == name + [SLASH] + tail;
      PartsAcross(name, tail);
    } else if name != [] {
      assert rest[..|name|] == rest;
    }
  }

  lemma JoinedSplit(dir: seq<seq<Byte>>, parts: seq<seq<Byte>>)
    requires AllProper(dir) && AllProper(parts) && dir <= parts
    ensures Contains(Joined(dir), Joined(parts))
    ensures Joined(parts)[|Joined(dir)|..] == if dir == [] then Joined(parts) else Slashed(parts[|dir|..])
  {
    var inside := parts[|dir|..];
    SlashedAppend(dir, inside);
    assert dir + inside == parts;
    if dir != [] {
      FirstIsClean(dir);
      assert Joined(parts) == Joined(dir) + Slashed(inside);
      if inside != [] {
        SlashedHead(inside);
      }
    }
  }

  // How far the last matching name reaches: components of one path.
  lemma LongerReachesFurther(a: seq<seq<Byte>>, b: seq<seq<Byte>>, parts: seq<seq<Byte>>)
    requires AllProper(parts) && a <= parts && b <= parts
    ensures |Joined(a)| > |Joined(b)| <==> |a| > |b|
  {
    if |a| > |b| {
      JoinedGrows(b, a);
    } else if |b| > |a| {
      JoinedGrows(a, b);
    } else {
      assert a == b;
    }
  }

  lemma JoinedGrows(a: seq<seq<Byte>>, b: seq<seq<Byte>>)
    requires AllProper(b) && a <= b && |a| < |b|
    ensures |Joined(a)| < |Joined(b)|
  {
    var more := b[|a|..];
    SlashedAppend(a, more);
    assert a + more == b;
    FirstIsClean(b);
    FirstIsClean(more);
    if a != [] {
      SlashedHead(a);
    }
  }

  // What the search for the best directory has found among the first `i`.
  ghost predicate Best(preopens: seq<Preopen>, i: nat, rooted: bool, rest: seq<Byte>, best: int) {
    && i <= |preopens| && -1 <= best < i
    && (best >= 0 ==> preopens[best].absolute == rooted && Contains(preopens[best].name, rest))
    && (forall k :: 0 <= k < i && preopens[k].absolute == rooted && Contains(preopens[k].name, rest) ==>
          best >= 0 && |preopens[k].name| <= |preopens[best].name|)
  }

  method Locate(normal: seq<Byte>, preopens: seq<Preopen>) returns (best: int, inside: seq<Byte>)
    requires normal != []
    ensures Best(preopens, |preopens|, normal[0] == SLASH, Rest(normal), best)
    ensures best >= 0 ==> inside == Inside(Rest(normal)[|preopens[best].name|..])
  {
    var absolute := normal[0] == SLASH;
    var rest := normal[1..];
    if |rest| > 0 && rest[0] == SLASH {
      rest := rest[1..];
    }
    best := -1;
    for i := 0 to |preopens|
      invariant Best(preopens, i, absolute, rest, best)
    {
      var name := preopens[i].name;
      if preopens[i].absolute == absolute {
        if name == [] || (|name| <= |rest| && rest[..|name|] == name && (|rest| == |name| || rest[|name|] == SLASH)) {
          if best == -1 || |name| > |preopens[best].name| {
            best := i;
          }
        }
      }
    }
    if best == -1 {
      return -1, [];
    }
    var tail := rest[|preopens[best].name|..];
    ghost var whole := tail;
    while |tail| > 0 && tail[0] == SLASH
      invariant Stripped(whole) == Stripped(tail)
    {
      tail := tail[1..];
    }
    inside := if |tail| > 0 then tail else [DOT];
  }

  function Stripped(s: seq<Byte>): seq<Byte> {
    if s != [] && s[0] == SLASH then Stripped(s[1..]) else s
  }

  function Inside(tail: seq<Byte>): seq<Byte> {
    if Stripped(tail) == [] then [DOT] else Stripped(tail)
  }

  /** The directory found has the most components among those that contain the path, one is
      found if any contains it, and the path inside it completes it to the path. */
  lemma LocatedRight(rooted: bool, parts: seq<seq<Byte>>, preopens: seq<Preopen>, dirs: seq<seq<seq<Byte>>>, best: int)
    requires AllProper(parts) && |dirs| == |preopens|
    requires forall i :: 0 <= i < |dirs| ==> AllProper(dirs[i]) && preopens[i].name == Joined(dirs[i])
    requires Best(preopens, |preopens|, rooted, Joined(parts), best)
    ensures best >= 0 <==> exists i :: 0 <= i < |dirs| && preopens[i].absolute == rooted && dirs[i] <= parts
    ensures best >= 0 ==> preopens[best].absolute == rooted && dirs[best] <= parts
    ensures best >= 0 ==> forall i :: 0 <= i < |dirs| && preopens[i].absolute == rooted && dirs[i] <= parts ==> |dirs[i]| <= |dirs[best]|
    ensures best >= 0 ==>
              var inside := Inside(Joined(parts)[|preopens[best].name|..]);
              inside == if dirs[best] == parts then [DOT] else Joined(parts[|dirs[best]|..])
  {
    hide Joined, Contains, Inside;
    forall i | 0 <= i < |dirs|
      ensures Contains(preopens[i].name, Joined(parts)) <==> dirs[i] <= parts
    {
      ContainsMeans(dirs[i], parts);
    }
    if best >= 0 {
      forall i | 0 <= i < |dirs| && preopens[i].absolute == rooted && dirs[i] <= parts
        ensures |dirs[i]| <= |dirs[best]|
      {
        LongerReachesFurther(dirs[i], dirs[best], parts);
      }
      InsideIs(dirs[best], parts);
    }
  }

  lemma InsideIs(dir: seq<seq<Byte>>, parts: seq<seq<Byte>>)
    requires AllProper(dir) && AllProper(parts) && dir <= parts
    ensures |Joined(dir)| <= |Joined(parts)|
    ensures Inside(Joined(parts)[|Joined(dir)|..]) == if dir == parts then [DOT] else Joined(parts[|dir|..])
  {
    JoinedSplit(dir, parts);
    var more := parts[|dir|..];
    if more != [] {
      FirstIsClean(more);
      assert Stripped(Joined(more)) == Joined(more);
      assert Slashed(more)[1..] == Joined(more);
    }
    if dir == [] {
      assert more == parts;
    }
  }
}
