/** Signal subscriptions: linked lists edited in place, one signal handler shared by the
    subscribers of a number, and a pipe for each of them. */
module PosixSignals {
  import opened Wrappers

  const NSIG: int := 65
  const SIGKILL: int := 9
  const SIGSTOP: int := 19
  const PIPE: nat := 65536

  // Whose handler a signal has: this file's, the default, or somebody else's.
  datatype Disposition = Ours | Default | Others(handler: nat)

  class Subscription {
    const number: int
    var open: bool
    // Bytes in the pipe.
    var bytes: nat
    var next: Subscription?

    constructor (number: int)
      ensures this.number == number && open && bytes == 0 && next == null
    {
      this.number, open, bytes, next := number, true, 0, null;
    }
  }

  predicate Catchable(number: int) { 0 < number < NSIG && number != SIGKILL && number != SIGSTOP }

  predicate Numbered(n: int) { 0 < n < NSIG }

  function Next(list: seq<Subscription>, i: nat): Subscription? {
    if i + 1 < |list| then list[i + 1] else null
  }

  // Every signal has a list, a head and a disposition.
  ghost predicate Keyed(lists: map<int, seq<Subscription>>, heads: map<int, Subscription?>, original: map<int, Disposition>,
                        dispositions: map<int, Disposition>) {
    && (forall n :: n in lists <==> Numbered(n))
    && lists.Keys == heads.Keys == original.Keys == dispositions.Keys
  }

  lemma InKeys(lists: map<int, seq<Subscription>>, heads: map<int, Subscription?>, original: map<int, Disposition>,
               dispositions: map<int, Disposition>, n: int)
    requires Keyed(lists, heads, original, dispositions)
    ensures n in lists <==> Numbered(n)
    ensures lists.Keys == heads.Keys == original.Keys == dispositions.Keys
  {
  }

  lemma KeyedUpdate(lists: map<int, seq<Subscription>>, heads: map<int, Subscription?>, original: map<int, Disposition>,
                    dispositions: map<int, Disposition>, n: int, list: seq<Subscription>, head: Subscription?)
    requires Keyed(lists, heads, original, dispositions) && Numbered(n)
    ensures Keyed(lists[n := list], heads[n := head], original, dispositions)
    ensures Keyed(lists[n := list], heads, original, dispositions)
    ensures Keyed(lists, heads, original, dispositions[n := Ours])
    ensures lists[n := list].Keys == lists.Keys && heads[n := head].Keys == heads.Keys
  {
  }

  ghost predicate AllIn(lists: map<int, seq<Subscription>>, nodes: set<Subscription>) {
    forall n, i :: n in lists && 0 <= i < |lists[n]| ==> lists[n][i] in nodes
  }

  // A list: linked in order from its head, its nodes open, distinct and of its number.
  ghost predicate Linked(n: int, head: Subscription?, list: seq<Subscription>)
    reads list
  {
    && head == (if list == [] then null else list[0])
    && (forall i :: 0 <= i < |list| ==> list[i].next == Next(list, i))
    && (forall i :: 0 <= i < |list| ==> list[i].number == n && list[i].open)
    && Distinct(list)
  }

  ghost predicate Distinct(list: seq<Subscription>) {
    forall i, j :: 0 <= i < j < |list| ==> list[i] != list[j]
  }

  // A node is at one place of its list.
  lemma Once(list: seq<Subscription>, i: nat)
    requires Distinct(list) && i < |list|
    ensures forall j :: 0 <= j < |list| && j != i ==> list[j] != list[i]
  {
  }

  lemma LinkedCons(n: int, head: Subscription?, list: seq<Subscription>, added: Subscription)
    requires Linked(n, head, list) && added !in list && added.number == n && added.open && added.next == head
    ensures Linked(n, added, [added] + list)
  {
    var all := [added] + list;
    assert forall i :: 0 <= i < |list| ==> all[i + 1] == list[i] && Next(all, i + 1) == Next(list, i);
  }

  // Unless somebody else interferes, the handler is ours exactly while there are subscribers,
  // and what was there before is remembered until it is back.
  ghost predicate Kept(lists: map<int, seq<Subscription>>, dispositions: map<int, Disposition>, previous: map<int, Disposition>,
                       original: map<int, Disposition>, disturbed: set<int>) {
    && (forall n :: n in lists && lists[n] != [] ==> n in previous)
    && (forall n :: n in lists && n in original && n in dispositions && n !in disturbed ==>
          && original[n] != Ours
          && if lists[n] == [] then dispositions[n] == original[n]
             else dispositions[n] == Ours && n in previous && previous[n] == original[n])
  }

  /** The handler is installed exactly while the signal has subscribers, and the original
      disposition is back when it has none. */
  lemma KeptMeans(lists: map<int, seq<Subscription>>, dispositions: map<int, Disposition>, previous: map<int, Disposition>,
                  original: map<int, Disposition>, disturbed: set<int>, n: int)
    requires Kept(lists, dispositions, previous, original, disturbed) && lists.Keys == dispositions.Keys == original.Keys && n in lists
    ensures lists[n] != [] ==> n in previous
    ensures lists[n] == [] && n !in disturbed ==> dispositions[n] == original[n]
    ensures n !in disturbed ==> (dispositions[n] == Ours <==> lists[n] != [])
  {
  }

  lemma KeptOpen(lists: map<int, seq<Subscription>>, dispositions: map<int, Disposition>, previous: map<int, Disposition>,
                 original: map<int, Disposition>, disturbed: set<int>, n: int, added: Subscription)
    requires Kept(lists, dispositions, previous, original, disturbed) && lists.Keys == dispositions.Keys == original.Keys && n in lists
    ensures lists[n] == [] ==>
              Kept(lists[n := [added] + lists[n]], dispositions[n := Ours], previous[n := dispositions[n]], original, disturbed)
    ensures lists[n] != [] ==> Kept(lists[n := [added] + lists[n]], dispositions, previous, original, disturbed)
  {
  }

  lemma AllInCons(lists: map<int, seq<Subscription>>, nodes: set<Subscription>, n: int, added: Subscription)
    requires AllIn(lists, nodes) && n in lists
    ensures AllIn(lists[n := [added] + lists[n]], nodes + {added})
    ensures forall m, o :: m in lists && o in lists[m] ==> o in nodes
  {
  }

  datatype Act =
    | Opening(number: int, works: bool)
    | Delivery(number: int)                  // the kernel delivers the signal
    | Reading(i: nat)                        // a wait on the `i`-th subscription made that does not block
    | Stopping(i: nat, works: bool)
    | Interference(number: int, d: Disposition)
    | Defaulting(number: int, works: bool)

  function Disturbs(act: Act): set<int> {
    if act.Interference? && Numbered(act.number) then {act.number} else {}
  }

  function DisturbedBy(acts: seq<Act>): set<int> {
    if acts == [] then {} else DisturbedBy(acts[..|acts| - 1]) + Disturbs(acts[|acts| - 1])
  }

  predicate DefaultedBy(acts: seq<Act>, n: int) {
    exists k :: 0 <= k < |acts| && acts[k].Defaulting? && acts[k].number == n
  }

  // The numbers for which subscriptions are made.
  function Opens(act: Act): (r: seq<int>)
    ensures r == if act.Opening? && 0 < act.number < 65 && act.number != 9 && act.number != 19 && act.works then [act.number] else []
  {
    if act.Opening? && Catchable(act.number) && act.works then [act.number] else []
  }

  function OpenedBy(acts: seq<Act>): seq<int> {
    if acts == [] then [] else OpenedBy(acts[..|acts| - 1]) + Opens(acts[|acts| - 1])
  }

  function Numbers(made: seq<Subscription>): (r: seq<int>)
    ensures |r| == |made| && forall i :: 0 <= i < |made| ==> r[i] == made[i].number
  {
    seq(|made|, i requires 0 <= i < |made| => made[i].number)
  }

  // The `i`-th subscription is stopped, or tried to be.
  predicate StoppedIn(acts: seq<Act>, i: nat) {
    exists k :: 0 <= k < |acts| && acts[k].Stopping? && acts[k].i == i
  }

  lemma StoppedMore(acts: seq<Act>, k: nat)
    requires k < |acts|
    ensures forall i :: StoppedIn(acts[..k], i) || (acts[k].Stopping? && acts[k].i == i) ==> StoppedIn(acts[..k + 1], i)
    ensures OpenedBy(acts[..k + 1]) == OpenedBy(acts[..k]) + Opens(acts[k])
  {
    var more := acts[..k + 1];
    assert more[..k] == acts[..k] && more[k] == acts[k];
    assert forall j :: 0 <= j < k ==> more[j] == acts[..k][j];
  }

  lemma NothingDone()
    ensures OpenedBy([]) == [] && DisturbedBy([]) == {}
  {
  }

  predicate ReadBy(act: Act, made: seq<Subscription>, o: Subscription) {
    act.Reading? && act.i < |made| && made[act.i] == o
  }

  predicate ReadIn(acts: seq<Act>, made: seq<Subscription>, o: Subscription) {
    exists k :: 0 <= k < |acts| && ReadBy(acts[k], made, o)
  }

  lemma RunStep(acts: seq<Act>, k: nat)
    requires k < |acts|
    ensures DisturbedBy(acts[..k + 1]) == DisturbedBy(acts[..k]) + Disturbs(acts[k])
    ensures forall n :: DefaultedBy(acts[..k], n) || (acts[k].Defaulting? && acts[k].number == n) ==> DefaultedBy(acts[..k + 1], n)
  {
    var more := acts[..k + 1];
    assert more[..k] == acts[..k] && more[k] == acts[k];
    forall n | DefaultedBy(acts[..k], n) || (acts[k].Defaulting? && acts[k].number == n)
      ensures DefaultedBy(more, n)
    {
      if DefaultedBy(acts[..k], n) {
        var j :| 0 <= j < k && acts[..k][j].Defaulting? && acts[..k][j].number == n;
        assert more[j] == acts[..k][j];
      }
    }
  }

  lemma ReadMore(acts: seq<Act>, k: nat, before: seq<Subscription>, all: seq<Subscription>)
    requires k < |acts| && before <= all
    ensures forall o :: ReadIn(acts[..k], before, o) || ReadBy(acts[k], before, o) ==> ReadIn(acts[..k + 1], all, o)
  {
    var more := acts[..k + 1];
    assert forall j :: 0 <= j < k ==> more[j] == acts[..k][j];
    assert more[k] == acts[k];
    assert forall j :: 0 <= j < |before| ==> all[j] == before[j];
  }

  lemma OpenedLists(before: map<int, seq<Subscription>>, after: map<int, seq<Subscription>>, made: seq<Subscription>, s: Subscription)
    requires s.number in before && after == before[s.number := [s] + before[s.number]]
    requires forall n, o :: n in before && o in before[n] ==> o in made
    ensures forall n, o :: n in after && o in after[n] ==> o in made + [s]
    ensures forall n, o :: n in before && o in before[n] ==> n in after && o in after[n]
    ensures s.number in after && s in after[s.number]
  {
  }

  // The other members of a list stay in it.
  lemma StoppedLists(before: map<int, seq<Subscription>>, after: map<int, seq<Subscription>>, s: Subscription)
    requires before.Keys == after.Keys && s.number in before
    requires after == before || (after == before[s.number := after[s.number]] && Removed(before[s.number], after[s.number], s))
    ensures forall n, o :: n in after && o in after[n] ==> o in before[n]
    ensures forall n, o :: n in before && o in before[n] && o != s ==> o in after[n]
  {
    if after != before {
      RemovedMembers(before[s.number], after[s.number], s);
    }
  }

  lemma RemovedMembers(before: seq<Subscription>, after: seq<Subscription>, s: Subscription)
    requires Removed(before, after, s)
    ensures forall o :: o in after ==> o in before
    ensures forall o :: o in before && o != s ==> o in after
  {
    var i :| 0 <= i < |before| && before[i] == s && after == before[..i] + before[i + 1..];
    forall o | o in before && o != s
      ensures o in after
    {
      var j :| 0 <= j < |before| && before[j] == o;
      assert if j < i then after[j] == o else after[j - 1] == o;
    }
  }

  class Signals {
    var heads: map<int, Subscription?>
    var previous: map<int, Disposition>
    var dispositions: map<int, Disposition>
    // The lists the pointers make, and what each signal had before the first subscriber.
    ghost var lists: map<int, seq<Subscription>>
    ghost var nodes: set<Subscription>
    ghost var original: map<int, Disposition>
    // Numbers whose disposition somebody else changed.
    ghost var disturbed: set<int>

    ghost predicate Valid()
      reads this, nodes
    {
      && Keyed(lists, heads, original, dispositions)
      && AllIn(lists, nodes)
      && (forall n :: n in lists ==> Linked(n, heads[n], lists[n]))
      && Kept(lists, dispositions, previous, original, disturbed)
    }

    constructor (start: map<int, Disposition>)
      requires (forall n :: n in start <==> Numbered(n)) && forall n :: n in start ==> start[n] != Ours
      ensures Valid() && dispositions == start && original == start && disturbed == {} && nodes == {}
      ensures forall n :: n in lists ==> lists[n] == []
    {
      heads := map n | n in start :: null;
      previous, dispositions := map[], start;
      lists := map n | n in start :: [];
      nodes, original, disturbed := {}, start, {};
    }

    // A subscription; `works` says whether the pipe and the handler could be set up.
    method Open(number: int, works: bool) returns (s: Subscription?)
      requires Valid()
      modifies this
      ensures Valid()
      ensures s == null <==> !(0 < number < 65 && number != 9 && number != 19) || !works
      ensures s == null ==> lists == old(lists) && dispositions == old(dispositions)
      ensures s != null ==>
                && fresh(s) && s.open && s.bytes == 0 && lists == old(lists)[number := [s] + old(lists)[number]]
                && dispositions == if old(lists)[number] == [] then old(dispositions)[number := Ours] else old(dispositions)
      ensures original == old(original) && disturbed == old(disturbed)
      ensures nodes == old(nodes) + (if s != null then {s} else {}) && (s != null ==> s.number == number)
    {
      hide Kept, Linked, AllIn, Keyed;
      if number <= 0 || number >= NSIG || number == SIGKILL || number == SIGSTOP || !works {
        return null;
      }
      assert Numbered(number);
      var added := new Subscription(number);
      InKeys(lists, heads, original, dispositions, number);
      HeadOf(number, heads[number], lists[number]);
      KeptOpen(lists, dispositions, previous, original, disturbed, number, added);
      KeyedUpdate(lists, heads, original, dispositions, number, lists[number], null);
      if heads[number] == null {
        previous := previous[number := dispositions[number]];
        dispositions := dispositions[number := Ours];
      }
      Link(number, added);
      return added;
    }

    // At the head of its list.
    method Link(number: int, added: Subscription)
      requires Keyed(lists, heads, original, dispositions) && number in lists && AllIn(lists, nodes)
      requires forall n :: n in lists ==> Linked(n, heads[n], lists[n])
      requires Kept(lists[number := [added] + lists[number]], dispositions, previous, original, disturbed)
      requires added !in nodes && added.number == number && added.open
      modifies this`heads, this`lists, this`nodes, added`next
      ensures Valid() && lists == old(lists)[number := [added] + old(lists)[number]] && nodes == old(nodes) + {added}
    {
      hide Kept, Linked, AllIn, Keyed, Numbered;
      ghost var after := lists[number := [added] + lists[number]];
      InKeys(lists, heads, original, dispositions, number);
      KeyedUpdate(lists, heads, original, dispositions, number, after[number], added);
      AllInCons(lists, nodes, number, added);
      added.next := heads[number];
      forall n | n in lists
        ensures Linked(n, heads[n], lists[n])
      {
        assert old(Linked(n, heads[n], lists[n]));
      }
      LinkedCons(number, heads[number], lists[number], added);
      heads := heads[number := added];
      nodes := nodes + {added};
      lists := after;
    }

    // The handler runs: every subscriber has something to read.
    method Deliver(number: int)
      requires Valid() && Numbered(number)
      modifies nodes
      ensures Valid()
      ensures dispositions[number] == Ours ==> forall i :: 0 <= i < |lists[number]| ==> 0 < lists[number][i].bytes
      ensures forall o :: o in nodes ==> o.open == old(o.open) && o.next == old(o.next) && o.bytes >= old(o.bytes)
      ensures forall o :: o in nodes && (o.number != number || dispositions[number] != Ours) ==> o.bytes == old(o.bytes)
      // One byte each, unless the pipe is full, which tells the reader already.
      ensures dispositions[number] == Ours ==>
                forall i :: 0 <= i < |lists[number]| ==>
                  var o := lists[number][i]; o.bytes == if old(o.bytes) < 65536 then old(o.bytes) + 1 else old(o.bytes)
      ensures forall o :: o in nodes ==> o.bytes == old(o.bytes) || (o.bytes == old(o.bytes) + 1 <= 65536)
    {
      hide Kept, Linked, Distinct;
      if dispositions[number] != Ours {
        return;
      }
      ghost var list := lists[number];
      Members(number, heads[number], list);
      var s := heads[number];
      ghost var i := 0;
      while s != null
        invariant i <= |list| && s == (if i < |list| then list[i] else null)
        invariant forall o :: o in nodes ==> o.open == old(o.open) && o.next == old(o.next) && o.bytes >= old(o.bytes)
        invariant forall o :: o in nodes && o.number != number ==> o.bytes == old(o.bytes)
        invariant forall o :: o in nodes ==> o.bytes == old(o.bytes) || o.bytes == old(o.bytes) + 1 <= PIPE
        invariant forall j :: i <= j < |list| ==> list[j].bytes == old(list[j].bytes)
        invariant forall j :: 0 <= j < i ==> list[j].bytes == if old(list[j].bytes) < PIPE then old(list[j].bytes) + 1 else old(list[j].bytes)
        decreases |list| - i
      {
        assert s == list[i] && lists[number][i] in nodes && s.next == old(s.next);
        Once(list, i);
        // A full pipe already has a pending notification.
        if s.bytes < PIPE {
          s.bytes := s.bytes + 1;
        }
        s := s.next;
        i := i + 1;
      }
      StillLinked();
    }

    // Links that were not touched are still there.
    twostate lemma StillLinked()
      requires old(Valid())
      requires lists == old(lists) && heads == old(heads) && nodes == old(nodes)
      requires original == old(original) && disturbed == old(disturbed) && dispositions == old(dispositions) && previous == old(previous)
      requires forall o :: o in nodes ==> o.open == old(o.open) && o.next == old(o.next)
      ensures Valid()
    {
      forall n | n in lists
        ensures Linked(n, heads[n], lists[n])
      {
        assert old(Linked(n, heads[n], lists[n]));
      }
    }

    // Reads what is pending; with nothing pending it blocks while the subscription is open.
    method Wait(s: Subscription) returns (count: nat)
      requires Valid() && s in nodes && (s.bytes > 0 || !s.open)
      modifies s`bytes
      ensures Valid()
      ensures count == (if old(s.bytes) < 64 then old(s.bytes) else 64) && s.bytes == old(s.bytes) - count
      ensures count == 0 ==> !s.open
    {
      count := if s.bytes < 64 then s.bytes else 64;
      s.bytes := s.bytes - count;
      StillLinked();
    }

    // Somebody else changes a disposition.
    method Interfere(number: int, d: Disposition)
      requires Valid() && Numbered(number)
      modifies this`dispositions, this`disturbed
      ensures Valid() && dispositions == old(dispositions)[number := d] && disturbed == old(disturbed) + {number}
    {
      dispositions := dispositions[number := d];
      disturbed := disturbed + {number};
    }

    // Back to the default, for a signal without subscribers.
    method ToDefault(number: int, works: bool) returns (ok: bool)
      requires Valid()
      modifies this`dispositions, this`original
      ensures Valid()
      ensures ok <==> 0 < number < 65 && lists[number] == [] && works
      ensures dispositions == if ok then old(dispositions)[number := Default] else old(dispositions)
      ensures original == if ok then old(original)[number := Default] else old(original)
    {
      if number <= 0 || number >= NSIG {
        return false;
      }
      assert Numbered(number) && Linked(number, heads[number], lists[number]);
      if heads[number] != null || !works {
        return false;
      }
      dispositions := dispositions[number := Default];
      original := original[number := Default];
      return true;
    }

    // Ends a subscription; the last one of a signal puts its disposition back, unless somebody
    // else has changed it meanwhile.
    method Stop(s: Subscription, works: bool) returns (status: int)
      requires Valid() && Numbered(s.number)
      modifies this, nodes, s
      ensures Valid()
      ensures status == 0 || status == -1
      ensures !old(s.open) ==> status == 0 && !s.open && lists == old(lists) && dispositions == old(dispositions)
      ensures status == -1 ==> lists == old(lists) && dispositions == old(dispositions) && s.open == old(s.open)
      ensures status == -1 <==> old(s.open) && (s !in old(lists)[s.number] || (old(lists)[s.number] == [s] && !works))
      ensures status == 0 && old(s.open) ==> s !in lists[s.number] && !s.open && lists == old(lists)[s.number := lists[s.number]]
      ensures status == 0 && old(s.open) ==> Removed(old(lists)[s.number], lists[s.number], s)
      ensures status == 0 && old(s.open) && lists[s.number] == [] && s.number !in disturbed ==> dispositions[s.number] == original[s.number]
      // It changes no disposition but its own signal's, and that one only from ours and with the last one.
      ensures forall n :: n in dispositions && n != s.number ==> n in old(dispositions) && dispositions[n] == old(dispositions)[n]
      ensures s.number in old(dispositions) && (old(dispositions)[s.number] != Ours || lists[s.number] != []) ==> dispositions == old(dispositions)
      ensures original == old(original) && disturbed == old(disturbed)
      // What other subscribers have to read, and whether they are open, stays.
      ensures nodes == old(nodes) && forall o :: o in nodes ==> o.bytes == old(o.bytes) && (o != s ==> o.open == old(o.open))
    {
      hide Kept, Linked, Removed;
      var n := s.number;
      ghost var list := lists[n];
      if !s.open {
        return 0;
      }
      var before, i := Find(n, s);
      if before.1 == null {
        return -1;
      }
      IsIn(list, i, s);
      if s.next == null && before.0 == null {
        if !works {
          return -1;
        }
        KeptStop(lists, dispositions, previous, original, disturbed, n);
        KeptMeans(lists, dispositions, previous, original, disturbed, n);
        if dispositions[n] == Ours {
          dispositions := dispositions[n := previous[n]];
        }
      } else {
        KeptShorter(lists, dispositions, previous, original, disturbed, n, list[..i] + list[i + 1..]);
      }
      InNodes(lists, nodes, n, i);
      Unlink(n, s, before.0, i);
      KeptMeans(lists, dispositions, previous, original, disturbed, n);
      return 0;
    }

    // ---- Runs ----

    // Every list holds the open subscriptions of its number among those made.
    ghost predicate Lists(made: seq<Subscription>)
      reads this, made
    {
      && (forall o :: o in made ==> o in nodes && Numbered(o.number) && (o.open ==> o.number in lists && o in lists[o.number]))
      && (forall n, o :: n in lists && o in lists[n] ==> o in made)
      && (forall i, j :: 0 <= i < j < |made| ==> made[i] != made[j])
    }

    method DoOpen(number: int, works: bool, made: seq<Subscription>) returns (all: seq<Subscription>)
      requires Valid() && Lists(made)
      modifies this
      ensures Valid() && Lists(all) && made <= all && old(nodes) <= nodes && fresh(nodes - old(nodes))
      ensures disturbed == old(disturbed) && original == old(original)
      ensures Numbers(all) == Numbers(made) + Opens(Opening(number, works))
      ensures forall i :: |made| <= i < |all| ==> all[i].open && all[i].bytes == 0
    {
      hide Kept, Linked, AllIn, Keyed;
      all := made;
      InKeys(lists, heads, original, dispositions, number);
      var s := Open(number, works);
      if s != null {
        all := made + [s];
        OpenedLists(old(lists), lists, made, s);
      }
    }

    method DoStop(i: nat, works: bool, made: seq<Subscription>)
      requires Valid() && Lists(made) && i < |made|
      modifies this, nodes
      ensures Valid() && Lists(made) && nodes == old(nodes) && disturbed == old(disturbed) && original == old(original)
      ensures forall o :: o in nodes ==> o.bytes == old(o.bytes) && (o != made[i] ==> o.open == old(o.open))
      ensures works ==> !made[i].open
    {
      hide Kept, Linked, AllIn, Keyed, Removed;
      ghost var before := lists;
      InKeys(lists, heads, original, dispositions, made[i].number);
      var status := Stop(made[i], works);
      StoppedLists(before, lists, made[i]);
    }

    // One thing that a program, the kernel or somebody else does.
    method Do(act: Act, made: seq<Subscription>) returns (all: seq<Subscription>)
      requires Valid() && Lists(made)
      modifies this, nodes
      ensures Valid() && Lists(all) && made <= all && old(nodes) <= nodes && fresh(nodes - old(nodes))
      ensures disturbed == old(disturbed) + Disturbs(act)
      ensures forall n :: n in old(original) ==> n in original && original[n] in {old(original)[n], Default}
      ensures forall n :: n in old(original) && !(act.Defaulting? && act.number == n) ==> original[n] == old(original)[n]
      ensures forall o :: o in old(nodes) && !ReadBy(act, made, o) ==> o.bytes >= old(o.bytes)
      ensures Numbers(all) == Numbers(made) + Opens(act)
      ensures forall i :: |made| <= i < |all| ==> all[i].open && all[i].bytes == 0
      ensures forall i :: 0 <= i < |made| && old(made[i].open) && !(act.Stopping? && act.i == i) ==> all[i].open
      ensures act.Stopping? && act.i < |made| && act.works ==> !made[act.i].open
      ensures act.Delivery? && 0 < act.number < 65 && dispositions[act.number] == Ours ==>
                forall o :: o in made && o.open && o.number == act.number ==> 0 < o.bytes
    {
      hide Kept, Linked, AllIn, Keyed, Removed;
      all := made;
      match act
      case Opening(number, works) =>
        all := DoOpen(number, works, made);
      case Delivery(number) =>
        if Numbered(number) {
          Deliver(number);
        }
      case Reading(i) =>
        if i < |made| && (made[i].bytes > 0 || !made[i].open) {
          var count := Wait(made[i]);
        }
      case Stopping(i, works) =>
        if i < |made| {
          DoStop(i, works, made);
        }
      case Interference(number, d) =>
        if Numbered(number) {
          Interfere(number, d);
        }
      case Defaulting(number, works) =>
        var ok := ToDefault(number, works);
    }

    /** Any sequence of these: what a subscriber has to read stays there until it reads. */
    method Run(acts: seq<Act>, made: seq<Subscription>) returns (all: seq<Subscription>)
      requires Valid() && Lists(made)
      modifies this, nodes
      ensures Valid() && Lists(all) && made <= all
      ensures disturbed == old(disturbed) + DisturbedBy(acts)
      ensures forall n :: n in old(original) ==> n in original && original[n] in {old(original)[n], Default}
      ensures forall n :: n in old(original) && !DefaultedBy(acts, n) ==> original[n] == old(original)[n]
      ensures forall o :: o in old(nodes) && 0 < old(o.bytes) && !ReadIn(acts, all, o) ==> 0 < o.bytes
      // Exactly the subscriptions that were asked for are made, and stay open until they are stopped.
      ensures Numbers(all) == Numbers(made) + OpenedBy(acts)
      ensures forall i :: 0 <= i < |all| && (i < |made| ==> old(made[i].open)) && !StoppedIn(acts, i) ==> all[i].open
    {
      hide Lists, StoppedIn, ReadIn, DefaultedBy, OpenedBy, DisturbedBy, Opens, Disturbs, Numbers;
      all := made;
      NothingDone();
      assert Numbers(made) + [] == Numbers(made);
      assert acts[..0] == [];
      for k := 0 to |acts|
        invariant Valid() && Lists(all) && made <= all && old(nodes) <= nodes && fresh(nodes - old(nodes))
        invariant disturbed == old(disturbed) + DisturbedBy(acts[..k])
        invariant forall n :: n in old(original) ==> n in original && original[n] in {old(original)[n], Default}
        invariant forall n :: n in old(original) && !DefaultedBy(acts[..k], n) ==> original[n] == old(original)[n]
        invariant forall o :: o in old(nodes) && 0 < old(o.bytes) && !ReadIn(acts[..k], all, o) ==> 0 < o.bytes
        invariant Numbers(all) == Numbers(made) + OpenedBy(acts[..k])
        invariant forall i :: 0 <= i < |all| && (i < |made| ==> old(made[i].open)) && !StoppedIn(acts[..k], i) ==> all[i].open
      {
        ghost var before := all;
        RunStep(acts, k);
        StoppedMore(acts, k);
        all := Do(acts[k], all);
        ReadMore(acts, k, before, all);
      }
      assert acts[..|acts|] == acts;
    }

    // The node before `s`, and `s` if it is in the list.
    method Find(n: int, s: Subscription) returns (found: (Subscription?, Subscription?), ghost i: nat)
      requires Valid() && n in lists
      ensures found.1 == null <==> s !in lists[n]
      ensures s in lists[n] ==>
                && i < |lists[n]| && lists[n][i] == s && s.next == Next(lists[n], i)
                && found == (if i == 0 then null else lists[n][i - 1], s)
    {
      ghost var list := lists[n];
      var before: Subscription?, at := null, heads[n];
      i := 0;
      while at != null && at != s
        invariant i <= |list| && at == (if i < |list| then list[i] else null)
        invariant before == (if i == 0 then null else list[i - 1])
        invariant s !in list[..i]
        decreases |list| - i
      {
        assert list[i].next == Next(list, i);
        before, at := at, at.next;
        i := i + 1;
      }
      if at == null {
        assert list[..|list|] == list;
        return (null, null), i;
      }
      assert list[i].next == Next(list, i);
      return (before, at), i;
    }

    method Unlink(n: int, s: Subscription, before: Subscription?, ghost i: nat)
      requires Keyed(lists, heads, original, dispositions) && n in lists
      requires AllIn(lists, nodes)
      requires (forall m :: m in lists ==> Linked(m, heads[m], lists[m]))
      requires i < |lists[n]| && lists[n][i] == s && s.next == Next(lists[n], i)
      requires before == if i == 0 then null else lists[n][i - 1]
      requires Kept(lists[n := lists[n][..i] + lists[n][i + 1..]], dispositions, previous, original, disturbed)
      modifies this`heads, this`lists, before, s
      ensures Valid() && !s.open && lists == old(lists)[n := old(lists)[n][..i] + old(lists)[n][i + 1..]]
      ensures s !in lists[n]
      ensures s.bytes == old(s.bytes) && (before != null ==> before.bytes == old(before.bytes) && before.open == old(before.open))
    {
      hide Kept, Linked, AllIn, Distinct, Apart, Keyed, Numbered;
      ghost var list := lists[n];
      ghost var rest := list[..i] + list[i + 1..];
      InKeys(lists, heads, original, dispositions, n);
      Members(n, heads[n], list);
      Elsewhere(lists, heads, n, s, before);
      StillNodes(lists, nodes, n, i, rest);
      KeyedUpdate(lists, heads, original, dispositions, n, rest, s.next);
      Once(list, i);
      if before != null {
        Once(list, i - 1);
      }
      Detach(n, s, before);
      Relinked(n, heads[n], list, i, rest);
      ghost var after := lists[n := rest];
      forall m | m in after
        ensures Linked(m, heads[m], after[m])
      {
        if m != n {
          Spared(lists, n, m, s, before);
          assert old(Linked(m, heads[m], lists[m]));
        }
      }
      lists := after;
    }

    method Detach(n: int, s: Subscription, before: Subscription?)
      requires n in heads && s != before
      modifies this`heads, before, s
      ensures before == null ==> heads == old(heads)[n := old(s.next)]
      ensures before != null ==> heads == old(heads) && before.next == old(s.next) && before.open == old(before.open) && before.bytes == old(before.bytes)
      ensures s.bytes == old(s.bytes)
      ensures !s.open
    {
      if before == null {
        heads := heads[n := s.next];
      } else {
        before.next := s.next;
      }
      s.open := false;
    }
  }

  /** From the start, and for every signal that nobody else interferes with: the handler is
      installed exactly while an open subscription of it exists, and otherwise the disposition is
      the original one, or the default if the program asked for it. */
  method Session(start: map<int, Disposition>, acts: seq<Act>) returns (h: Signals, all: seq<Subscription>)
    requires (forall n :: n in start <==> 0 < n < 65) && forall n :: n in start ==> start[n] != Ours
    ensures forall n :: 0 < n < 65 && (forall k :: 0 <= k < |acts| && acts[k].Interference? ==> acts[k].number != n) ==>
              && n in h.dispositions
              && (h.dispositions[n] == Ours <==> exists o :: o in all && o.open && o.number == n)
              && (h.dispositions[n] == Ours || h.dispositions[n] == start[n] || h.dispositions[n] == Default)
              && ((forall k :: 0 <= k < |acts| && acts[k].Defaulting? ==> acts[k].number != n) ==>
                    h.dispositions[n] == Ours || h.dispositions[n] == start[n])
    // The subscriptions are those that were asked for; one that is never stopped is open.
    ensures Numbers(all) == OpenedBy(acts)
    ensures forall i :: 0 <= i < |all| && !StoppedIn(acts, i) ==> all[i].open
  {
    hide OpenedBy, StoppedIn, ReadIn, DisturbedBy, Signals.Valid;
    h := new Signals(start);
    all := h.Run(acts, []);
    assert Numbers([]) + OpenedBy(acts) == OpenedBy(acts);
    SessionEnds(h, all);
    forall n | 0 < n < 65 && forall k :: 0 <= k < |acts| && acts[k].Interference? ==> acts[k].number != n
      ensures n !in DisturbedBy(acts)
    {
      Undisturbed(acts, n);
    }
  }

  lemma {:induction false} Undisturbed(acts: seq<Act>, n: int)
    requires forall k :: 0 <= k < |acts| && acts[k].Interference? ==> acts[k].number != n
    ensures n !in DisturbedBy(acts)
  {
    if acts != [] {
      Undisturbed(acts[..|acts| - 1], n);
    }
  }

  lemma SessionEnds(h: Signals, all: seq<Subscription>)
    requires h.Valid() && h.Lists(all)
    ensures forall n :: Numbered(n) && n !in h.disturbed ==>
              && n in h.dispositions && n in h.original && h.original[n] != Ours
              && (h.dispositions[n] == Ours <==> exists o :: o in all && o.open && o.number == n)
              && (h.dispositions[n] == Ours || h.dispositions[n] == h.original[n])
  {
    forall n | Numbered(n) && n !in h.disturbed
      ensures n in h.dispositions && n in h.original && h.original[n] != Ours
      ensures h.dispositions[n] == Ours <==> exists o :: o in all && o.open && o.number == n
      ensures h.dispositions[n] == Ours || h.dispositions[n] == h.original[n]
    {
      KeptMeans(h.lists, h.dispositions, h.previous, h.original, h.disturbed, n);
      Members(n, h.heads[n], h.lists[n]);
      if h.lists[n] != [] {
        assert h.lists[n][0] in all && h.lists[n][0].open;
      }
    }
  }

  // The remaining nodes, in the state after the change: all but node `i` and its predecessor
  // point where they did, and the predecessor points behind node `i`.
  lemma Relinked(n: int, head: Subscription?, list: seq<Subscription>, i: nat, rest: seq<Subscription>)
    requires i < |list| && rest == list[..i] + list[i + 1..]
    requires Distinct(list)
    requires forall j :: 0 <= j < |list| && j != i ==> list[j].number == n && list[j].open
    requires forall j :: 0 <= j < |list| && j != i && j + 1 != i ==> list[j].next == Next(list, j)
    requires i > 0 ==> list[i - 1].next == Next(list, i)
    requires head == if i > 0 then list[0] else Next(list, 0)
    ensures Linked(n, head, rest) && list[i] !in rest
  {
    assert forall j :: 0 <= j < i ==> rest[j] == list[j];
    assert forall j :: i <= j < |rest| ==> rest[j] == list[j + 1];
  }

  lemma StillNodes(lists: map<int, seq<Subscription>>, nodes: set<Subscription>, n: int, i: nat, rest: seq<Subscription>)
    requires n in lists && i < |lists[n]| && rest == lists[n][..i] + lists[n][i + 1..]
    requires AllIn(lists, nodes)
    ensures AllIn(lists[n := rest], nodes)
  {
    assert forall k :: 0 <= k < i ==> rest[k] == lists[n][k];
    assert forall k :: i <= k < |rest| ==> rest[k] == lists[n][k + 1];
  }

  lemma InNodes(lists: map<int, seq<Subscription>>, nodes: set<Subscription>, n: int, i: nat)
    requires AllIn(lists, nodes) && n in lists && i < |lists[n]|
    ensures lists[n][i] in nodes && (i > 0 ==> lists[n][i - 1] in nodes)
  {
  }

  // Two nodes that are on no list but that of `n`.
  ghost predicate Apart(lists: map<int, seq<Subscription>>, n: int, s: Subscription, before: Subscription?) {
    forall m, j :: m in lists && m != n && 0 <= j < |lists[m]| ==> lists[m][j] != s && lists[m][j] != before
  }

  lemma Spared(lists: map<int, seq<Subscription>>, n: int, m: int, s: Subscription, before: Subscription?)
    requires Apart(lists, n, s, before) && m in lists && m != n
    ensures s !in lists[m] && before !in lists[m]
  {
  }

  // Nodes of other lists have other numbers.
  lemma Elsewhere(lists: map<int, seq<Subscription>>, heads: map<int, Subscription?>, n: int, s: Subscription, before: Subscription?)
    requires lists.Keys <= heads.Keys && forall m :: m in lists ==> Linked(m, heads[m], lists[m])
    requires s.number == n && (before != null ==> before.number == n)
    ensures Apart(lists, n, s, before)
  {
  }

  lemma IsIn(list: seq<Subscription>, i: nat, s: Subscription)
    requires i < |list| && list[i] == s
    ensures s in list && Removed(list, list[..i] + list[i + 1..], s)
    ensures i == 0 && Next(list, 0) == null <==> list == [s]
    ensures list[..i] + list[i + 1..] == [] <==> list == [s]
  {
    if |list| == 1 {
      assert list == [s];
    }
  }

  lemma HeadOf(n: int, head: Subscription?, list: seq<Subscription>)
    requires Linked(n, head, list)
    ensures head == null <==> list == []
  {
  }

  lemma Members(n: int, head: Subscription?, list: seq<Subscription>)
    requires Linked(n, head, list)
    ensures Distinct(list)
    ensures forall i :: 0 <= i < |list| ==> list[i].number == n && list[i].open && list[i].next == Next(list, i)
    ensures head == (if list == [] then null else list[0])
  {
  }

  lemma KeptStop(lists: map<int, seq<Subscription>>, dispositions: map<int, Disposition>, previous: map<int, Disposition>,
                 original: map<int, Disposition>, disturbed: set<int>, n: int)
    requires Kept(lists, dispositions, previous, original, disturbed) && lists.Keys == dispositions.Keys == original.Keys && n in lists
    requires lists[n] != []
    ensures Kept(lists[n := []], if dispositions[n] == Ours then dispositions[n := previous[n]] else dispositions,
                 previous, original, disturbed)
  {
  }

  lemma KeptShorter(lists: map<int, seq<Subscription>>, dispositions: map<int, Disposition>, previous: map<int, Disposition>,
                    original: map<int, Disposition>, disturbed: set<int>, n: int, shorter: seq<Subscription>)
    requires Kept(lists, dispositions, previous, original, disturbed) && lists.Keys == dispositions.Keys == original.Keys && n in lists
    requires lists[n] != [] && shorter != []
    ensures Kept(lists[n := shorter], dispositions, previous, original, disturbed)
  {
  }

  // The list without one of its nodes, in the same order.
  predicate Removed(before: seq<Subscription>, after: seq<Subscription>, s: Subscription) {
    exists i :: 0 <= i < |before| && before[i] == s && after == before[..i] + before[i + 1..]
  }
}
