/** Mirroring a live module into the configs children inherit, and undoing it
    (kernel/bundle_compose.py).  Configs and lists are referenced by number, so two
    configs can share one list object. */
module ConfigInheritance {
  import Sequences

  type Section = string
  type Identity = string

  /** A list element: a missing value, or an entry object with its module identity. */
  datatype Item = NoneItem | Entry(handle: nat, identity: Identity)

  /** What a config holds under one section. */
  datatype Field = Missing | Null | ListRef(list: nat) | Other

  datatype Key = Key(config: nat, section: Section)

  /** Objects are numbered below next, in creation order. */
  datatype Heap = Heap(fields: map<Key, Field>, lists: map<nat, seq<Item>>, next: nat)

  datatype Mutation = Mutation(key: Key, list: nat, index: nat, previous: Item, inserted: Item, created: bool)

  datatype Progress = Progress(heap: Heap, mutations: seq<Mutation>, failed: bool)

  const NONE_IDENTITY: Identity := "None"

  function FieldOf(h: Heap, k: Key): Field {
    if k in h.fields then h.fields[k] else Missing
  }

  function IdentityOf(x: Item): Identity {
    match x case NoneItem => NONE_IDENTITY case Entry(_, i) => i
  }

  function Items(h: Heap, l: nat): seq<Item> {
    if l in h.lists then h.lists[l] else []
  }

  /** First position with the identity, or the length. */
  function FirstMatch(xs: seq<Item>, identity: Identity): (i: nat)
    ensures i <= |xs|
    ensures i < |xs| ==> IdentityOf(xs[i]) == identity
    ensures forall j | 0 <= j < i :: IdentityOf(xs[j]) != identity
  {
    if xs == [] || IdentityOf(xs[0]) == identity then 0 else 1 + FirstMatch(xs[1..], identity)
  }

  /** The mutation a fresh list object or an existing one receives. */
  function MutationFor(h: Heap, k: Key, identity: Identity): Mutation {
    var created := FieldOf(h, k).Missing? || FieldOf(h, k).Null?;
    var l := if FieldOf(h, k).ListRef? then FieldOf(h, k).list else h.next;
    var xs := if created then [] else Items(h, l);
    var i := FirstMatch(xs, identity);
    Mutation(k, l, i, if i < |xs| then xs[i] else NoneItem, Entry(h.next + 1, identity), created)
  }

  function Placed(xs: seq<Item>, i: nat, x: Item): seq<Item> {
    if i < |xs| then xs[i := x] else xs + [x]
  }

  function Mutated(h: Heap, k: Key, identity: Identity): Heap {
    var m := MutationFor(h, k, identity);
    var xs := if m.created then [] else Items(h, m.list);
    Heap(if m.created then h.fields[k := ListRef(m.list)] else h.fields,
         h.lists[m.list := Placed(xs, m.index, m.inserted)],
         h.next + 2)
  }

  predicate Seen(ms: seq<Mutation>, l: nat) {
    exists i | 0 <= i < |ms| :: ms[i].list == l
  }

  /** One config of the target list; a section that is no list fails the call. */
  function InheritOne(p: Progress, k: Key, identity: Identity): Progress {
    if p.failed then p
    else
      match FieldOf(p.heap, k)
      case Other => p.(failed := true)
      case ListRef(l) =>
        if Seen(p.mutations, l) then p
        else Progress(Mutated(p.heap, k, identity), p.mutations + [MutationFor(p.heap, k, identity)], false)
      case _ => Progress(Mutated(p.heap, k, identity), p.mutations + [MutationFor(p.heap, k, identity)], false)
  }

  function InheritAll(h: Heap, ks: seq<Key>, identity: Identity): Progress {
    if ks == [] then Progress(h, [], false)
    else InheritOne(InheritAll(h, ks[..|ks| - 1], identity), ks[|ks| - 1], identity)
  }

  /** The list without the mutation, undone only where its own entry still stands. */
  function UndoneList(xs: seq<Item>, m: Mutation): seq<Item> {
    if m.index < |xs| && xs[m.index] == m.inserted
    then if m.previous == NoneItem then xs[..m.index] + xs[m.index + 1..] else xs[m.index := m.previous]
    else xs
  }

  /** Undo one recorded mutation. */
  function UndoOne(h: Heap, m: Mutation): Heap {
    var xs' := UndoneList(Items(h, m.list), m);
    var drop := m.created && xs' == [] && FieldOf(h, m.key) == ListRef(m.list);
    h.(lists := h.lists[m.list := xs'],
       fields := if drop then h.fields - {m.key} else h.fields)
  }

  /** Mutations are undone newest first. */
  function UndoAll(h: Heap, ms: seq<Mutation>): Heap
    decreases |ms|
  {
    if ms == [] then h else UndoAll(UndoOne(h, ms[|ms| - 1]), ms[..|ms| - 1])
  }

  // ----- the live objects -----------------------------------------------------------------

  class Session {
    var heap: Heap

    /** Transactional: either every target carries the entry, or the recorded changes are undone. */
    method Inherit(targets: seq<Key>, identity: Identity) returns (ok: bool, mutations: seq<Mutation>)
      modifies this
      ensures var p := InheritAll(old(heap), targets, identity);
              && ok == !p.failed && mutations == p.mutations
              && heap == if ok then p.heap else UndoAll(p.heap, p.mutations)
      ensures ok <==> forall i | 0 <= i < |targets| :: !FieldOf(old(heap), targets[i]).Other?
    {
      FailsExactly(heap, targets, identity);
      ghost var h0 := heap;
      mutations := [];
      for i := 0 to |targets|
        invariant InheritAll(h0, targets[..i], identity) == Progress(heap, mutations, false)
      {
        var k := targets[i];
        assert targets[..i + 1][..i] == targets[..i];
        var field := FieldOf(heap, k);
        if field.Other? {
          FailureStays(h0, targets, i + 1, identity);
          Cleanup(mutations);
          return false, mutations;
        }
        if !(field.ListRef? && Seen(mutations, field.list)) {
          mutations := mutations + [MutationFor(heap, k, identity)];
          heap := Mutated(heap, k, identity);
        }
      }
      assert targets[..|targets|] == targets;
      ok := true;
    }

    /** The closure handed back to the caller. */
    method Cleanup(mutations: seq<Mutation>)
      modifies this
      ensures heap == UndoAll(old(heap), mutations)
    {
      var i := |mutations|;
      assert mutations[..|mutations|] == mutations;
      while i > 0
        invariant 0 <= i <= |mutations|
        invariant UndoAll(heap, mutations[..i]) == UndoAll(old(heap), mutations)
      {
        assert mutations[..i][..i - 1] == mutations[..i - 1];
        heap := UndoOne(heap, mutations[i - 1]);
        i := i - 1;
      }
    }
  }

  lemma {:induction false} FailureStays(h: Heap, ks: seq<Key>, i: nat, identity: Identity)
    requires i <= |ks| && InheritAll(h, ks[..i], identity).failed
    ensures InheritAll(h, ks, identity) == InheritAll(h, ks[..i], identity)
  {
    if i == |ks| {
      assert ks[..i] == ks;
    } else {
      assert ks[..|ks| - 1][..i] == ks[..i];
      FailureStays(h, ks[..|ks| - 1], i, identity);
    }
  }

  /** A call fails exactly if some target's section is there and is no list. */
  lemma {:induction false} FailsExactly(h: Heap, ks: seq<Key>, identity: Identity)
    ensures InheritAll(h, ks, identity).failed <==> exists i | 0 <= i < |ks| :: FieldOf(h, ks[i]).Other?
    ensures forall k :: FieldOf(InheritAll(h, ks, identity).heap, k).Other? <==> FieldOf(h, k).Other?
  {
    if ks != [] {
      var n := |ks| - 1;
      FailsExactly(h, ks[..n], identity);
      assert forall i | 0 <= i < n :: ks[..n][i] == ks[i];
    }
  }

  // ----- what a successful call leaves -----------------------------------------------------------

  /** Each mutation of its own list, with its entry standing there. */
  predicate Placements(h: Heap, ms: seq<Mutation>) {
    && (forall i, j | 0 <= i < j < |ms| :: ms[i].list != ms[j].list)
    && (forall i | 0 <= i < |ms| :: ms[i].list in h.lists && ms[i].inserted in h.lists[ms[i].list])
  }

  /** The config holds a list which one of the mutations gave the entry. */
  predicate Carries(h: Heap, k: Key, ms: seq<Mutation>) {
    FieldOf(h, k).ListRef? && Seen(ms, FieldOf(h, k).list)
  }

  /** After a successful call every target carries the entry, and no list got it twice, however
      many targets share it. */
  lemma {:induction false} InheritedOnce(h: Heap, ks: seq<Key>, identity: Identity)
    requires WellFormed(h)
    ensures var p := InheritAll(h, ks, identity);
            && WellFormed(p.heap) && Placements(p.heap, p.mutations) && Inserts(p.mutations, identity)
            && (!p.failed ==> AllCarry(p, ks))
  {
    if ks != [] {
      var n := |ks| - 1;
      InheritedOnce(h, ks[..n], identity);
      InheritedStep(InheritAll(h, ks[..n], identity), ks, identity);
    }
  }

  predicate Inserts(ms: seq<Mutation>, identity: Identity) {
    forall i | 0 <= i < |ms| :: ms[i].inserted.Entry? && ms[i].inserted.identity == identity
  }

  predicate AllCarry(p: Progress, ks: seq<Key>) {
    forall i | 0 <= i < |ks| :: Carries(p.heap, ks[i], p.mutations)
  }

  lemma InheritedStep(p: Progress, ks: seq<Key>, identity: Identity)
    requires ks != [] && WellFormed(p.heap) && Placements(p.heap, p.mutations) && Inserts(p.mutations, identity)
    requires !p.failed ==> AllCarry(p, ks[..|ks| - 1])
    ensures var q := InheritOne(p, ks[|ks| - 1], identity);
            && WellFormed(q.heap) && Placements(q.heap, q.mutations) && Inserts(q.mutations, identity)
            && (!q.failed ==> AllCarry(q, ks))
  {
    var n := |ks| - 1;
    var q := InheritOne(p, ks[n], identity);
    if !q.failed {
      if q != p { OnceMore(p, ks[n], identity); }
      forall i | 0 <= i < n ensures Carries(q.heap, ks[i], q.mutations) {
        assert Carries(p.heap, ks[..n][i], p.mutations);
        if q != p { StillCarries(p, ks[i], ks[n], identity); }
      }
    }
  }

  /** One more target that was mutated. */
  lemma OnceMore(p: Progress, k: Key, identity: Identity)
    requires WellFormed(p.heap) && Placements(p.heap, p.mutations) && !FieldOf(p.heap, k).Other?
    requires FieldOf(p.heap, k).ListRef? ==> !Seen(p.mutations, FieldOf(p.heap, k).list)
    ensures var m := MutationFor(p.heap, k, identity);
            var h, ms := Mutated(p.heap, k, identity), p.mutations + [m];
            WellFormed(h) && Placements(h, ms) && Carries(h, k, ms)
  {
    var m := MutationFor(p.heap, k, identity);
    var h, ms := Mutated(p.heap, k, identity), p.mutations + [m];
    forall i | 0 <= i < |p.mutations| ensures p.mutations[i].list != m.list {
      if p.mutations[i].list == m.list { assert Seen(p.mutations, m.list); }
    }
    assert h.lists[m.list][m.index] == m.inserted;
    assert ms[|p.mutations|].list == m.list;
  }

  lemma StillCarries(p: Progress, j: Key, k: Key, identity: Identity)
    requires Carries(p.heap, j, p.mutations) && !FieldOf(p.heap, k).Other?
    requires FieldOf(p.heap, k).ListRef? ==> !Seen(p.mutations, FieldOf(p.heap, k).list)
    ensures Carries(Mutated(p.heap, k, identity), j, p.mutations + [MutationFor(p.heap, k, identity)])
  {
    var l := FieldOf(p.heap, j).list;
    var i :| 0 <= i < |p.mutations| && p.mutations[i].list == l;
    var ms := p.mutations + [MutationFor(p.heap, k, identity)];
    assert ms[i].list == l;
  }

  // ----- undoing in reverse order ------------------------------------------------------------

  /** Every object is numbered below next and every referenced list exists. */
  predicate WellFormed(h: Heap) {
    && (forall l | l in h.lists :: l < h.next)
    && (forall l, i | l in h.lists && 0 <= i < |h.lists[l]| && h.lists[l][i].Entry? :: h.lists[l][i].handle < h.next)
    && (forall k | k in h.fields && h.fields[k].ListRef? :: h.fields[k].list in h.lists)
  }

  /** a shows exactly what b shows; a may hold further objects nothing in b refers to. */
  ghost predicate Restores(a: Heap, b: Heap) {
    && (forall k | k in a.fields || k in b.fields :: FieldOf(a, k) == FieldOf(b, k))
    && (forall l | l in b.lists :: l in a.lists && a.lists[l] == b.lists[l])
  }

  /** The entry about to be replaced is a real value, and a section about to be created was absent. */
  predicate PlainAt(h: Heap, k: Key, identity: Identity) {
    match FieldOf(h, k)
    case Null => false
    case ListRef(l) =>
      var xs := Items(h, l);
      var i := FirstMatch(xs, identity);
      i < |xs| ==> xs[i] != NoneItem
    case _ => true
  }

  lemma MutatedWellFormed(h: Heap, k: Key, identity: Identity)
    requires WellFormed(h) && !FieldOf(h, k).Other?
    ensures WellFormed(Mutated(h, k, identity))
  {
    var m := MutationFor(h, k, identity);
    var xs := if m.created then [] else Items(h, m.list);
    var ys := Placed(xs, m.index, m.inserted);
    assert forall i | 0 <= i < |ys| && ys[i].Entry? :: ys[i].handle < h.next + 2;
  }

  /** One mutation undone at once: restored exactly when the target was plain. */
  lemma UndoMutation(h: Heap, k: Key, identity: Identity)
    requires WellFormed(h) && !FieldOf(h, k).Other?
    ensures var h' := UndoOne(Mutated(h, k, identity), MutationFor(h, k, identity));
            && (Restores(h', h) <==> PlainAt(h, k, identity))
            && WellFormed(Mutated(h, k, identity)) == true
  {
    MutatedWellFormed(h, k, identity);
    var m := MutationFor(h, k, identity);
    var h1 := Mutated(h, k, identity);
    var xs := if m.created then [] else Items(h, m.list);
    PlacedUndone(xs, m);
    if m.created {
      var h2 := UndoOne(h1, m);
      assert k !in h2.fields;
      if FieldOf(h, k).Null? { assert FieldOf(h2, k) != FieldOf(h, k); }
    }
  }

  /** Undone at once, the list is as before exactly if no missing value was replaced. */
  lemma PlacedUndone(xs: seq<Item>, m: Mutation)
    requires m.index <= |xs| && m.previous == if m.index < |xs| then xs[m.index] else NoneItem
    ensures UndoneList(Placed(xs, m.index, m.inserted), m) == xs <==> (m.index < |xs| ==> m.previous != NoneItem)
  {
    var ys := Placed(xs, m.index, m.inserted);
    assert ys[m.index] == m.inserted;
    if m.index < |xs| {
      if m.previous == NoneItem {
        assert |UndoneList(ys, m)| == |xs| - 1;
      } else {
        assert ys[m.index := m.previous] == xs;
      }
    } else {
      assert ys[..m.index] + ys[m.index + 1..] == xs;
    }
  }

  /** Undoing the same mutation on heaps that show the same keeps them showing the same. */
  lemma UndoAgrees(a: Heap, b: Heap, m: Mutation)
    requires Restores(a, b) && m.list in b.lists
    ensures Restores(UndoOne(a, m), UndoOne(b, m))
  {
    assert Items(a, m.list) == Items(b, m.list);
    assert FieldOf(a, m.key) == FieldOf(b, m.key);
  }

  lemma {:induction false} UndoAllAgrees(a: Heap, b: Heap, ms: seq<Mutation>)
    requires Restores(a, b) && forall i | 0 <= i < |ms| :: ms[i].list in b.lists
    ensures Restores(UndoAll(a, ms), UndoAll(b, ms))
    decreases |ms|
  {
    if ms != [] {
      var m := ms[|ms| - 1];
      UndoAgrees(a, b, m);
      UndoAllAgrees(UndoOne(a, m), UndoOne(b, m), ms[..|ms| - 1]);
    }
  }

  // ----- whole sequences of mutations -----------------------------------------------------------

  datatype Step = Step(key: Key, identity: Identity)

  function After(h: Heap, steps: seq<Step>): Heap {
    if steps == [] then h
    else Mutated(After(h, steps[..|steps| - 1]), steps[|steps| - 1].key, steps[|steps| - 1].identity)
  }

  function Record(h: Heap, steps: seq<Step>): (ms: seq<Mutation>)
    ensures |ms| == |steps|
  {
    if steps == [] then []
    else
      var n := |steps| - 1;
      Record(h, steps[..n]) + [MutationFor(After(h, steps[..n]), steps[n].key, steps[n].identity)]
  }

  /** Every step found a list or an absent section. */
  predicate Legal(h: Heap, steps: seq<Step>) {
    steps == [] ||
    var n := |steps| - 1;
    Legal(h, steps[..n]) && !FieldOf(After(h, steps[..n]), steps[n].key).Other?
  }

  predicate Plain(h: Heap, steps: seq<Step>) {
    steps == [] ||
    var n := |steps| - 1;
    Plain(h, steps[..n]) && PlainAt(After(h, steps[..n]), steps[n].key, steps[n].identity)
  }

  lemma {:induction false} AfterWellFormed(h: Heap, steps: seq<Step>)
    requires WellFormed(h) && Legal(h, steps)
    ensures WellFormed(After(h, steps)) == true
    ensures h.lists.Keys <= After(h, steps).lists.Keys
    ensures forall i | 0 <= i < |steps| :: Record(h, steps)[i].list in After(h, steps).lists
  {
    if steps != [] {
      var n := |steps| - 1;
      AfterWellFormed(h, steps[..n]);
      MutatedWellFormed(After(h, steps[..n]), steps[n].key, steps[n].identity);
      ListsStay(After(h, steps[..n]), steps[n].key, steps[n].identity);
    }
  }

  lemma ListsStay(h: Heap, k: Key, identity: Identity)
    ensures h.lists.Keys <= Mutated(h, k, identity).lists.Keys
    ensures MutationFor(h, k, identity).list in Mutated(h, k, identity).lists
  {
  }

  lemma {:induction false} PlainRestores(h: Heap, steps: seq<Step>)
    requires WellFormed(h) && Legal(h, steps) && Plain(h, steps)
    ensures Restores(UndoAll(After(h, steps), Record(h, steps)), h)
  {
    if steps != [] {
      PlainRestores(h, steps[..|steps| - 1]);
      LastUndone(h, steps);
    }
  }

  /** Undoing the last step first leads back to the heap before it, as far as anyone sees. */
  lemma LastUndone(h: Heap, steps: seq<Step>)
    requires steps != [] && WellFormed(h) && Legal(h, steps) && Plain(h, steps)
    requires var front := steps[..|steps| - 1]; Restores(UndoAll(After(h, front), Record(h, front)), h)
    ensures Restores(UndoAll(After(h, steps), Record(h, steps)), h)
  {
    var n := |steps| - 1;
    var front, s := steps[..n], steps[n];
    var before, ms := After(h, front), Record(h, front);
    var m := MutationFor(before, s.key, s.identity);
    AfterWellFormed(h, front);
    UndoMutation(before, s.key, s.identity);
    var back := UndoOne(Mutated(before, s.key, s.identity), m);
    UndoAllAgrees(back, before, ms);
    Sequences.Appended(ms, m);
    RestoresTransitive(UndoAll(back, ms), UndoAll(before, ms), h);
  }

  lemma RestoresTransitive(a: Heap, b: Heap, c: Heap)
    requires Restores(a, b) && Restores(b, c)
    ensures Restores(a, c)
  {
    forall k | k in a.fields || k in c.fields ensures FieldOf(a, k) == FieldOf(c, k) {
      if k !in a.fields && k !in b.fields { assert FieldOf(b, k) == FieldOf(c, k); }
    }
  }

  // ----- what cannot come back ------------------------------------------------------------------

  function Nones(xs: seq<Item>): nat {
    if xs == [] then 0 else Nones(xs[..|xs| - 1]) + (if xs[|xs| - 1] == NoneItem then 1 else 0)
  }

  lemma {:induction false} NonesSplit(xs: seq<Item>, ys: seq<Item>)
    ensures Nones(xs + ys) == Nones(xs) + Nones(ys)
  {
    if ys == [] {
      assert xs + ys == xs;
    } else {
      assert (xs + ys)[..|xs + ys| - 1] == xs + ys[..|ys| - 1];
      NonesSplit(xs, ys[..|ys| - 1]);
    }
  }

  lemma NonesAt(xs: seq<Item>, i: nat, y: Item)
    requires i < |xs|
    ensures Nones(xs[i := y]) + (if xs[i] == NoneItem then 1 else 0) == Nones(xs) + (if y == NoneItem then 1 else 0)
    ensures Nones(xs[..i] + xs[i + 1..]) + (if xs[i] == NoneItem then 1 else 0) == Nones(xs)
  {
    var a, b := xs[..i], xs[i + 1..];
    NonesAround(a, xs[i], b);
    NonesAround(a, y, b);
    NonesSplit(a, b);
    assert xs == a + [xs[i]] + b;
    assert xs[i := y] == a + [y] + b;
  }

  lemma NonesAround(a: seq<Item>, x: Item, b: seq<Item>)
    ensures Nones(a + [x] + b) == Nones(a) + (if x == NoneItem then 1 else 0) + Nones(b)
  {
    NonesSplit(a, [x]);
    NonesSplit(a + [x], b);
    NonesOne(x);
  }

  lemma NonesOne(x: Item)
    ensures Nones([x]) == if x == NoneItem then 1 else 0
  {
    assert [x][..0] == [];
  }

  /** Undoing never brings back a null section or a missing value. */
  lemma UndoGivesNothing(h: Heap, m: Mutation, k: Key, l: nat)
    requires m.inserted != NoneItem
    ensures FieldOf(h, k) != Null ==> FieldOf(UndoOne(h, m), k) != Null
    ensures Nones(Items(UndoOne(h, m), l)) <= Nones(Items(h, l))
  {
    var xs := Items(h, m.list);
    if m.index < |xs| {
      NonesAt(xs, m.index, m.previous);
    }
  }

  lemma {:induction false} UndoAllGivesNothing(h: Heap, ms: seq<Mutation>, k: Key, l: nat)
    requires forall i | 0 <= i < |ms| :: ms[i].inserted != NoneItem
    ensures FieldOf(h, k) != Null ==> FieldOf(UndoAll(h, ms), k) != Null
    ensures Nones(Items(UndoAll(h, ms), l)) <= Nones(Items(h, l))
    decreases |ms|
  {
    if ms != [] {
      var m := ms[|ms| - 1];
      UndoGivesNothing(h, m, k, l);
      UndoAllGivesNothing(UndoOne(h, m), ms[..|ms| - 1], k, l);
    }
  }

  /** Mutating only ever turns null sections into lists and missing values into entries. */
  lemma MutatedTakes(h: Heap, s: Step, k: Key, l: nat)
    requires WellFormed(h) && !FieldOf(h, s.key).Other?
    ensures FieldOf(h, k) != Null ==> FieldOf(Mutated(h, s.key, s.identity), k) != Null
    ensures Nones(Items(Mutated(h, s.key, s.identity), l)) <= Nones(Items(h, l))
  {
    var m := MutationFor(h, s.key, s.identity);
    var h' := Mutated(h, s.key, s.identity);
    var xs := if m.created then [] else Items(h, m.list);
    PlacedTakes(xs, m.index, m.inserted);
    assert Items(h', l) == if l == m.list then Placed(xs, m.index, m.inserted) else Items(h, l);
  }

  lemma PlacedTakes(xs: seq<Item>, i: nat, x: Item)
    requires x != NoneItem
    ensures Nones(Placed(xs, i, x)) <= Nones(xs)
  {
    if i < |xs| {
      NonesAt(xs, i, x);
    } else {
      NonesSplit(xs, [x]);
      NonesOne(x);
    }
  }

  lemma {:induction false} AfterTakes(h: Heap, steps: seq<Step>, k: Key, l: nat)
    requires WellFormed(h) && Legal(h, steps)
    ensures FieldOf(h, k) != Null ==> FieldOf(After(h, steps), k) != Null
    ensures Nones(Items(After(h, steps), l)) <= Nones(Items(h, l))
  {
    if steps != [] {
      var n := |steps| - 1;
      AfterTakes(h, steps[..n], k, l);
      AfterWellFormed(h, steps[..n]);
      MutatedTakes(After(h, steps[..n]), steps[n], k, l);
    }
  }

  /** The step that is not plain takes its null section. */
  lemma NullTaken(h: Heap, steps: seq<Step>, now: Heap, s: Step)
    requires WellFormed(h) && Legal(h, steps) && now == After(h, steps) && FieldOf(now, s.key) == Null
    ensures Taken(h, Mutated(now, s.key, s.identity), s.key)
  {
    AfterTakes(h, steps, s.key, 0);
  }

  /** Or the missing value its entry replaces. */
  lemma MissingTaken(h: Heap, steps: seq<Step>, now: Heap, s: Step)
    requires WellFormed(h) && Legal(h, steps) && now == After(h, steps)
    requires FieldOf(now, s.key).ListRef? && !PlainAt(now, s.key, s.identity)
    ensures Fewer(h, Mutated(now, s.key, s.identity), FieldOf(now, s.key).list)
  {
    var l := FieldOf(now, s.key).list;
    AfterTakes(h, steps, s.key, l);
    NonesAt(Items(now, l), FirstMatch(Items(now, l), s.identity), MutationFor(now, s.key, s.identity).inserted);
  }

  /** Nothing taken is given back by a later step. */
  lemma StaysTaken(h: Heap, now: Heap, s: Step)
    requires WellFormed(now) && !FieldOf(now, s.key).Other?
    requires Lost(h, now)
    ensures Lost(h, Mutated(now, s.key, s.identity))
  {
    var next := Mutated(now, s.key, s.identity);
    if k :| Taken(h, now, k) {
      MutatedTakes(now, s, k, 0);
      assert Taken(h, next, k);
    } else {
      var l :| Fewer(h, now, l);
      MutatedTakes(now, s, s.key, l);
      assert Fewer(h, next, l);
    }
  }

  /** A step that was not plain has taken something no undo gives back. */
  lemma {:induction false} NotPlainTakes(h: Heap, steps: seq<Step>)
    requires WellFormed(h) && Legal(h, steps) && !Plain(h, steps)
    ensures Lost(h, After(h, steps))
  {
    var n := |steps| - 1;
    var before, s := After(h, steps[..n]), steps[n];
    AfterWellFormed(h, steps[..n]);
    if !Plain(h, steps[..n]) {
      NotPlainTakes(h, steps[..n]);
      StaysTaken(h, before, s);
    } else if FieldOf(before, s.key) == Null {
      NullTaken(h, steps[..n], before, s);
    } else {
      MissingTaken(h, steps[..n], before, s);
    }
  }

  ghost predicate Lost(h: Heap, now: Heap) {
    (exists k :: Taken(h, now, k)) || (exists l :: Fewer(h, now, l))
  }
  predicate Taken(h: Heap, now: Heap, k: Key) { FieldOf(h, k) == Null && FieldOf(now, k) != Null }
  predicate Fewer(h: Heap, now: Heap, l: nat) { Nones(Items(now, l)) < Nones(Items(h, l)) }

  lemma {:induction false} RecordInserts(h: Heap, steps: seq<Step>)
    ensures forall i | 0 <= i < |steps| :: Record(h, steps)[i].inserted != NoneItem
  {
    if steps != [] {
      RecordInserts(h, steps[..|steps| - 1]);
    }
  }

  /** Undoing in reverse restores every config exactly, if and only if no step met a null
      section or replaced a missing value. */
  lemma ReverseUndo(h: Heap, steps: seq<Step>)
    requires WellFormed(h) && Legal(h, steps)
    ensures Restores(UndoAll(After(h, steps), Record(h, steps)), h) <==> Plain(h, steps)
  {
    var now, ms := After(h, steps), Record(h, steps);
    var back := UndoAll(now, ms);
    if Plain(h, steps) {
      PlainRestores(h, steps);
    } else {
      NotPlainTakes(h, steps);
      RecordInserts(h, steps);
      if k :| Taken(h, now, k) {
        UndoAllGivesNothing(now, ms, k, 0);
        assert k in h.fields;
        assert FieldOf(back, k) != FieldOf(h, k);
      } else {
        var l :| Fewer(h, now, l);
        UndoAllGivesNothing(now, ms, Key(0, ""), l);
        assert l in h.lists;
        assert Items(back, l) != Items(h, l);
      }
    }
  }

  // ----- calls ------------------------------------------------------------------------------------

  datatype Call = Call(targets: seq<Key>, identity: Identity)

  /** The mutations one call really makes: shared lists are visited once. */
  function StepsOf(h: Heap, ks: seq<Key>, identity: Identity): seq<Step> {
    if ks == [] then []
    else
      var n := |ks| - 1;
      var p := InheritAll(h, ks[..n], identity);
      var rest := StepsOf(h, ks[..n], identity);
      if p.failed || FieldOf(p.heap, ks[n]).Other?
         || (FieldOf(p.heap, ks[n]).ListRef? && Seen(p.mutations, FieldOf(p.heap, ks[n]).list)) then rest
      else rest + [Step(ks[n], identity)]
  }

  lemma OneMoreStep(h: Heap, steps: seq<Step>, s: Step)
    ensures After(h, steps + [s]) == Mutated(After(h, steps), s.key, s.identity)
    ensures Record(h, steps + [s]) == Record(h, steps) + [MutationFor(After(h, steps), s.key, s.identity)]
    ensures Legal(h, steps + [s]) <==> Legal(h, steps) && !FieldOf(After(h, steps), s.key).Other?
  {
    Sequences.Appended(steps, s);
  }

  lemma {:induction false} CallIsSteps(h: Heap, ks: seq<Key>, identity: Identity)
    ensures var p := InheritAll(h, ks, identity); var steps := StepsOf(h, ks, identity);
            p.heap == After(h, steps) && p.mutations == Record(h, steps) && Legal(h, steps)
  {
    if ks != [] {
      var n := |ks| - 1;
      CallIsSteps(h, ks[..n], identity);
      OneMoreStep(h, StepsOf(h, ks[..n], identity), Step(ks[n], identity));
    }
  }

  /** Successful calls one after another, and their cleanup lists. */
  function CallAll(h: Heap, calls: seq<Call>): (Heap, seq<seq<Mutation>>) {
    if calls == [] then (h, [])
    else
      var n := |calls| - 1;
      var (before, lists) := CallAll(h, calls[..n]);
      var p := InheritAll(before, calls[n].targets, calls[n].identity);
      (p.heap, lists + [p.mutations])
  }

  /** The cleanups, newest call first. */
  function CleanupAll(h: Heap, lists: seq<seq<Mutation>>): Heap
    decreases |lists|
  {
    if lists == [] then h
    else CleanupAll(UndoAll(h, lists[|lists| - 1]), lists[..|lists| - 1])
  }

  function CallSteps(h: Heap, calls: seq<Call>): seq<Step> {
    if calls == [] then []
    else
      var n := |calls| - 1;
      CallSteps(h, calls[..n]) + StepsOf(CallAll(h, calls[..n]).0, calls[n].targets, calls[n].identity)
  }

  lemma {:induction false} AfterConcat(h: Heap, a: seq<Step>, b: seq<Step>)
    ensures After(h, a + b) == After(After(h, a), b)
    ensures Record(h, a + b) == Record(h, a) + Record(After(h, a), b)
    ensures Legal(h, a + b) <==> Legal(h, a) && Legal(After(h, a), b)
  {
    if b == [] {
      assert a + b == a;
    } else {
      var front := b[..|b| - 1];
      Sequences.Front(a, b);
      AfterConcat(h, a, front);
      var s := b[|b| - 1];
      Sequences.Assoc(Record(h, a), Record(After(h, a), front),
                      [MutationFor(After(After(h, a), front), s.key, s.identity)]);
    }
  }

  lemma {:induction false} UndoConcat(h: Heap, a: seq<Mutation>, b: seq<Mutation>)
    ensures UndoAll(h, a + b) == UndoAll(UndoAll(h, b), a)
    decreases |b|
  {
    if b == [] {
      assert a + b == a;
    } else {
      var m := b[|b| - 1];
      assert (a + b)[..|a + b| - 1] == a + b[..|b| - 1];
      UndoConcat(UndoOne(h, m), a, b[..|b| - 1]);
    }
  }

  function Flat(lists: seq<seq<Mutation>>): seq<Mutation> {
    if lists == [] then [] else Flat(lists[..|lists| - 1]) + lists[|lists| - 1]
  }

  lemma {:induction false} CleanupIsUndo(h: Heap, lists: seq<seq<Mutation>>)
    ensures CleanupAll(h, lists) == UndoAll(h, Flat(lists))
    decreases |lists|
  {
    if lists != [] {
      var n := |lists| - 1;
      UndoConcat(h, Flat(lists[..n]), lists[n]);
      CleanupIsUndo(UndoAll(h, lists[n]), lists[..n]);
    }
  }

  lemma {:induction false} CallsAreSteps(h: Heap, calls: seq<Call>)
    ensures var (now, lists) := CallAll(h, calls); var steps := CallSteps(h, calls);
            now == After(h, steps) && Flat(lists) == Record(h, steps) && Legal(h, steps)
  {
    if calls != [] {
      var n := |calls| - 1;
      CallsAreSteps(h, calls[..n]);
      var (before, lists) := CallAll(h, calls[..n]);
      CallIsSteps(before, calls[n].targets, calls[n].identity);
      AfterConcat(h, CallSteps(h, calls[..n]), StepsOf(before, calls[n].targets, calls[n].identity));
      var ls := CallAll(h, calls).1;
      assert ls[..|ls| - 1] == lists;
    }
  }

  /** Any sequence of calls, cleaned up in reverse order: every target config is exactly as
      it was, if and only if no mutation met a null section or replaced a missing value. */
  lemma InheritanceUndo(h: Heap, calls: seq<Call>)
    requires WellFormed(h)
    ensures var (now, lists) := CallAll(h, calls);
            Restores(CleanupAll(now, lists), h) <==> Plain(h, CallSteps(h, calls))
  {
    var (now, lists) := CallAll(h, calls);
    CallsAreSteps(h, calls);
    CleanupIsUndo(now, lists);
    ReverseUndo(h, CallSteps(h, calls));
  }

  /** A call that meets a section which is no list leaves everything as it was, under the same proviso. */
  lemma FailedCallUndone(h: Heap, ks: seq<Key>, identity: Identity)
    requires WellFormed(h)
    ensures var p := InheritAll(h, ks, identity);
            Restores(UndoAll(p.heap, p.mutations), h) <==> Plain(h, StepsOf(h, ks, identity))
  {
    CallIsSteps(h, ks, identity);
    ReverseUndo(h, StepsOf(h, ks, identity));
  }

  /** A section written as `tools:` with no value comes back as an absent key. */
  lemma NullSectionLost()
    ensures var k := Key(0, "tools");
            var h := Heap(map[k := Null], map[], 1);
            var p := InheritAll(h, [k], "tools:search");
            FieldOf(UndoAll(p.heap, p.mutations), k) == Missing
  {
    var k := Key(0, "tools");
    var h := Heap(map[k := Null], map[], 1);
    assert [k][..0] == [];
    assert InheritAll(h, [], "tools:search") == Progress(h, [], false);
    var m := MutationFor(h, k, "tools:search");
    assert InheritAll(h, [k], "tools:search") == Progress(Mutated(h, k, "tools:search"), [m], false);
    assert [m][..0] == [];
    assert UndoAll(Mutated(h, k, "tools:search"), [m]) == UndoOne(Mutated(h, k, "tools:search"), m);
  }

  // ----- cleanups in any order ----------------------------------------------------------------------

  /** On any heap whatever, a cleanup step touches one list only, and there only the very
      entry it inserted; a section disappears only when this call created it and it is empty. */
  lemma CleanupTouchesOwn(h: Heap, m: Mutation)
    ensures var h' := UndoOne(h, m);
            && (forall l | l != m.list :: Items(h', l) == Items(h, l))
            && (Items(h', m.list) == Items(h, m.list)
                || (m.index < |Items(h, m.list)| && Items(h, m.list)[m.index] == m.inserted
                    && (if m.previous == NoneItem
                        then Items(h', m.list) == Items(h, m.list)[..m.index] + Items(h, m.list)[m.index + 1..]
                        else Items(h', m.list) == Items(h, m.list)[m.index := m.previous])))
            && (forall k | FieldOf(h', k) != FieldOf(h, k) ::
                  k == m.key && m.created && FieldOf(h, k) == ListRef(m.list) && Items(h', m.list) == [])
  {
  }

  /** Entries of anybody else survive a whole cleanup, in whatever order cleanups run. */
  lemma {:induction false} OthersSurvive(h: Heap, ms: seq<Mutation>, l: nat, x: Item)
    requires x in Items(h, l) && forall i | 0 <= i < |ms| :: ms[i].inserted != x
    ensures x in Items(UndoAll(h, ms), l)
    decreases |ms|
  {
    if ms != [] {
      var m := ms[|ms| - 1];
      OtherSurvives(h, m, l, x);
      OthersSurvive(UndoOne(h, m), ms[..|ms| - 1], l, x);
    }
  }

  lemma OtherSurvives(h: Heap, m: Mutation, l: nat, x: Item)
    requires x in Items(h, l) && m.inserted != x
    ensures x in Items(UndoOne(h, m), l)
  {
    CleanupTouchesOwn(h, m);
    var xs, ys := Items(h, l), Items(UndoOne(h, m), l);
    var i :| 0 <= i < |xs| && xs[i] == x;
    if l == m.list && ys != xs {
      assert i != m.index;
      assert ys[if m.previous == NoneItem && m.index < i then i - 1 else i] == x;
    }
  }

  // ----- two calls, the older one cleaned up first ---------------------------------------------------

  predicate Listed(xs: seq<Item>, identity: Identity) { FirstMatch(xs, identity) < |xs| }

  /** A list that got its entry x. */
  predicate PlacedBy(xs: seq<Item>, m: Mutation, identity: Identity, ys: seq<Item>) {
    && m.index == FirstMatch(xs, identity) && IdentityOf(m.inserted) == identity
    && m.inserted.Entry? && m.inserted !in xs
    && m.previous == (if m.index < |xs| then xs[m.index] else NoneItem)
    && ys == Placed(xs, m.index, m.inserted)
  }

  /** The entry just placed is the first with its identity. */
  lemma SameSlot(xs: seq<Item>, i: nat, x: Item, identity: Identity)
    requires i == FirstMatch(xs, identity) && IdentityOf(x) == identity
    ensures FirstMatch(Placed(xs, i, x), identity) == i && Placed(xs, i, x)[i] == x
  {
    var ys := Placed(xs, i, x);
    var j := FirstMatch(ys, identity);
    assert forall n | 0 <= n < i :: ys[n] == xs[n];
    assert IdentityOf(ys[i]) == identity;
  }

  /** Another entry of the same module: the older cleanup keeps off the newer entry, and the newer one
      brings the older entry back. */
  lemma SameModule(xs: seq<Item>, m1: Mutation, ys: seq<Item>, m2: Mutation, zs: seq<Item>, a: Identity)
    requires PlacedBy(xs, m1, a, ys) && PlacedBy(ys, m2, a, zs)
    ensures UndoneList(zs, m1) == zs && UndoneList(zs, m2) == ys && m1.inserted in ys && ys != xs
  {
    SameSlot(xs, m1.index, m1.inserted, a);
    assert ys[m1.index] == m1.inserted;
    assert ys[m1.index := m2.inserted][m1.index := m1.inserted] == ys;
  }

  /** Two new modules: the older entry's removal moves the newer one out of its cleanup's sight. */
  lemma BothNew(xs: seq<Item>, m1: Mutation, ys: seq<Item>, m2: Mutation, zs: seq<Item>, a: Identity, b: Identity)
    requires PlacedBy(xs, m1, a, ys) && PlacedBy(ys, m2, b, zs)
    requires a != b && !Listed(xs, a) && !Listed(xs, b)
    ensures UndoneList(zs, m1) == xs + [m2.inserted]
    ensures UndoneList(xs + [m2.inserted], m2) == xs + [m2.inserted]
  {
    OtherSlot(xs, m1.index, m1.inserted, b);
    assert zs == xs + [m1.inserted, m2.inserted];
    assert zs[..|xs|] == xs && zs[|xs| + 1..] == [m2.inserted];
  }

  /** An entry of another module does not change where an identity is found first. */
  lemma OtherSlot(xs: seq<Item>, i: nat, x: Item, identity: Identity)
    requires i <= |xs| && IdentityOf(x) != identity && (i < |xs| ==> IdentityOf(xs[i]) != identity)
    ensures var j := FirstMatch(xs, identity); var ys := Placed(xs, i, x);
            FirstMatch(ys, identity) == if j < |xs| then j else |ys|
  {
    var ys := Placed(xs, i, x);
    var j, n := FirstMatch(xs, identity), FirstMatch(ys, identity);
    if j < |xs| {
      assert ys[j] == xs[j];
    }
    if n < |ys| {
      assert IdentityOf(ys[n]) == identity && n != i;
      assert n < |xs| && xs[n] == ys[n];
    }
  }

  /** At least one module was there before, under a real value: the two do not meet. */
  lemma OneListed(xs: seq<Item>, m1: Mutation, ys: seq<Item>, m2: Mutation, zs: seq<Item>, a: Identity, b: Identity)
    requires PlacedBy(xs, m1, a, ys) && PlacedBy(ys, m2, b, zs)
    requires a != b && (Listed(xs, a) || Listed(xs, b))
    requires m1.index < |xs| ==> m1.previous != NoneItem
    requires m2.index < |ys| ==> m2.previous != NoneItem
    ensures UndoneList(UndoneList(zs, m1), m2) == xs
  {
    OtherSlot(xs, m1.index, m1.inserted, b);
    if m1.index < |xs| {
      assert zs[m1.index] == m1.inserted;
      var ws := Placed(xs, m2.index, m2.inserted);
      assert UndoneList(zs, m1) == ws;
      assert UndoneList(ws, m2) == xs;
    } else {
      var ws := xs[m2.index := m2.inserted];
      assert zs == ws + [m1.inserted];
      assert zs[..|xs|] == ws && zs[|xs| + 1..] == [];
      assert UndoneList(zs, m1) == ws;
      assert ws[m2.index := m2.previous] == xs;
    }
  }

  /** Two calls on one list, whatever their modules. */
  lemma SharedList(xs: seq<Item>, m1: Mutation, ys: seq<Item>, m2: Mutation, zs: seq<Item>, a: Identity, b: Identity)
    requires PlacedBy(xs, m1, a, ys) && PlacedBy(ys, m2, b, zs)
    requires m1.index < |xs| ==> m1.previous != NoneItem
    requires m2.index < |ys| ==> m2.previous != NoneItem
    ensures var r := UndoneList(UndoneList(zs, m1), m2);
            && (r == xs <==> a != b && (Listed(xs, a) || Listed(xs, b)))
            && (a == b ==> m1.inserted in r)
            && (a != b && !Listed(xs, a) && !Listed(xs, b) ==> m2.inserted in r)
  {
    if a == b {
      SameModule(xs, m1, ys, m2, zs, a);
    } else if Listed(xs, a) || Listed(xs, b) {
      OneListed(xs, m1, ys, m2, zs, a, b);
    } else {
      BothNew(xs, m1, ys, m2, zs, a, b);
      assert (xs + [m2.inserted])[|xs|] == m2.inserted;
    }
  }

  /** What the older call and then the newer one undo. */
  function OldestUndone(h: Heap, m1: Mutation, m2: Mutation): Heap { UndoOne(UndoOne(h, m1), m2) }

  /** Two calls, for any modules and configs, cleaned up oldest first.  The configs are restored exactly
      if both calls were plain and, should they have met in one list, were for different modules of
      which at least one was listed before.  Otherwise, with both plain, an entry stays for good: the
      older one of the same module, the newer one of two new modules. */
  lemma OldestFirst(h: Heap, k1: Key, a: Identity, k2: Key, b: Identity)
    requires WellFormed(h) && !FieldOf(h, k1).Other? && !FieldOf(Mutated(h, k1, a), k2).Other?
    ensures var m1, h1 := MutationFor(h, k1, a), Mutated(h, k1, a);
            var m2, h2 := MutationFor(h1, k2, b), Mutated(h1, k2, b);
            var xs := if m1.created then [] else Items(h, m1.list);
            var back := OldestUndone(h2, m1, m2);
            && (Restores(back, h) <==>
                && PlainAt(h, k1, a) && PlainAt(h1, k2, b)
                && (m1.list == m2.list ==> a != b && (Listed(xs, a) || Listed(xs, b))))
            && (m1.list == m2.list && PlainAt(h, k1, a) && PlainAt(h1, k2, b) ==>
                && (a == b ==> m1.inserted in Items(back, m1.list))
                && (a != b && !Listed(xs, a) && !Listed(xs, b) ==> m2.inserted in Items(back, m1.list)))
  {
    var m1, h1 := MutationFor(h, k1, a), Mutated(h, k1, a);
    UndoMutation(h, k1, a);
    if !PlainAt(h, k1, a) || !PlainAt(h1, k2, b) {
      NeverBack(h, k1, a, k2, b);
    } else if m1.list == MutationFor(h1, k2, b).list {
      OldestOnOne(h, k1, a, k2, b);
    } else {
      OldestApart(h, k1, a, k2, b);
    }
  }

  lemma TwoSteps(h: Heap, k1: Key, a: Identity, k2: Key, b: Identity)
    ensures var steps := [Step(k1, a), Step(k2, b)]; var h1 := Mutated(h, k1, a);
            && After(h, steps) == Mutated(h1, k2, b)
            && Record(h, steps) == [MutationFor(h, k1, a), MutationFor(h1, k2, b)]
            && (Legal(h, steps) <==> !FieldOf(h, k1).Other? && !FieldOf(h1, k2).Other?)
            && (Plain(h, steps) <==> PlainAt(h, k1, a) && PlainAt(h1, k2, b))
  {
    var first := [Step(k1, a)];
    assert [Step(k1, a), Step(k2, b)][..1] == first && first[..0] == [];
    assert After(h, first) == Mutated(h, k1, a) && Record(h, first) == [MutationFor(h, k1, a)];
    assert Legal(h, first) <==> !FieldOf(h, k1).Other?;
    assert Plain(h, first) <==> PlainAt(h, k1, a);
  }

  lemma NeverBack(h: Heap, k1: Key, a: Identity, k2: Key, b: Identity)
    requires WellFormed(h) && !FieldOf(h, k1).Other? && !FieldOf(Mutated(h, k1, a), k2).Other?
    requires !PlainAt(h, k1, a) || !PlainAt(Mutated(h, k1, a), k2, b)
    ensures var m1, h1 := MutationFor(h, k1, a), Mutated(h, k1, a);
            !Restores(OldestUndone(Mutated(h1, k2, b), m1, MutationFor(h1, k2, b)), h)
  {
    var m1, h1 := MutationFor(h, k1, a), Mutated(h, k1, a);
    var m2, now := MutationFor(h1, k2, b), Mutated(h1, k2, b);
    var back := OldestUndone(now, m1, m2);
    TwoSteps(h, k1, a, k2, b);
    NotPlainTakes(h, [Step(k1, a), Step(k2, b)]);
    if k :| Taken(h, now, k) {
      UndoGivesNothing(now, m1, k, 0);
      UndoGivesNothing(UndoOne(now, m1), m2, k, 0);
      assert k in h.fields && FieldOf(back, k) != FieldOf(h, k);
    } else {
      var l :| Fewer(h, now, l);
      UndoGivesNothing(now, m1, k1, l);
      UndoGivesNothing(UndoOne(now, m1), m2, k1, l);
      assert l in h.lists && Items(back, l) != Items(h, l);
    }
  }

  /** Undone in either order when the calls changed different lists. */
  lemma OldestApart(h: Heap, k1: Key, a: Identity, k2: Key, b: Identity)
    requires WellFormed(h) && !FieldOf(h, k1).Other? && !FieldOf(Mutated(h, k1, a), k2).Other?
    requires PlainAt(h, k1, a) && PlainAt(Mutated(h, k1, a), k2, b)
    requires MutationFor(h, k1, a).list != MutationFor(Mutated(h, k1, a), k2, b).list
    ensures var m1, h1 := MutationFor(h, k1, a), Mutated(h, k1, a);
            Restores(OldestUndone(Mutated(h1, k2, b), m1, MutationFor(h1, k2, b)), h)
  {
    var m1, h1 := MutationFor(h, k1, a), Mutated(h, k1, a);
    var m2, now := MutationFor(h1, k2, b), Mutated(h1, k2, b);
    UndoMutation(h, k1, a);
    UndoMutation(h1, k2, b);
    assert m1.key != m2.key;
    UndoAgrees(UndoOne(now, m2), h1, m1);
    RestoresTransitive(UndoOne(UndoOne(now, m2), m1), UndoOne(h1, m1), h);
    UndosCommute(now, m1, m2);
  }

  lemma UndosCommute(h: Heap, m1: Mutation, m2: Mutation)
    requires m1.list != m2.list && m1.key != m2.key
    ensures UndoOne(UndoOne(h, m1), m2).fields == UndoOne(UndoOne(h, m2), m1).fields
    ensures UndoOne(UndoOne(h, m1), m2).lists == UndoOne(UndoOne(h, m2), m1).lists
  {
    UndoneApart(h, m1, m2);
    UndoneApart(h, m2, m1);
  }

  lemma UndoneApart(h: Heap, m1: Mutation, m2: Mutation)
    requires m1.list != m2.list && m1.key != m2.key
    ensures var a, b := UndoOne(h, m1), UndoOne(h, m2); var c := UndoOne(a, m2);
            && c.lists == h.lists[m1.list := a.lists[m1.list]][m2.list := b.lists[m2.list]]
            && (forall k :: k in c.fields <==> k in a.fields && k in b.fields)
            && (forall k | k in c.fields :: c.fields[k] == h.fields[k])
  {
    assert Items(UndoOne(h, m1), m2.list) == Items(h, m2.list);
    assert FieldOf(UndoOne(h, m1), m2.key) == FieldOf(h, m2.key);
  }

  /** The second call found the first one's list. */
  lemma MetInOne(h: Heap, k1: Key, a: Identity, k2: Key, b: Identity)
    requires WellFormed(h) && !FieldOf(h, k1).Other? && !FieldOf(Mutated(h, k1, a), k2).Other?
    requires MutationFor(h, k1, a).list == MutationFor(Mutated(h, k1, a), k2, b).list
    ensures var m1, h1 := MutationFor(h, k1, a), Mutated(h, k1, a);
            var m2, h2 := MutationFor(h1, k2, b), Mutated(h1, k2, b);
            var xs := if m1.created then [] else Items(h, m1.list);
            && !m2.created && h2.fields == h1.fields
            && PlacedBy(xs, m1, a, Items(h1, m1.list))
            && PlacedBy(Items(h1, m1.list), m2, b, Items(h2, m1.list))
            && h2.lists == h1.lists[m1.list := Items(h2, m1.list)]
            && h1.lists == h.lists[m1.list := Items(h1, m1.list)]
  {
    UndoMutation(h, k1, a);
  }

  /** Undoing both on the one list, the section being there all the while. */
  lemma UndoneOnOne(h2: Heap, m1: Mutation, m2: Mutation)
    requires m1.list == m2.list && !m2.created && (m1.created ==> UndoneList(Items(h2, m1.list), m1) != [])
    ensures var back := OldestUndone(h2, m1, m2);
            && back.fields == h2.fields
            && back.lists == h2.lists[m1.list := UndoneList(UndoneList(Items(h2, m1.list), m1), m2)]
  {
    var ys := UndoneList(Items(h2, m1.list), m1);
    assert UndoOne(h2, m1).lists == h2.lists[m1.list := ys] && UndoOne(h2, m1).fields == h2.fields;
  }

  lemma OldestOnOne(h: Heap, k1: Key, a: Identity, k2: Key, b: Identity)
    requires WellFormed(h) && !FieldOf(h, k1).Other? && !FieldOf(Mutated(h, k1, a), k2).Other?
    requires PlainAt(h, k1, a) && PlainAt(Mutated(h, k1, a), k2, b)
    requires MutationFor(h, k1, a).list == MutationFor(Mutated(h, k1, a), k2, b).list
    ensures var m1, h1 := MutationFor(h, k1, a), Mutated(h, k1, a);
            var m2, h2 := MutationFor(h1, k2, b), Mutated(h1, k2, b);
            var xs := if m1.created then [] else Items(h, m1.list);
            var back := OldestUndone(h2, m1, m2);
            && (Restores(back, h) <==> a != b && (Listed(xs, a) || Listed(xs, b)))
            && (a == b ==> m1.inserted in Items(back, m1.list))
            && (a != b && !Listed(xs, a) && !Listed(xs, b) ==> m2.inserted in Items(back, m1.list))
  {
    var m1, h1 := MutationFor(h, k1, a), Mutated(h, k1, a);
    var m2, h2 := MutationFor(h1, k2, b), Mutated(h1, k2, b);
    var xs := if m1.created then [] else Items(h, m1.list);
    var ys, zs := Items(h1, m1.list), Items(h2, m1.list);
    MetInOne(h, k1, a, k2, b);
    SharedList(xs, m1, ys, m2, zs, a, b);
    SomethingLeft(xs, m1, ys, m2, zs, a, b);
    UndoneOnOne(h2, m1, m2);
    ShownOnOne(h, k1, m1, OldestUndone(h2, m1, m2), xs, UndoneList(UndoneList(zs, m1), m2));
  }

  lemma SomethingLeft(xs: seq<Item>, m1: Mutation, ys: seq<Item>, m2: Mutation, zs: seq<Item>, a: Identity, b: Identity)
    requires PlacedBy(xs, m1, a, ys) && PlacedBy(ys, m2, b, zs)
    ensures xs == [] ==> UndoneList(zs, m1) != [] && !Listed(xs, a) && !Listed(xs, b)
  {
    if xs == [] {
      assert ys == [m1.inserted];
      assert zs == [m2.inserted] || zs == [m1.inserted, m2.inserted];
    }
  }

  lemma ShownOnOne(h: Heap, k: Key, m: Mutation, back: Heap, xs: seq<Item>, r: seq<Item>)
    requires m.created == !FieldOf(h, k).ListRef?
    requires m.created ==> FieldOf(back, k).ListRef?
    requires !m.created ==> back.fields == h.fields && m.list in h.lists && xs == h.lists[m.list]
    requires !m.created ==> back.lists == h.lists[m.list := r]
    ensures Restores(back, h) <==> !m.created && r == xs
  {
    if m.created { assert k in back.fields && FieldOf(back, k) != FieldOf(h, k); }
  }

  /** Two new tools in a config without tools: the newer entry, and the section, stay. */
  lemma OldestFirstExample()
    ensures var k := Key(0, "tools");
            var h := Heap(map[], map[], 1);
            var h1 := Mutated(h, k, "tools:search");
            var m2 := MutationFor(h1, k, "tools:fetch");
            var back := OldestUndone(Mutated(h1, k, "tools:fetch"), MutationFor(h, k, "tools:search"), m2);
            FieldOf(h, k) == Missing && FieldOf(back, k) == ListRef(1) && Items(back, 1) == [m2.inserted]
  {
    var k := Key(0, "tools");
    var h := Heap(map[], map[], 1);
    var m1, h1 := MutationFor(h, k, "tools:search"), Mutated(h, k, "tools:search");
    var m2, h2 := MutationFor(h1, k, "tools:fetch"), Mutated(h1, k, "tools:fetch");
    assert "tools:search"[6] != "tools:fetch"[6];
    assert FirstMatch([m1.inserted], "tools:fetch") == 1;
    assert Items(h2, 1) == [m1.inserted, m2.inserted];
    assert [m1.inserted, m2.inserted][..0] + [m1.inserted, m2.inserted][1..] == [m2.inserted];
    assert Items(UndoOne(h2, m1), 1) == [m2.inserted];
  }
}
