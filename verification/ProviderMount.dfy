/** Live provider mounting (kernel/bundle_compose.py): all or nothing on an ordered
    mapping, and never a silent change of the provider that serves the session. */
module ProviderMount {
  type Name = string
  type Provider = nat

  /** One entry of the insertion-ordered provider mapping. */
  datatype Slot = Slot(name: Name, provider: Provider)

  predicate IsDict(slots: seq<Slot>) {
    forall i, j | 0 <= i < j < |slots| :: slots[i].name != slots[j].name
  }

  /** Position of a name, or the length when it is absent. */
  function IndexOf(slots: seq<Slot>, n: Name): (i: nat)
    ensures i <= |slots|
    ensures i < |slots| ==> slots[i].name == n
    ensures forall j | 0 <= j < i :: slots[j].name != n
  {
    if slots == [] || slots[0].name == n then 0 else 1 + IndexOf(slots[1..], n)
  }

  /** Assignment to a dict key: in place when present, at the end otherwise. */
  function Assigned(slots: seq<Slot>, n: Name, p: Provider): seq<Slot> {
    var i := IndexOf(slots, n);
    if i < |slots| then slots[i := Slot(n, p)] else slots + [Slot(n, p)]
  }

  function Deleted(slots: seq<Slot>, n: Name): seq<Slot> {
    var i := IndexOf(slots, n);
    if i < |slots| then slots[..i] + slots[i + 1..] else slots
  }

  predicate Holds(slots: seq<Slot>, n: Name, p: Provider) {
    var i := IndexOf(slots, n);
    i < |slots| && slots[i].provider == p
  }

  predicate IsProvider(slots: seq<Slot>, p: Provider) {
    exists i | 0 <= i < |slots| :: slots[i].provider == p
  }

  // ----- the coordinator and the code it does not control --------------------------------

  /** What a module's own mount code does: the mapping and the providers it leaves, whether it
      raises, and whether its provider takes the priority it is given. */
  datatype Module = Module(slots: seq<Slot>, priorities: map<Provider, int>, raises: bool, takes: bool)

  /** Any mapping of existing or new provider objects. */
  predicate Possible(m: Module) {
    IsDict(m.slots) && forall i | 0 <= i < |m.slots| :: m.slots[i].provider in m.priorities
  }

  class Coordinator {
    var slots: seq<Slot>
    var priorities: map<Provider, int>

    ghost predicate Valid()
      reads this
    {
      IsDict(slots) && forall i | 0 <= i < |slots| :: slots[i].provider in priorities
    }

    method Mount(p: Provider, n: Name)
      requires Valid() && p in priorities
      modifies this`slots
      ensures Valid() && slots == Assigned(old(slots), n, p)
    {
      slots := Assigned(slots, n, p);
    }

    method Unmount(n: Name)
      requires Valid()
      modifies this`slots
      ensures Valid() && slots == Deleted(old(slots), n)
    {
      slots := Deleted(slots, n);
    }

    /** A module's own mount, close or cleanup code: it may leave any mapping and any new
        provider objects behind, and may raise. */
    method ThirdParty() returns (raised: bool)
      requires Valid()
      modifies this
      ensures Valid() && Extends(old(priorities), priorities)
    {
      raised := *;
      var left: seq<Slot> := *;
      var more: map<Provider, int> := *;
      more := more + priorities;
      if IsDict(left) && forall i | 0 <= i < |left| :: left[i].provider in more {
        slots, priorities := left, more;
      }
    }

    method ModuleMount(m: Module) returns (raised: bool)
      requires Valid() && Possible(m)
      modifies this
      ensures Valid() && Extends(old(priorities), priorities)
      ensures slots == m.slots && raised == m.raises
    {
      slots, priorities := m.slots, m.priorities + priorities;
      raised := m.raises;
    }

    /** Writing a priority a provider exposes may be refused or ignored. */
    method SetPriority(p: Provider, wanted: int, takes: bool)
      requires Valid() && p in priorities
      modifies this`priorities
      ensures Valid() && priorities.Keys == old(priorities).Keys
      ensures forall q | q in priorities && q != p :: priorities[q] == old(priorities)[q]
      ensures priorities[p] == wanted <==> takes
    {
      var v: int := *;
      if v == wanted { v := v + 1; }
      priorities := priorities[p := if takes then wanted else v];
    }

    /** Exact identity-and-order restore of the mapping. */
    method RestoreMapping(expected: seq<Slot>)
      requires Valid() && IsDict(expected)
      requires forall i | 0 <= i < |expected| :: expected[i].provider in priorities
      modifies this`slots
      ensures Valid() && slots == expected
    {
      var current := slots;
      if current == expected {
        return;
      }
      for i := 0 to |current|
        invariant Valid() && slots == current[i..]
      {
        if Holds(slots, current[i].name, current[i].provider) {
          Unmount(current[i].name);
        }
      }
      for i := 0 to |expected|
        invariant Valid() && slots == expected[..i]
      {
        Mount(expected[i].provider, expected[i].name);
      }
    }

    /** Undo a rejected mount against the complete snapshot taken before it. */
    method Rollback(before: seq<Slot>, hasCleanup: bool, closeUnowned: bool)
      requires Valid() && IsDict(before)
      requires forall i | 0 <= i < |before| :: before[i].provider in priorities
      modifies this
      ensures Valid() && slots == before && Extends(old(priorities), priorities)
    {
      if hasCleanup {
        var raised := ThirdParty();
      }
      var current := slots;
      for i := 0 to |current|
        invariant Valid() && Extends(old(priorities), priorities)
      {
        if closeUnowned && !IsProvider(before, current[i].provider) {
          var raised := ThirdParty();
        }
      }
      RestoreMapping(before);
    }

    /** Mount one provider under its own name, behind everything already serving.  It succeeds
        exactly when the name is free, the module's mount does not raise and leaves exactly one
        new slot, and the provider takes the idle priority if there are others. */
    method MountProvider(target: Name, m: Module) returns (ok: bool, mounted: Provider)
      requires Valid() && Possible(m)
      modifies this
      ensures Valid() && KeptFor(old(slots), old(priorities), priorities)
      ensures ok <==> target != "" && (forall i | 0 <= i < |old(slots)| :: old(slots)[i].name != target)
                      && !m.raises && (exists k :: OnlyNew(m.slots, old(slots), k)) && (old(slots) == [] || m.takes)
      ensures !ok ==> slots == old(slots)
      ensures ok ==>
        && target != "" && slots == old(slots) + [Slot(target, mounted)]
        && (exists k :: OnlyNew(m.slots, old(slots), k) && m.slots[k].provider == mounted)
        && !IsProvider(old(slots), mounted)
        && mounted in priorities && Behind(old(slots), priorities, mounted)
    {
      var before := slots;
      mounted := 0;
      if target == "" || IndexOf(before, target) < |before| {
        return false, mounted;
      }
      var raised := ModuleMount(m);
      if raised {
        Rollback(before, false, true);
        return false, mounted;
      }
      var added := NewSlots(slots, before);
      OneOrNot(slots, before);
      if |added| != 1 {
        Rollback(before, true, false);
        return false, mounted;
      }
      mounted := added[0].provider;
      NewSlotsAre(slots, before);
      RestoreMapping(before + [Slot(target, mounted)]);
      ok := PutBehind(before, target, mounted, m.takes);
    }

    /** Lower the new provider below all that serve already; if it will not go, take it out again. */
    method PutBehind(before: seq<Slot>, target: Name, mounted: Provider, takes: bool) returns (ok: bool)
      requires Valid() && slots == before + [Slot(target, mounted)] && !IsProvider(before, mounted)
      modifies this
      ensures Valid() && KeptFor(before, old(priorities), priorities)
      ensures ok <==> before == [] || takes
      ensures slots == if ok then old(slots) else before
      ensures ok ==> mounted in priorities && Behind(before, priorities, mounted)
    {
      assert slots[|before|].provider == mounted;
      assert forall i | 0 <= i < |before| :: before[i] == slots[i];
      if before != [] {
        var behind := Highest(before, priorities) + 1;
        SetPriority(mounted, behind, takes);
        if priorities[mounted] != behind {
          Rollback(before, true, false);
          return false;
        }
      }
      ok := true;
    }

    /** Tear one live provider down; whatever its cleanup does, the rest stays in order. */
    method Cleanup(target: Name, mounted: Provider)
      requires Valid()
      modifies this
      ensures Valid() && Extends(old(priorities), priorities)
      ensures slots == Filtered(old(slots), {Slot(target, mounted)})
    {
      var snapshot := Filtered(slots, {Slot(target, mounted)});
      FilteredIs(slots, {Slot(target, mounted)});
      if Holds(slots, target, mounted) {
        Unmount(target);
      }
      var raised := ThirdParty();
      forall i | 0 <= i < |snapshot| ensures snapshot[i].provider in old(priorities) {
        assert snapshot[i] in old(slots);
      }
      RestoreMapping(snapshot);
    }
  }

  predicate Extends(before: map<Provider, int>, after: map<Provider, int>) {
    forall p | p in before :: p in after && after[p] == before[p]
  }

  /** Providers that were serving keep their priorities. */
  predicate KeptFor(slots: seq<Slot>, before: map<Provider, int>, after: map<Provider, int>) {
    forall i | 0 <= i < |slots| ::
      slots[i].provider in before && slots[i].provider in after && after[slots[i].provider] == before[slots[i].provider]
  }

  predicate Behind(slots: seq<Slot>, priorities: map<Provider, int>, p: Provider)
    requires p in priorities
  {
    forall i | 0 <= i < |slots| :: slots[i].provider in priorities && priorities[slots[i].provider] < priorities[p]
  }

  function Highest(slots: seq<Slot>, priorities: map<Provider, int>): (h: int)
    requires slots != [] && forall i | 0 <= i < |slots| :: slots[i].provider in priorities
    ensures forall i | 0 <= i < |slots| :: priorities[slots[i].provider] <= h
  {
    var last := priorities[slots[|slots| - 1].provider];
    if |slots| == 1 then last
    else
      var rest := Highest(slots[..|slots| - 1], priorities);
      if last > rest then last else rest
  }

  /** Slots whose provider object was not there before the mount. */
  function NewSlots(slots: seq<Slot>, before: seq<Slot>): seq<Slot> {
    if slots == [] then []
    else
      var rest := NewSlots(slots[..|slots| - 1], before);
      if IsProvider(before, slots[|slots| - 1].provider) then rest else rest + [slots[|slots| - 1]]
  }

  lemma {:induction false} NewSlotsAre(slots: seq<Slot>, before: seq<Slot>)
    ensures forall s :: s in NewSlots(slots, before) <==> s in slots && !IsProvider(before, s.provider)
  {
    if slots != [] {
      NewSlotsAre(slots[..|slots| - 1], before);
      assert slots == slots[..|slots| - 1] + [slots[|slots| - 1]];
    }
  }

  /** The k-th slot, and no other, holds a provider object that was not there before. */
  predicate OnlyNew(slots: seq<Slot>, before: seq<Slot>, k: int) {
    && 0 <= k < |slots|
    && forall i | 0 <= i < |slots| :: IsProvider(before, slots[i].provider) <==> i != k
  }

  lemma {:induction false} NoneNew(slots: seq<Slot>, before: seq<Slot>)
    ensures NewSlots(slots, before) == [] <==> forall i | 0 <= i < |slots| :: IsProvider(before, slots[i].provider)
  {
    if slots != [] {
      var n := |slots| - 1;
      NoneNew(slots[..n], before);
      assert forall i | 0 <= i < n :: slots[..n][i] == slots[i];
    }
  }

  lemma {:induction false} OnlyIsOne(slots: seq<Slot>, before: seq<Slot>, k: int)
    requires OnlyNew(slots, before, k)
    ensures NewSlots(slots, before) == [slots[k]]
  {
    var n := |slots| - 1;
    assert forall i | 0 <= i < n :: slots[..n][i] == slots[i];
    if k < n { OnlyIsOne(slots[..n], before, k); } else { NoneNew(slots[..n], before); }
  }

  lemma {:induction false} OneIsOnly(slots: seq<Slot>, before: seq<Slot>) returns (k: int)
    requires |NewSlots(slots, before)| == 1
    ensures OnlyNew(slots, before, k)
  {
    var n := |slots| - 1;
    assert forall i | 0 <= i < n :: slots[..n][i] == slots[i];
    if IsProvider(before, slots[n].provider) {
      k := OneIsOnly(slots[..n], before);
    } else {
      NoneNew(slots[..n], before);
      k := n;
    }
  }

  lemma OneOrNot(slots: seq<Slot>, before: seq<Slot>)
    ensures |NewSlots(slots, before)| == 1 <==> exists k :: OnlyNew(slots, before, k)
    ensures |NewSlots(slots, before)| == 1 ==>
              exists k :: OnlyNew(slots, before, k) && slots[k] == NewSlots(slots, before)[0]
  {
    if k :| OnlyNew(slots, before, k) { OnlyIsOne(slots, before, k); }
    if |NewSlots(slots, before)| == 1 {
      var k := OneIsOnly(slots, before);
      OnlyIsOne(slots, before, k);
    }
  }

  function Filtered(slots: seq<Slot>, gone: set<Slot>): seq<Slot> {
    if slots == [] then []
    else
      var rest := Filtered(slots[..|slots| - 1], gone);
      if slots[|slots| - 1] in gone then rest else rest + [slots[|slots| - 1]]
  }

  lemma {:induction false} FilteredIs(slots: seq<Slot>, gone: set<Slot>)
    ensures forall s :: s in Filtered(slots, gone) <==> s in slots && s !in gone
    ensures IsDict(slots) ==> IsDict(Filtered(slots, gone))
  {
    if slots != [] {
      var init, last := slots[..|slots| - 1], slots[|slots| - 1];
      FilteredIs(init, gone);
      assert slots == init + [last];
      if IsDict(slots) {
        assert IsDict(init);
        forall s | s in Filtered(init, gone) ensures s.name != last.name {
          assert s in init;
        }
      }
    }
  }

  // ----- who serves the session --------------------------------------------------------------

  /** The stable choice: first in mapping order among the lowest priorities. */
  function Selected(slots: seq<Slot>, priorities: map<Provider, int>): (s: Slot)
    requires slots != [] && forall i | 0 <= i < |slots| :: slots[i].provider in priorities
  {
    var last := slots[|slots| - 1];
    if |slots| == 1 then last
    else
      var rest := Selected(slots[..|slots| - 1], priorities);
      if rest.provider in priorities && priorities[last.provider] < priorities[rest.provider] then last else rest
  }

  /** It is what a stable sort by ascending priority puts first. */
  lemma {:induction false} SelectedIsStableLeast(slots: seq<Slot>, priorities: map<Provider, int>) returns (k: nat)
    requires slots != [] && forall i | 0 <= i < |slots| :: slots[i].provider in priorities
    ensures k < |slots| && slots[k] == Selected(slots, priorities)
    ensures forall i | 0 <= i < k :: priorities[slots[k].provider] < priorities[slots[i].provider]
    ensures forall i | k < i < |slots| :: priorities[slots[k].provider] <= priorities[slots[i].provider]
  {
    var n := |slots| - 1;
    if n == 0 {
      k := 0;
    } else {
      k := SelectedIsStableLeast(slots[..n], priorities);
      if priorities[slots[n].provider] < priorities[slots[k].provider] {
        k := n;
      }
    }
  }

  /** A live mount never takes over the session. */
  lemma StaysSelected(slots: seq<Slot>, before: map<Provider, int>, after: map<Provider, int>, n: Name, p: Provider)
    requires slots != [] && KeptFor(slots, before, after)
    requires p in after && Behind(slots, after, p)
    ensures Selected(slots + [Slot(n, p)], after) == Selected(slots, before)
  {
    assert (slots + [Slot(n, p)])[..|slots|] == slots;
    var k := SelectedIsStableLeast(slots, after);
    SelectedAgrees(slots, before, after);
  }

  lemma {:induction false} SelectedAgrees(slots: seq<Slot>, before: map<Provider, int>, after: map<Provider, int>)
    requires slots != [] && KeptFor(slots, before, after)
    ensures Selected(slots, before) == Selected(slots, after)
  {
    var n := |slots| - 1;
    if n > 0 {
      SelectedAgrees(slots[..n], before, after);
      var k := SelectedIsStableLeast(slots[..n], after);
    }
  }

  // ----- cleanups in any order -----------------------------------------------------------------

  /** The mapping after tearing down live slots one after another. */
  function CleanedUp(slots: seq<Slot>, order: seq<Slot>): seq<Slot> {
    if order == [] then slots
    else Filtered(CleanedUp(slots, order[..|order| - 1]), {order[|order| - 1]})
  }

  function SlotSet(order: seq<Slot>): set<Slot> { set s | s in order }

  lemma {:induction false} FilteredTwice(slots: seq<Slot>, a: set<Slot>, b: set<Slot>)
    ensures Filtered(Filtered(slots, a), b) == Filtered(slots, a + b)
  {
    if slots != [] {
      var n := |slots| - 1;
      FilteredTwice(slots[..n], a, b);
      var rest := Filtered(slots[..n], a);
      if slots[n] !in a {
        assert (rest + [slots[n]])[..|rest|] == rest;
      }
    }
  }

  lemma {:induction false} FilteredConcat(a: seq<Slot>, b: seq<Slot>, gone: set<Slot>)
    ensures Filtered(a + b, gone) == Filtered(a, gone) + Filtered(b, gone)
  {
    if b == [] {
      assert a + b == a;
    } else {
      assert (a + b)[..|a + b| - 1] == a + b[..|b| - 1];
      FilteredConcat(a, b[..|b| - 1], gone);
    }
  }

  lemma {:induction false} FilteredNone(slots: seq<Slot>, gone: set<Slot>)
    ensures (forall s | s in slots :: s !in gone) ==> Filtered(slots, gone) == slots
    ensures (forall s | s in slots :: s in gone) ==> Filtered(slots, gone) == []
  {
    if slots != [] {
      assert slots == slots[..|slots| - 1] + [slots[|slots| - 1]];
      FilteredNone(slots[..|slots| - 1], gone);
    }
  }

  lemma {:induction false} CleanedUpIs(slots: seq<Slot>, order: seq<Slot>)
    ensures CleanedUp(slots, order) == Filtered(slots, SlotSet(order))
  {
    if order == [] {
      assert SlotSet(order) == {};
      FilteredNone(slots, {});
    } else {
      var n := |order| - 1;
      CleanedUpIs(slots, order[..n]);
      FilteredTwice(slots, SlotSet(order[..n]), {order[n]});
      assert order == order[..n] + [order[n]];
      assert SlotSet(order) == SlotSet(order[..n]) + {order[n]};
    }
  }

  lemma Apart(base: seq<Slot>, live: seq<Slot>)
    requires IsDict(base + live)
    ensures forall s | s in base :: s !in live
  {
    forall i, j | 0 <= i < |base| && 0 <= j < |live| ensures base[i] != live[j] {
      assert (base + live)[i].name != (base + live)[|base| + j].name;
    }
  }

  /** Tearing down some live providers, in any order, keeps all others in mapping order. */
  lemma SomeCleanups(base: seq<Slot>, live: seq<Slot>, order: seq<Slot>)
    requires IsDict(base + live)
    requires forall s | s in order :: s in live
    ensures CleanedUp(base + live, order) == base + Filtered(live, SlotSet(order))
  {
    CleanedUpIs(base + live, order);
    FilteredConcat(base, live, SlotSet(order));
    Apart(base, live);
    FilteredNone(base, SlotSet(order));
  }

  /** All of them, in any order: exactly the providers that were there before remain. */
  lemma AnyCleanupOrder(base: seq<Slot>, live: seq<Slot>, order: seq<Slot>)
    requires IsDict(base + live)
    requires forall s :: s in order <==> s in live
    ensures CleanedUp(base + live, order) == base
  {
    SomeCleanups(base, live, order);
    FilteredNone(live, SlotSet(order));
    assert base + [] == base;
  }
}
