/** The history half of a restore: which index and manifests it commits, and why that
    commit keeps the storage invariant. */
module RestoreSpec {
  import opened Collections
  import opened CheckpointData
  import opened Lineage
  import opened CheckpointDisk
  import opened CheckpointSpec
  import opened CheckpointSafety
  import opened RestoreFates
  import Sequences

  predicate InIndex(d: Disk) {
    forall i | 0 <= i < |d.index.order| :: d.index.order[i] in d.manifests
  }

  /** Manifests of the index after a restore from position start. */
  function AdvancedManifests(d: Disk, start: nat, retain: bool, t: Tally, clean: bool): (r: seq<Manifest>)
    requires InIndex(d) && start <= |d.index.order|
    requires forall p | p in t.restored :: p in t.states
    ensures |r| == |d.index.order|
  {
    RebaseAll(Ordered(d.manifests, d.index.order[..start]), t.restored, t.states) +
    BranchManifests(d, start, retain, t, clean)
  }

  /** What becomes of the selected checkpoints: unresolved rest, anchors or tombstones. */
  function BranchManifests(d: Disk, start: nat, retain: bool, t: Tally, clean: bool): (r: seq<Manifest>)
    requires InIndex(d) && start <= |d.index.order|
    ensures |r| == |d.index.order| - start
  {
    var selected := Ordered(d.manifests, d.index.order[start..]);
    if !clean then KeepAll(selected, Unresolved(t))
    else Copies(if retain then AnchorManifest() else RetiredManifest(), |selected|)
  }

  function Unresolved(t: Tally): set<Path> { set p | p in t.skipped }

  function AdvancedIndex(d: Disk, start: nat, retain: bool, clean: bool): Index
    requires start <= |d.index.order|
  {
    if clean && !retain then Index(d.index.order[..start], d.index.used) else d.index
  }

  function AdvanceTransaction(d: Disk, start: nat, retain: bool, t: Tally, clean: bool): Transaction
    requires InIndex(d) && start <= |d.index.order|
    requires forall p | p in t.restored :: p in t.states
  {
    Transaction(AdvancedIndex(d, start, retain, clean),
                Zip(d.index.order, AdvancedManifests(d, start, retain, t, clean)))
  }

  function Advanced(d: Disk, start: nat, retain: bool, t: Tally, clean: bool): Disk
    requires InIndex(d) && start <= |d.index.order|
    requires forall p | p in t.restored :: p in t.states
  {
    var c := Committed(d, AdvanceTransaction(d, start, retain, t, clean));
    if clean then Collected(c) else c
  }

  // ----- coverage ---------------------------------------------------------------------

  lemma {:induction false} RebaseChangesCovered(cs: seq<Change>, p: Path, now: FileState, blobs: set<Digest>)
    requires ChangesCovered(cs, blobs)
    ensures ChangesCovered(RebaseChanges(cs, p, now), blobs)
  {
    if cs != [] {
      RebaseChangesCovered(cs[..|cs| - 1], p, now, blobs);
    }
  }

  predicate OpsCovered(ops: seq<Operation>, blobs: set<Digest>) {
    forall i | 0 <= i < |ops| :: ChangesCovered(ops[i].changes, blobs)
  }

  lemma {:induction false} RebaseOpsCovered(ops: seq<Operation>, p: Path, now: FileState, blobs: set<Digest>)
    requires OpsCovered(ops, blobs)
    ensures OpsCovered(RebaseOps(ops, p, now), blobs)
  {
    if ops != [] {
      var n := |ops| - 1;
      RebaseChangesCovered(ops[n].changes, p, now, blobs);
      RebaseOpsCovered(ops[..n], p, now, blobs);
    }
  }

  predicate AllCovered(ms: seq<Manifest>, blobs: set<Digest>) {
    forall i | 0 <= i < |ms| :: Covered(ms[i], blobs)
  }

  lemma {:induction false} RebaseCovered(ms: seq<Manifest>, p: Path, now: FileState, blobs: set<Digest>)
    requires AllCovered(ms, blobs)
    ensures AllCovered(Rebase(ms, p, now), blobs)
  {
    if ms != [] {
      var n := |ms| - 1;
      assert Covered(ms[n], blobs);
      RebaseOpsCovered(ms[n].operations, p, now, blobs);
      RebaseCovered(ms[..n], p, now, blobs);
    }
  }

  lemma {:induction false} RebaseAllCovered(ms: seq<Manifest>, paths: seq<Path>, states: Workspace, blobs: set<Digest>)
    requires AllCovered(ms, blobs) && forall p | p in paths :: p in states
    ensures AllCovered(RebaseAll(ms, paths, states), blobs)
  {
    if paths != [] {
      var n := |paths| - 1;
      RebaseAllCovered(ms, paths[..n], states, blobs);
      RebaseCovered(RebaseAll(ms, paths[..n], states), paths[n], states[paths[n]], blobs);
    }
  }

  lemma {:induction false} KeepChangesCovered(cs: seq<Change>, unresolved: set<Path>, blobs: set<Digest>)
    requires ChangesCovered(cs, blobs)
    ensures ChangesCovered(KeepChanges(cs, unresolved), blobs)
  {
    if cs != [] {
      KeepChangesCovered(cs[..|cs| - 1], unresolved, blobs);
    }
  }

  lemma {:induction false} KeepOpsCovered(ops: seq<Operation>, unresolved: set<Path>, blobs: set<Digest>)
    requires OpsCovered(ops, blobs)
    ensures OpsCovered(KeepOps(ops, unresolved), blobs)
  {
    if ops != [] {
      KeepChangesCovered(ops[|ops| - 1].changes, unresolved, blobs);
      KeepOpsCovered(ops[..|ops| - 1], unresolved, blobs);
    }
  }

  lemma {:induction false} KeepAllCovered(ms: seq<Manifest>, unresolved: set<Path>, blobs: set<Digest>)
    requires AllCovered(ms, blobs)
    ensures AllCovered(KeepAll(ms, unresolved), blobs)
  {
    if ms != [] {
      var n := |ms| - 1;
      assert Covered(ms[n], blobs);
      KeepOpsCovered(ms[n].operations, unresolved, blobs);
      KeepAllCovered(ms[..n], unresolved, blobs);
    }
  }

  // ----- what is never rewritten ---------------------------------------------------------

  predicate SameCalls(ops: seq<Operation>, r: seq<Operation>) {
    |r| == |ops| && forall k | 0 <= k < |ops| :: r[k].call == ops[k].call
  }

  /** Calls, warnings, flags and counters stay; only recorded changes may differ. */
  predicate OnlyChanges(m: Manifest, m': Manifest) {
    m' == m.(operations := m'.operations) && SameCalls(m.operations, m'.operations)
  }

  predicate SameButChanges(ms: seq<Manifest>, r: seq<Manifest>) {
    |r| == |ms| && forall i | 0 <= i < |ms| :: OnlyChanges(ms[i], r[i])
  }

  lemma {:induction false} RebaseCalls(ops: seq<Operation>, p: Path, now: FileState)
    ensures SameCalls(ops, RebaseOps(ops, p, now))
  {
    if ops != [] { RebaseCalls(ops[..|ops| - 1], p, now); }
  }

  lemma ButChangesSnoc(ms: seq<Manifest>, r: seq<Manifest>, m: Manifest, m': Manifest)
    requires SameButChanges(ms, r) && OnlyChanges(m, m')
    ensures SameButChanges(ms + [m], r + [m'])
  {
  }

  lemma {:induction false} RebaseOnly(ms: seq<Manifest>, p: Path, now: FileState)
    ensures SameButChanges(ms, Rebase(ms, p, now))
  {
    if ms != [] {
      var n := |ms| - 1;
      Sequences.Snoc(ms);
      if Mentions(OpChanges(ms[n].operations), p) {
        RebaseCalls(ms[n].operations, p, now);
        ButChangesSnoc(ms[..n], ms[..n], ms[n], ms[n].(operations := RebaseOps(ms[n].operations, p, now)));
      } else {
        RebaseOnly(ms[..n], p, now);
        ButChangesSnoc(ms[..n], Rebase(ms[..n], p, now), ms[n], ms[n]);
      }
    }
  }

  lemma {:induction false} RebaseAllOnly(ms: seq<Manifest>, paths: seq<Path>, states: Workspace)
    requires forall p | p in paths :: p in states
    ensures SameButChanges(ms, RebaseAll(ms, paths, states))
  {
    if paths != [] {
      var n := |paths| - 1;
      RebaseAllOnly(ms, paths[..n], states);
      RebaseOnly(RebaseAll(ms, paths[..n], states), paths[n], states[paths[n]]);
    }
  }

  lemma {:induction false} KeepCalls(ops: seq<Operation>, unresolved: set<Path>)
    ensures SameCalls(ops, KeepOps(ops, unresolved))
  {
    if ops != [] { KeepCalls(ops[..|ops| - 1], unresolved); }
  }

  lemma {:induction false} KeepAllOnly(ms: seq<Manifest>, unresolved: set<Path>)
    ensures SameButChanges(ms, KeepAll(ms, unresolved))
  {
    if ms != [] {
      KeepCalls(ms[|ms| - 1].operations, unresolved);
      KeepAllOnly(ms[..|ms| - 1], unresolved);
    }
  }

  // ----- the committed map -------------------------------------------------------------

  lemma {:induction false} OverwriteZip(ms: map<Id, Manifest>, ids: seq<Id>, xs: seq<Manifest>, i: nat)
    requires |ids| == |xs| && Distinct(ids) && i < |ids|
    ensures ids[i] in Overwrite(ms, Zip(ids, xs)) && Overwrite(ms, Zip(ids, xs))[ids[i]] == xs[i]
  {
    var n := |ids| - 1;
    assert Zip(ids, xs)[..n] == Zip(ids[..n], xs[..n]);
    if i < n {
      OverwriteZip(ms, ids[..n], xs[..n], i);
    }
  }

  lemma OrderedCovered(d: Disk, ids: seq<Id>)
    requires Basic(d) && forall i | 0 <= i < |ids| :: ids[i] in d.manifests
    ensures AllCovered(Ordered(d.manifests, ids), d.blobs)
  {
  }

  lemma RebasedCovered(d: Disk, start: nat, t: Tally)
    requires Basic(d) && start <= |d.index.order|
    requires forall p | p in t.restored :: p in t.states
    ensures var pre := Ordered(d.manifests, d.index.order[..start]);
            && AllCovered(RebaseAll(pre, t.restored, t.states), d.blobs)
            && SameButChanges(pre, RebaseAll(pre, t.restored, t.states))
  {
    OrderedCovered(d, d.index.order[..start]);
    RebaseAllCovered(Ordered(d.manifests, d.index.order[..start]), t.restored, t.states, d.blobs);
    RebaseAllOnly(Ordered(d.manifests, d.index.order[..start]), t.restored, t.states);
  }

  lemma BranchCovered(d: Disk, start: nat, retain: bool, t: Tally, clean: bool)
    requires Basic(d) && NoneRetired(d) && start <= |d.index.order|
    ensures AllCovered(BranchManifests(d, start, retain, t, clean), d.blobs)
    ensures !clean || retain ==>
              forall i | 0 <= i < |d.index.order| - start :: !BranchManifests(d, start, retain, t, clean)[i].retired
  {
    var selected := Ordered(d.manifests, d.index.order[start..]);
    OrderedCovered(d, d.index.order[start..]);
    KeepAllCovered(selected, Unresolved(t), d.blobs);
    KeepAllOnly(selected, Unresolved(t));
  }

  lemma AdvancedCovered(d: Disk, start: nat, retain: bool, t: Tally, clean: bool)
    requires DiskInv(d) && d.transaction == None && start <= |d.index.order|
    requires forall p | p in t.restored :: p in t.states
    ensures AllCovered(AdvancedManifests(d, start, retain, t, clean), d.blobs)
    ensures forall i | 0 <= i < |AdvancedIndex(d, start, retain, clean).order| ::
              !AdvancedManifests(d, start, retain, t, clean)[i].retired
  {
    RebasedCovered(d, start, t);
    BranchCovered(d, start, retain, t, clean);
  }

  lemma AdvanceStaged(d: Disk, start: nat, retain: bool, t: Tally, clean: bool)
    requires DiskInv(d) && d.transaction == None && start <= |d.index.order|
    requires forall p | p in t.restored :: p in t.states
    ensures DiskInv(Apply(d, WriteTransaction(AdvanceTransaction(d, start, retain, t, clean))))
  {
    AdvancedCovered(d, start, retain, t, clean);
    AdvancedListed(d, start, retain, t, clean);
    SubsequencePrefix(d.index.order, d.index.used, start);
    TransactionStaged(d, AdvanceTransaction(d, start, retain, t, clean));
  }

  /** Everything the committed index lists is there and not retired. */
  lemma AdvancedListed(d: Disk, start: nat, retain: bool, t: Tally, clean: bool)
    requires Basic(d) && start <= |d.index.order|
    requires forall p | p in t.restored :: p in t.states
    requires forall i | 0 <= i < |AdvancedIndex(d, start, retain, clean).order| ::
               !AdvancedManifests(d, start, retain, t, clean)[i].retired
    ensures var x := AdvanceTransaction(d, start, retain, t, clean);
            forall i | 0 <= i < |x.index.order| ::
              && x.index.order[i] in Overwrite(d.manifests, x.manifests)
              && !Overwrite(d.manifests, x.manifests)[x.index.order[i]].retired
  {
    SubsequenceMembers(d.index.order, d.index.used);
    var x := AdvanceTransaction(d, start, retain, t, clean);
    forall i | 0 <= i < |x.index.order|
      ensures x.index.order[i] in Overwrite(d.manifests, x.manifests)
      ensures !Overwrite(d.manifests, x.manifests)[x.index.order[i]].retired
    {
      OverwriteZip(d.manifests, d.index.order, AdvancedManifests(d, start, retain, t, clean), i);
    }
  }

  // ----- only changed predecessors are written ------------------------------------------

  function ChangedEntries(ids: seq<Id>, ms: seq<Manifest>, changed: set<int>): seq<Entry>
    requires |ids| == |ms|
  {
    if ids == [] then []
    else
      var n := |ids| - 1;
      var rest := ChangedEntries(ids[..n], ms[..n], changed);
      if n in changed then rest + [Entry(ids[n], ms[n])] else rest
  }

  lemma {:induction false} OverwriteUntouched(ms: map<Id, Manifest>, ids: seq<Id>, xs: seq<Manifest>, id: Id)
    requires |ids| == |xs| && id !in ids
    ensures id in Overwrite(ms, Zip(ids, xs)) <==> id in ms
    ensures id in ms ==> Overwrite(ms, Zip(ids, xs))[id] == ms[id]
  {
    OverwriteAt(ms, Zip(ids, xs), id);
  }

  lemma OverwriteSnoc(ms: map<Id, Manifest>, es: seq<Entry>, e: Entry)
    ensures Overwrite(ms, es + [e]) == Overwrite(ms, es)[e.id := e.manifest]
  {
    Sequences.Appended(es, e);
  }

  lemma ZipSnoc(ids: seq<Id>, xs: seq<Manifest>)
    requires |ids| == |xs| && ids != []
    ensures var n := |ids| - 1; Zip(ids, xs) == Zip(ids[..n], xs[..n]) + [Entry(ids[n], xs[n])]
  {
  }

  /** Leaving out manifests that did not change commits the same state. */
  lemma {:induction false} ChangedSuffice(ms: map<Id, Manifest>, ids: seq<Id>, xs: seq<Manifest>, changed: set<int>)
    requires |ids| == |xs| && Distinct(ids)
    requires forall i | 0 <= i < |ids| :: ids[i] in ms && (i !in changed ==> xs[i] == ms[ids[i]])
    ensures Overwrite(ms, ChangedEntries(ids, xs, changed)) == Overwrite(ms, Zip(ids, xs))
  {
    if ids != [] {
      var n := |ids| - 1;
      ChangedSuffice(ms, ids[..n], xs[..n], changed);
      var last := Entry(ids[n], xs[n]);
      ZipSnoc(ids, xs);
      OverwriteSnoc(ms, Zip(ids[..n], xs[..n]), last);
      if n in changed {
        OverwriteSnoc(ms, ChangedEntries(ids[..n], xs[..n], changed), last);
      } else {
        OverwriteUntouched(ms, ids[..n], xs[..n], ids[n]);
      }
    }
  }

  lemma {:induction false} OverwriteConcat(ms: map<Id, Manifest>, a: seq<Entry>, b: seq<Entry>)
    ensures Overwrite(ms, a + b) == Overwrite(Overwrite(ms, a), b)
  {
    if b == [] {
      assert a + b == a;
    } else {
      Sequences.Front(a, b);
      OverwriteConcat(ms, a, b[..|b| - 1]);
    }
  }

  lemma {:induction false} ZipConcat(ids: seq<Id>, xs: seq<Manifest>, k: nat)
    requires |ids| == |xs| && k <= |ids|
    ensures Zip(ids, xs) == Zip(ids[..k], xs[..k]) + Zip(ids[k..], xs[k..])
  {
  }

  lemma {:induction false} ChangedEntriesCovered(ids: seq<Id>, xs: seq<Manifest>, changed: set<int>, blobs: set<Digest>)
    requires |ids| == |xs| && AllCovered(xs, blobs)
    ensures forall i | 0 <= i < |ChangedEntries(ids, xs, changed)| ::
              Covered(ChangedEntries(ids, xs, changed)[i].manifest, blobs)
  {
    if ids != [] {
      var n := |ids| - 1;
      ChangedEntriesCovered(ids[..n], xs[..n], changed, blobs);
    }
  }

  /** The transaction actually written: changed predecessors and the branch. */
  function SmallTransaction(d: Disk, start: nat, retain: bool, t: Tally, clean: bool,
                            rebased: seq<Manifest>, changed: set<int>): Transaction
    requires InIndex(d) && start <= |d.index.order| && |rebased| == start
  {
    var selected := d.index.order[start..];
    Transaction(AdvancedIndex(d, start, retain, clean),
                ChangedEntries(d.index.order[..start], rebased, changed) +
                Zip(selected, BranchManifests(d, start, retain, t, clean)))
  }

  lemma SmallerOverwrite(d: Disk, start: nat, retain: bool, t: Tally, clean: bool,
                         rebased: seq<Manifest>, changed: set<int>)
    requires DiskInv(d) && start <= |d.index.order|
    requires forall p | p in t.restored :: p in t.states
    requires rebased == RebaseAll(Ordered(d.manifests, d.index.order[..start]), t.restored, t.states)
    requires forall i | 0 <= i < start && i !in changed :: rebased[i] == d.manifests[d.index.order[i]]
    ensures Overwrite(d.manifests, SmallTransaction(d, start, retain, t, clean, rebased, changed).manifests) ==
            Overwrite(d.manifests, AdvanceTransaction(d, start, retain, t, clean).manifests)
  {
    var order := d.index.order;
    var branch := BranchManifests(d, start, retain, t, clean);
    SubsequenceMembers(order, d.index.used);
    ChangedSuffice(d.manifests, order[..start], rebased, changed);
    OverwriteConcat(d.manifests, ChangedEntries(order[..start], rebased, changed), Zip(order[start..], branch));
    OverwriteConcat(d.manifests, Zip(order[..start], rebased), Zip(order[start..], branch));
    var xs := AdvancedManifests(d, start, retain, t, clean);
    ZipConcat(order, xs, start);
    assert xs[..start] == rebased && xs[start..] == branch;
  }

  lemma SmallerCovered(d: Disk, start: nat, retain: bool, t: Tally, clean: bool,
                       rebased: seq<Manifest>, changed: set<int>)
    requires DiskInv(d) && d.transaction == None && start <= |d.index.order|
    requires forall p | p in t.restored :: p in t.states
    requires rebased == RebaseAll(Ordered(d.manifests, d.index.order[..start]), t.restored, t.states)
    ensures var es := SmallTransaction(d, start, retain, t, clean, rebased, changed).manifests;
            forall i | 0 <= i < |es| :: Covered(es[i].manifest, d.blobs)
  {
    var xs := AdvancedManifests(d, start, retain, t, clean);
    var branch := BranchManifests(d, start, retain, t, clean);
    AdvancedCovered(d, start, retain, t, clean);
    PartsCovered(rebased, branch, xs, d.blobs);
    ChangedEntriesCovered(d.index.order[..start], rebased, changed, d.blobs);
    var small, rest := ChangedEntries(d.index.order[..start], rebased, changed), Zip(d.index.order[start..], branch);
    EntriesCovered(small, rest, d.blobs);
  }

  lemma PartsCovered(a: seq<Manifest>, b: seq<Manifest>, xs: seq<Manifest>, blobs: set<Digest>)
    requires xs == a + b && forall i | 0 <= i < |xs| :: Covered(xs[i], blobs)
    ensures forall i | 0 <= i < |a| :: Covered(a[i], blobs)
    ensures forall i | 0 <= i < |b| :: Covered(b[i], blobs)
  {
    forall i | 0 <= i < |a| ensures Covered(a[i], blobs) { assert xs[i] == a[i]; }
    forall i | 0 <= i < |b| ensures Covered(b[i], blobs) { assert xs[|a| + i] == b[i]; }
  }

  lemma EntriesCovered(a: seq<Entry>, b: seq<Entry>, blobs: set<Digest>)
    requires forall i | 0 <= i < |a| :: Covered(a[i].manifest, blobs)
    requires forall i | 0 <= i < |b| :: Covered(b[i].manifest, blobs)
    ensures forall i | 0 <= i < |a + b| :: Covered((a + b)[i].manifest, blobs)
  {
  }

  /** It commits the same state as writing every manifest of the index. */
  lemma SmallerTransaction(d: Disk, start: nat, retain: bool, t: Tally, clean: bool,
                           rebased: seq<Manifest>, changed: set<int>)
    requires DiskInv(d) && d.transaction == None && start <= |d.index.order|
    requires forall p | p in t.restored :: p in t.states
    requires rebased == RebaseAll(Ordered(d.manifests, d.index.order[..start]), t.restored, t.states)
    requires forall i | 0 <= i < start && i !in changed :: rebased[i] == d.manifests[d.index.order[i]]
    ensures var small := SmallTransaction(d, start, retain, t, clean, rebased, changed);
            && DiskInv(Apply(d, WriteTransaction(small)))
            && Committed(d, small) == Committed(d, AdvanceTransaction(d, start, retain, t, clean))
  {
    SmallerOverwrite(d, start, retain, t, clean, rebased, changed);
    SmallerCovered(d, start, retain, t, clean, rebased, changed);
    AdvanceStaged(d, start, retain, t, clean);
    SameCommitStaged(d, AdvanceTransaction(d, start, retain, t, clean),
                     SmallTransaction(d, start, retain, t, clean, rebased, changed));
  }

  lemma SameCommitStaged(d: Disk, big: Transaction, small: Transaction)
    requires DiskInv(d) && d.transaction == None
    requires DiskInv(Apply(d, WriteTransaction(big)))
    requires small.index == big.index
    requires Overwrite(d.manifests, small.manifests) == Overwrite(d.manifests, big.manifests)
    requires forall i | 0 <= i < |small.manifests| :: Covered(small.manifests[i].manifest, d.blobs)
    ensures DiskInv(Apply(d, WriteTransaction(small)))
    ensures Committed(d, small) == Committed(d, big)
  {
    var ds, db := Apply(d, WriteTransaction(small)), Apply(d, WriteTransaction(big));
    assert Committed(ds, small) == Committed(db, big);
    assert Basic(ds) by { assert Basic(d); }
  }
}
