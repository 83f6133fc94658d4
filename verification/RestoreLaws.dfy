/** What a begin, the end of a hidden branch and a restore leave in storage: only what was asked for
    goes, and no warning of what stays is lost. */
module RestoreLaws {
  import opened Collections
  import opened CheckpointData
  import opened Lineage
  import opened Timeline
  import opened CheckpointDisk
  import opened CheckpointSpec
  import opened CheckpointSafety
  import opened RestoreFates
  import opened RestoreSpec
  import opened CheckpointLaws
  import Sequences

  // ----- begin and pruning ------------------------------------------------------------------

  function Excess(n: nat, keep: nat): nat { if n <= keep then 0 else n - keep }

  /** The new checkpoint is empty, last and used; the oldest beyond the limit are gone with their
      records; all others have the manifest and the records they had. */
  ghost predicate Begins(d: Disk, d': Disk, id: Id, keep: nat) {
    var all := d.index.order + [id];
    var e := Excess(|all|, keep);
    && d'.index == Index(all[e..], d.index.used + [id]) && d'.transaction == d.transaction
    && d'.manifests.Keys == d.manifests.Keys + {id} - IdSet(all[..e])
    && (forall x | x in d'.manifests :: d'.manifests[x] == if x == id then Manifest(false, false, 0, 0, [], [])
                                                          else d.manifests[x])
    && (forall r :: r in d'.pending <==> r in d.pending && r.checkpoint !in all[..e])
  }

  lemma BeginLaw(d: Disk, id: Id, keep: nat)
    ensures Begins(d, Pruned(Begun(d, id), keep), id, keep) == true
  {
    PruneLaw(Begun(d, id), keep);
  }

  /** Pruning takes the oldest ids beyond the limit, with their manifests and records. */
  lemma PruneLaw(d: Disk, keep: nat)
    ensures var e, d' := Excess(|d.index.order|, keep), Pruned(d, keep);
            && d'.index == Index(d.index.order[e..], d.index.used) && d'.transaction == d.transaction
            && d'.manifests == d.manifests - IdSet(d.index.order[..e])
            && (forall r :: r in d'.pending <==> r in d.pending && r.checkpoint !in d.index.order[..e])
  {
    if |d.index.order| <= keep {
      Sequences.Whole(d.index.order);
    } else {
      OthersPendingAll(d.pending, d.index.order[..|d.index.order| - keep]);
    }
  }

  lemma {:induction false} OthersPendingAll(ps: seq<Pending>, ids: seq<Id>)
    ensures forall r :: r in WithoutCheckpoints(ps, ids) <==> r in ps && r.checkpoint !in ids
  {
    if ids != [] {
      var n := |ids| - 1;
      OthersPendingAll(ps, ids[..n]);
      OthersPending(WithoutCheckpoints(ps, ids[..n]), ids[n]);
      Sequences.Snoc(ids);
    }
  }

  // ----- a hidden branch --------------------------------------------------------------------

  /** A tombstone or an anchor: nothing is left to restore. */
  predicate Consumed(m: Manifest, retired: bool) {
    m.finished && m.retired == retired && m.operations == [] && m.warnings == []
  }

  /** The last kept checkpoint stands for itself and all that is hidden: the same changes of every path
      and the same warnings, those about calls that never finished included. */
  ghost predicate Absorbs(c: Disk, d': Disk, order: seq<Id>, kept: nat)
    requires 0 < kept < |order| && forall i | 0 <= i < |order| :: order[i] in c.manifests
  {
    var base, ms := order[kept - 1], Ordered(c.manifests, order[kept - 1..]);
    && base in d'.manifests
    && History([d'.manifests[base]]) == History(ms) && Warnings([d'.manifests[base]]) == Warnings(ms)
    && d'.manifests[base].finished == c.manifests[base].finished
    && forall r :: r in d'.pending <==> r in c.pending && r.checkpoint !in order[kept..]
  }

  /** The kept checkpoints but the last are untouched, the last absorbs the hidden ones once all of them
      are closed, and the hidden ones are tombstones. */
  ghost predicate Folds(d: Disk, d': Disk, kept: nat)
    requires InIndex(d) && kept < |d.index.order|
  {
    var order := d.index.order;
    && d'.index == Index(order[..kept], d.index.used) && d'.transaction == None
    && (forall i | 0 <= i < kept - 1 :: order[i] in d'.manifests && d'.manifests[order[i]] == d.manifests[order[i]])
    && (forall i | kept <= i < |order| :: order[i] in d'.manifests && Consumed(d'.manifests[order[i]], true))
    && if kept == 0 then forall r :: r in d'.pending <==> r in d.pending && r.checkpoint !in order
       else exists c: Disk :: FinishesAll(d, c, order[kept - 1..]) && Absorbs(c, d', order, kept)
  }

  lemma FoldLaw(d: Disk, kept: nat)
    requires InIndex(d) && Distinct(d.index.order) && kept < |d.index.order|
    ensures Folds(d, FoldDisk(d, kept), kept)
  {
    var order := d.index.order;
    var c := if kept == 0 then d else FinalizedAll(d, order[kept - 1..]);
    if kept > 0 { FinishAllLaw(d, order[kept - 1..]); }
    var d' := FoldDisk(d, kept);
    OthersPendingAll(c.pending, order[kept..]);
    FoldList(c, kept);
    Sequences.Whole(order);
    forall i | kept <= i < |order| ensures order[i] in d'.manifests && Consumed(d'.manifests[order[i]], true) {
      HiddenEntry(c.manifests, FoldTransaction(c, kept).manifests, FoldBase(c, kept), order, kept, i);
    }
    forall i | 0 <= i < kept - 1
      ensures order[i] in d'.manifests && d'.manifests[order[i]] == d.manifests[order[i]]
    {
      FoldEntryAt(c, kept, i);
      KeptApart(order, kept, i);
    }
    if kept > 0 {
      FoldEntryAt(c, kept, kept - 1);
      MergedStands(c.manifests, order, kept);
      assert Absorbs(c, d', order, kept);
    }
  }

  function FoldBase(d: Disk, kept: nat): seq<Entry>
    requires InIndex(d) && kept <= |d.index.order|
  {
    var order := d.index.order;
    if kept == 0 then []
    else [Entry(order[kept - 1], Merged(d.manifests[order[kept - 1]], Ordered(d.manifests, order[kept..])))]
  }

  lemma FoldList(d: Disk, kept: nat)
    requires InIndex(d) && kept <= |d.index.order|
    ensures EndsRetired(FoldTransaction(d, kept).manifests, FoldBase(d, kept), d.index.order[kept..])
  {
  }

  /** The list ends in a tombstone for every hidden id. */
  predicate EndsRetired(es: seq<Entry>, base: seq<Entry>, ids: seq<Id>) {
    es == base + Zip(ids, Copies(RetiredManifest(), |ids|))
  }

  lemma HiddenEntry(ms: map<Id, Manifest>, es: seq<Entry>, base: seq<Entry>, order: seq<Id>, kept: nat, i: nat)
    requires kept <= i < |order| && Distinct(order) && EndsRetired(es, base, order[kept..])
    ensures order[i] in Overwrite(ms, es) && Overwrite(ms, es)[order[i]] == RetiredManifest()
  {
    RetiredLast(ms, base, order[kept..], i - kept);
  }

  lemma RetiredLast(ms: map<Id, Manifest>, base: seq<Entry>, ids: seq<Id>, i: nat)
    requires Distinct(ids) && i < |ids|
    ensures var after := Overwrite(ms, base + Zip(ids, Copies(RetiredManifest(), |ids|)));
            ids[i] in after && after[ids[i]] == RetiredManifest()
  {
    OverwriteConcat(ms, base, Zip(ids, Copies(RetiredManifest(), |ids|)));
    OverwriteZip(Overwrite(ms, base), ids, Copies(RetiredManifest(), |ids|), i);
  }

  lemma MergedStands(ms: map<Id, Manifest>, order: seq<Id>, kept: nat)
    requires 0 < kept < |order| && forall i | 0 <= i < |order| :: order[i] in ms
    ensures var merged := Merged(ms[order[kept - 1]], Ordered(ms, order[kept..]));
            var whole := Ordered(ms, order[kept - 1..]);
            History([merged]) == History(whole) && Warnings([merged]) == Warnings(whole)
  {
    var whole := Ordered(ms, order[kept - 1..]);
    var base, hidden := ms[order[kept - 1]], Ordered(ms, order[kept..]);
    MergedMeaning([], base, hidden);
    assert [] + [Merged(base, hidden)] == [Merged(base, hidden)];
    assert [] + [base] + hidden == whole;
  }

  lemma FoldEntryAt(d: Disk, kept: nat, i: nat)
    requires i < kept < |d.index.order| && Distinct(d.index.order)
    requires forall j | 0 <= j < |d.index.order| :: d.index.order[j] in d.manifests
    ensures var order := d.index.order;
            var after := Overwrite(d.manifests, FoldTransaction(d, kept).manifests);
            order[i] in after &&
            after[order[i]] == if i == kept - 1
                               then Merged(d.manifests[order[i]], Ordered(d.manifests, order[kept..]))
                               else d.manifests[order[i]]
  {
    var order, hidden := d.index.order, d.index.order[kept..];
    var base := Entry(order[kept - 1], Merged(d.manifests[order[kept - 1]], Ordered(d.manifests, hidden)));
    KeptApart(order, kept, i);
    BaseStands(d.manifests, base, hidden, Copies(RetiredManifest(), |hidden|), order[i]);
  }

  lemma KeptApart(order: seq<Id>, kept: nat, i: nat)
    requires i < kept <= |order| && Distinct(order)
    ensures order[i] !in order[kept..] && (i < kept - 1 ==> order[i] != order[kept - 1])
  {
  }

  /** An id that is not overwritten later keeps the base entry, or what it had. */
  lemma BaseStands(ms: map<Id, Manifest>, base: Entry, ids: seq<Id>, xs: seq<Manifest>, id: Id)
    requires |ids| == |xs| && id !in ids && id in ms
    ensures var after := Overwrite(ms, [base] + Zip(ids, xs));
            id in after && after[id] == if id == base.id then base.manifest else ms[id]
  {
    OverwriteFirst(ms, base, Zip(ids, xs));
    OverwriteUntouched(ms[base.id := base.manifest], ids, xs, id);
  }

  lemma {:induction false} OverwriteFirst(ms: map<Id, Manifest>, e: Entry, es: seq<Entry>)
    ensures Overwrite(ms, [e] + es) == Overwrite(ms[e.id := e.manifest], es)
  {
    if es == [] {
      assert [e] + es == [e];
      assert [e][..0] == [];
    } else {
      assert ([e] + es)[..|es|] == [e] + es[..|es| - 1];
      OverwriteFirst(ms, e, es[..|es| - 1]);
    }
  }

  // ----- a restore --------------------------------------------------------------------------

  lemma {:induction false} KeepChangesChain(cs: seq<Change>, unresolved: set<Path>, p: Path)
    ensures Chain(KeepChanges(cs, unresolved), p) == if p in unresolved then Chain(cs, p) else []
  {
    if cs != [] {
      var n := |cs| - 1;
      KeepChangesChain(cs[..n], unresolved, p);
      ChainSnoc(KeepChanges(cs[..n], unresolved), cs[n], p);
    }
  }

  lemma {:induction false} KeepOpsChain(ops: seq<Operation>, unresolved: set<Path>, p: Path)
    ensures Chain(OpChanges(KeepOps(ops, unresolved)), p) == if p in unresolved then Chain(OpChanges(ops), p) else []
  {
    if ops != [] {
      var n := |ops| - 1;
      var kept := KeepOps(ops[..n], unresolved);
      KeepOpsChain(ops[..n], unresolved, p);
      KeepChangesChain(ops[n].changes, unresolved, p);
      ChainConcat(OpChanges(ops[..n]), ops[n].changes, p);
      ChainConcat(OpChanges(kept), KeepChanges(ops[n].changes, unresolved), p);
      Sequences.Appended(kept, ops[n].(changes := KeepChanges(ops[n].changes, unresolved)));
    }
  }

  /** What an incomplete restore leaves to a retry: the whole chain of every path it skipped, and
      nothing of the others. */
  lemma {:induction false} RetryChain(ms: seq<Manifest>, unresolved: set<Path>, p: Path)
    ensures Chain(History(KeepAll(ms, unresolved)), p) == if p in unresolved then Chain(History(ms), p) else []
  {
    if ms != [] {
      var n := |ms| - 1;
      var kept := KeepAll(ms[..n], unresolved);
      RetryChain(ms[..n], unresolved, p);
      KeepOpsChain(ms[n].operations, unresolved, p);
      ChainConcat(History(ms[..n]), OpChanges(ms[n].operations), p);
      ChainConcat(History(kept), OpChanges(KeepAll(ms, unresolved)[n].operations), p);
      Sequences.Appended(kept, ms[n].(operations := KeepOps(ms[n].operations, unresolved)));
    }
  }

  /** What the commit of a restore leaves.  Complete: the selected checkpoints are consumed.  Incomplete:
      they lose exactly the changes of paths that are back, and no warning.  Earlier ones only see the
      ends of the restored paths' chains move. */
  ghost predicate Advances(d: Disk, d': Disk, start: nat, retain: bool, t: Tally, clean: bool)
    requires InIndex(d) && start <= |d.index.order|
    requires forall p | p in t.restored :: p in t.states
  {
    var order := d.index.order;
    && d'.index == (if clean && !retain then Index(order[..start], d.index.used) else d.index)
    && d'.pending == d.pending && d'.manifests.Keys == d.manifests.Keys
    && (forall id | id in d.manifests :: EntryAfter(d.manifests, d'.manifests, order, start, retain, clean, id))
    && (forall k | 0 <= k <= start :: ChainsMoved(d.manifests, d'.manifests, order[k..start], t))
    && (!clean ==> ChainsLeft(d.manifests, d'.manifests, order[start..], t))
  }

  predicate MayBecome(m: Manifest, m': Manifest, consumed: bool, retired: bool) {
    if consumed then Consumed(m', retired) else OnlyChanges(m, m')
  }

  predicate EntryAfter(ms: map<Id, Manifest>, ms': map<Id, Manifest>, order: seq<Id>, start: nat, retain: bool,
                       clean: bool, id: Id)
    requires id in ms && start <= |order|
  {
    && id in ms'
    && if id in order then MayBecome(ms[id], ms'[id], clean && id in order[start..], !retain) else ms'[id] == ms[id]
  }

  predicate AllIn(ms: map<Id, Manifest>, ids: seq<Id>) { forall i | 0 <= i < |ids| :: ids[i] in ms }

  ghost predicate ChainsMoved(ms: map<Id, Manifest>, ms': map<Id, Manifest>, ids: seq<Id>, t: Tally)
    requires AllIn(ms, ids) && forall p | p in t.restored :: p in t.states
  {
    && AllIn(ms', ids)
    && forall p: Path :: var was := Chain(History(Ordered(ms, ids)), p);
         Chain(History(Ordered(ms', ids)), p) == if p in t.restored then Retarget(was, t.states[p]) else was
  }

  ghost predicate ChainsLeft(ms: map<Id, Manifest>, ms': map<Id, Manifest>, ids: seq<Id>, t: Tally)
    requires AllIn(ms, ids)
  {
    && AllIn(ms', ids)
    && forall p: Path ::
         Chain(History(Ordered(ms', ids)), p) == if p in t.skipped then Chain(History(Ordered(ms, ids)), p) else []
  }

  lemma AdvanceLaw(d: Disk, start: nat, retain: bool, t: Tally, clean: bool)
    requires DiskInv(d) == true && InIndex(d) && start <= |d.index.order|
    requires Distinct(t.restored) && forall p | p in t.restored :: p in t.states
    ensures Advances(d, Advanced(d, start, retain, t, clean), start, retain, t, clean)
  {
    SubsequenceMembers(d.index.order, d.index.used);
    AdvancedAre(d, start, retain, t, clean);
    var xs := AdvancedManifests(d, start, retain, t, clean);
    ManifestsAdvance(d.manifests, d.index.order, xs, start, retain, t, clean);
  }

  /** The manifests part, for any list that replaces those of the index. */
  lemma ManifestsAdvance(ms: map<Id, Manifest>, order: seq<Id>, xs: seq<Manifest>, start: nat, retain: bool, t: Tally,
                         clean: bool)
    requires Distinct(order) && start <= |order| == |xs| && AllIn(ms, order)
    requires Distinct(t.restored) && forall p | p in t.restored :: p in t.states
    requires forall i | 0 <= i < |order| :: MayBecome(ms[order[i]], xs[i], clean && start <= i, !retain)
    requires xs[..start] == RebaseAll(Ordered(ms, order[..start]), t.restored, t.states)
    requires !clean ==> xs[start..] == KeepAll(Ordered(ms, order[start..]), Unresolved(t))
    ensures var ms' := Overwrite(ms, Zip(order, xs));
            && ms'.Keys == ms.Keys
            && (forall id | id in ms :: EntryAfter(ms, ms', order, start, retain, clean, id))
            && (forall k | 0 <= k <= start :: ChainsMoved(ms, ms', order[k..start], t))
            && (!clean ==> ChainsLeft(ms, ms', order[start..], t))
  {
    forall id: Id {
      EntryBecomes(ms, order, xs, start, retain, clean, id);
    }
    forall k | 0 <= k <= start ensures ChainsMoved(ms, Overwrite(ms, Zip(order, xs)), order[k..start], t) {
      MovedFrom(ms, order, xs, start, t, k);
    }
    if !clean { LeftFrom(ms, order, xs, start, t); }
  }

  lemma AdvancedAre(d: Disk, start: nat, retain: bool, t: Tally, clean: bool)
    requires InIndex(d) && start <= |d.index.order| && forall p | p in t.restored :: p in t.states
    ensures var order, xs := d.index.order, AdvancedManifests(d, start, retain, t, clean);
            && xs[..start] == RebaseAll(Ordered(d.manifests, order[..start]), t.restored, t.states)
            && (!clean ==> xs[start..] == KeepAll(Ordered(d.manifests, order[start..]), Unresolved(t)))
            && forall i | 0 <= i < |order| ::
                 MayBecome(d.manifests[order[i]], xs[i], clean && start <= i, !retain)
  {
    var pre, branch := RebaseAll(Ordered(d.manifests, d.index.order[..start]), t.restored, t.states),
                       BranchManifests(d, start, retain, t, clean);
    TwoParts(pre, branch);
    forall i | 0 <= i < |d.index.order|
      ensures MayBecome(d.manifests[d.index.order[i]], AdvancedManifests(d, start, retain, t, clean)[i],
                        clean && start <= i, !retain)
    {
      if start <= i { BranchBecomes(d, start, retain, t, clean, i); } else { PredecessorBecomes(d, start, t, i); }
    }
  }

  lemma TwoParts<T>(a: seq<T>, b: seq<T>)
    ensures (a + b)[..|a|] == a && (a + b)[|a|..] == b
  {
  }

  lemma PredecessorBecomes(d: Disk, start: nat, t: Tally, i: nat)
    requires InIndex(d) && i < start <= |d.index.order| && forall p | p in t.restored :: p in t.states
    ensures OnlyChanges(d.manifests[d.index.order[i]],
                        RebaseAll(Ordered(d.manifests, d.index.order[..start]), t.restored, t.states)[i])
  {
    RebaseAllOnly(Ordered(d.manifests, d.index.order[..start]), t.restored, t.states);
    assert Ordered(d.manifests, d.index.order[..start])[i] == d.manifests[d.index.order[i]];
  }

  lemma BranchBecomes(d: Disk, start: nat, retain: bool, t: Tally, clean: bool, i: nat)
    requires InIndex(d) && start <= i < |d.index.order|
    ensures MayBecome(d.manifests[d.index.order[i]], BranchManifests(d, start, retain, t, clean)[i - start], clean,
                      !retain)
  {
    var selected := Ordered(d.manifests, d.index.order[start..]);
    KeepAllOnly(selected, Unresolved(t));
    assert selected[i - start] == d.manifests[d.index.order[i]];
  }

  lemma EntryBecomes(ms: map<Id, Manifest>, order: seq<Id>, xs: seq<Manifest>, start: nat, retain: bool, clean: bool,
                     id: Id)
    requires Distinct(order) && start <= |order| == |xs| && AllIn(ms, order)
    requires forall i | 0 <= i < |order| :: MayBecome(ms[order[i]], xs[i], clean && start <= i, !retain)
    ensures id in Overwrite(ms, Zip(order, xs)) <==> id in ms
    ensures id in ms ==> EntryAfter(ms, Overwrite(ms, Zip(order, xs)), order, start, retain, clean, id)
  {
    if id in order {
      var i :| 0 <= i < |order| && order[i] == id;
      OverwriteZip(ms, order, xs, i);
      LaterExactly(order, start, i);
    } else {
      OverwriteUntouched(ms, order, xs, id);
    }
  }

  lemma LaterExactly(order: seq<Id>, start: nat, i: nat)
    requires Distinct(order) && start <= |order| && i < |order|
    ensures order[i] in order[start..] <==> start <= i
  {
    if start <= i { assert order[start..][i - start] == order[i]; }
  }

  /** The ids map to these manifests, in order. */
  predicate Shown(ms: map<Id, Manifest>, ids: seq<Id>, view: seq<Manifest>) {
    |view| == |ids| && forall i | 0 <= i < |ids| :: ids[i] in ms && ms[ids[i]] == view[i]
  }

  lemma ShownOrdered(ms: map<Id, Manifest>, ids: seq<Id>, view: seq<Manifest>)
    requires Shown(ms, ids, view)
    ensures Ordered(ms, ids) == view
  {
  }

  lemma Written(ms: map<Id, Manifest>, order: seq<Id>, xs: seq<Manifest>)
    requires Distinct(order) && |xs| == |order|
    ensures Shown(Overwrite(ms, Zip(order, xs)), order, xs)
  {
    var after := Overwrite(ms, Zip(order, xs));
    forall i | 0 <= i < |order| ensures order[i] in after && after[order[i]] == xs[i] {
      OverwriteZip(ms, order, xs, i);
    }
  }

  lemma ShownSlice(ms: map<Id, Manifest>, order: seq<Id>, xs: seq<Manifest>, a: nat, b: nat)
    requires Shown(ms, order, xs) && a <= b <= |order|
    ensures AllIn(ms, order[a..b]) && Ordered(ms, order[a..b]) == xs[a..b]
  {
    assert Shown(ms, order[a..b], xs[a..b]);
    ShownOrdered(ms, order[a..b], xs[a..b]);
  }

  lemma MiddlePart<T>(a: seq<T>, k: nat, m: nat)
    requires k <= m <= |a|
    ensures a[k..m] == a[..m][k..]
  {
  }

  lemma OrderedMiddle(ms: map<Id, Manifest>, order: seq<Id>, k: nat, m: nat)
    requires AllIn(ms, order) && k <= m <= |order|
    ensures Ordered(ms, order[k..m]) == Ordered(ms, order[..m])[k..]
  {
  }

  lemma MovedFrom(ms: map<Id, Manifest>, order: seq<Id>, xs: seq<Manifest>, start: nat, t: Tally, k: nat)
    requires Distinct(order) && k <= start <= |order| == |xs| && AllIn(ms, order)
    requires Distinct(t.restored) && forall p | p in t.restored :: p in t.states
    requires xs[..start] == RebaseAll(Ordered(ms, order[..start]), t.restored, t.states)
    ensures ChainsMoved(ms, Overwrite(ms, Zip(order, xs)), order[k..start], t)
  {
    var pre := Ordered(ms, order[..start]);
    Written(ms, order, xs);
    ShownSlice(Overwrite(ms, Zip(order, xs)), order, xs, k, start);
    MiddlePart(xs, k, start);
    OrderedMiddle(ms, order, k, start);
    forall p: Path {
      RebaseAllSuffix(pre, k, t.restored, t.states, p);
    }
  }

  lemma ToEnd<T, U>(a: seq<T>, b: seq<U>, k: nat)
    requires k <= |a| == |b|
    ensures a[k..|a|] == a[k..] && b[k..|a|] == b[k..]
  {
  }

  lemma LeftFrom(ms: map<Id, Manifest>, order: seq<Id>, xs: seq<Manifest>, start: nat, t: Tally)
    requires Distinct(order) && start <= |order| == |xs| && AllIn(ms, order)
    requires xs[start..] == KeepAll(Ordered(ms, order[start..]), Unresolved(t))
    ensures ChainsLeft(ms, Overwrite(ms, Zip(order, xs)), order[start..], t)
  {
    Written(ms, order, xs);
    ShownSlice(Overwrite(ms, Zip(order, xs)), order, xs, start, |order|);
    ToEnd(order, xs, start);
    forall p: Path {
      RetryChain(Ordered(ms, order[start..]), Unresolved(t), p);
    }
  }
}
