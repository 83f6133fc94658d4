/** Whole runs of the checkpoint store in which only tracked calls change files: every
    restore reaches the files its checkpoint started from, whatever happened before, process
    exits between events and inside the commits included. */
module UndoRuns {
  import opened Collections
  import opened CheckpointData
  import Sequences
  import opened Lineage
  import opened Timeline
  import opened CheckpointDisk
  import opened CheckpointSpec
  import opened StepSafety
  import opened RestoreFates
  import opened RestoreFiles
  import opened RestoreSpec
  import opened CheckpointLaws
  import opened RestoreLaws
  import opened CheckpointStore

  /** origin maps a checkpoint to the files its restore must bring back. */
  datatype Sys = Sys(disk: Disk, active: Option<Id>, files: Workspace, origin: map<Id, Workspace>)

  /** The process exits after k durable writes of the commit of t, and after exits[i] writes of the
      i-th recovery; then a recovery is left to finish. */
  datatype Cut = Cut(t: Transaction, k: nat, exits: seq<nat>)

  datatype Event =
    | Begin(id: Id)
    | Call(call: CallId, paths: seq<Path>)
    | Finish(id: Id)
    | Restore(id: Id, includeTarget: bool, retainTarget: bool, tried: seq<Deed>, tally: Tally, clean: bool,
              deeds: seq<Deed>, cut: Option<Cut>)
    | Hide(visible: set<Id>, cut: Option<Cut>)
    | Reopen(exits: seq<nat>)

  /** One event of a run without interference; its storage is what the store method ensures.  That the
      storage invariant holds again is proved, not supposed. */
  ghost predicate Step(s: Sys, e: Event, s': Sys, lim: Limits) {
    InIndex(s.disk) &&
    match e
    case Begin(id) =>
      && s.active == None && id !in s.disk.index.used && id !in s.disk.manifests
      && s' == Sys(Pruned(Begun(s.disk, id), lim.checkpoints), Some(id), s.files, s.origin[id := s.files])
    case Call(call, paths) =>
      && s.active.Some? && s.active.value in s.disk.manifests
      && call != "" && paths != []
      && TrackedEdit(paths, s.files, s'.files)
      && Fits(s.files, paths, s.disk.manifests[s.active.value], lim)
      && s' == s.(files := s'.files,
                  disk := AfterCall(s.disk, s.active.value, call, paths, s.files, s'.files, lim))
    case Finish(id) =>
      && s.active == Some(id) && id in s.disk.manifests
      && s' == s.(active := None, disk := Collected(Finalized(s.disk, id)))
    case Restore(id, includeTarget, _, _, _, _, _, _) =>
      && s.active == None && id in s.disk.index.order
      && RestoreStep(s, StartOf(s.disk.index.order, id, includeTarget), e, s')
    case Hide(visible, cut) =>
      && s.active == None && s' == s.(disk := s'.disk)
      && exists k: nat :: VisiblePrefix(s.disk.index.order, visible, k) && HideStep(s.disk, k, cut, s'.disk)
    case Reopen(exits) =>
      s' == s.(active := None, disk := Recovered(Recoveries(s.disk, exits)))
  }

  /** Every file of the call can be captured and the checkpoint has room for all of them. */
  predicate Fits(ws: Workspace, paths: seq<Path>, m: Manifest, lim: Limits) {
    CallFits(ws, paths, m.snapshots, m.bytes, lim)
  }

  /** A commit of t on top of d went through to done, or was cut and recovered. */
  predicate Ends(d': Disk, d: Disk, t: Transaction, done: Disk, cut: Option<Cut>) {
    match cut
    case None => d' == done
    case Some(c) =>
      && Committed(d, c.t) == Committed(d, t) && c.k <= |CommitWrites(c.t)|
      && d' == Recovered(Recoveries(ApplyAll(d, CommitWrites(c.t)[..c.k]), c.exits))
  }

  lemma CutIsAtomic(d': Disk, d: Disk, t: Transaction, done: Disk, c: Cut)
    requires Ends(d', d, t, done, Some(c)) && d.transaction == None
    ensures d' == if c.k == 0 then d else Committed(d, t)
  {
    CommitIsAtomic(d, c.t, c.k, c.exits);
  }

  /** The checkpoints a fold merges are closed first. */
  function Closed(d: Disk, kept: nat): (r: Disk)
    requires InIndex(d) && kept <= |d.index.order|
    ensures r.index == d.index && InIndex(r) && r.transaction == d.transaction
  {
    if kept == 0 then d else FinalizedAll(d, d.index.order[kept - 1..])
  }

  ghost predicate HideStep(d: Disk, kept: nat, cut: Option<Cut>, d': Disk)
    requires InIndex(d)
  {
    && kept <= |d.index.order|
    && if kept == |d.index.order| then cut == None && d' == d
       else Ends(d', Closed(d, kept), FoldTransaction(Closed(d, kept), kept), FoldDisk(d, kept), cut)
  }

  /** tool:pre, the edit, tool:post. */
  function AfterCall(d: Disk, id: Id, call: CallId, paths: seq<Path>, was: Workspace, now: Workspace, lim: Limits): Disk
    requires id in d.manifests && call != "" && paths != []
  {
    var d1 := PreDisk(d, was, id, call, RelativeTargets(paths), lim);
    var r := FindPending(d1.pending, Some(id), call);
    if r == None || r.value.checkpoint !in d1.manifests then d1 else PostDisk(d1, now, r.value)
  }

  /** The selected checkpoints are closed first. */
  function Selected(d: Disk, start: nat): (r: Disk)
    requires InIndex(d) && start <= |d.index.order|
    ensures r.index == d.index && InIndex(r)
  {
    FinalizedAll(d, d.index.order[start..])
  }

  /** Then the files are restored and the branch is committed. */
  ghost predicate RestoreStep(s: Sys, start: nat, e: Event, s': Sys)
    requires e.Restore? && InIndex(s.disk) && start <= |s.disk.index.order|
  {
    && s'.active == None
    && RestoreOn(Selected(s.disk, start), start, e.retainTarget, s.files, s.origin, e.tried,
                 e.deeds, e.tally, e.clean, e.cut, s'.files, s'.disk, s'.origin)
  }

  /** Writes of attempts that exits cut short among their files: every opening repeats the restore its
      journal left unfinished before any other work. */
  ghost predicate Tried(d: Disk, start: nat, files: Workspace, tried: seq<Deed>)
    requires InIndex(d) && start <= |d.index.order|
  {
    var ms := Ordered(d.manifests, d.index.order[start..]);
    OnlyOwn(tried) && CasSafe(files, tried, History(ms), Warnings(ms))
  }

  /** An exit before the commit's record is written cuts the attempt short as well. */
  ghost predicate RestoreOn(d: Disk, start: nat, retain: bool, files: Workspace, origin: map<Id, Workspace>,
                            tried: seq<Deed>, deeds: seq<Deed>, tally: Tally, clean: bool, cut: Option<Cut>,
                            files': Workspace, d': Disk, origin': map<Id, Workspace>)
    requires InIndex(d) && start <= |d.index.order|
  {
    && Tried(d, start, files, tried)
    && FileOutcome(d, start, true, Replayed(files, tried), deeds, tally, clean, files')
    && (cut.Some? ==> cut.value.k > 0)
    && Ends(d', d, AdvanceTransaction(d, start, retain, tally, clean), Advanced(d, start, retain, tally, clean), cut)
    && origin' == if retain then Reanchored(origin, d.index.order[start..], files') else origin
  }

  /** A code-only restore makes the current files the start of every later checkpoint. */
  function Reanchored(origin: map<Id, Workspace>, ids: seq<Id>, files: Workspace): map<Id, Workspace> {
    map id | id in origin.Keys + IdSet(ids) :: if id in ids then files else origin[id]
  }

  /** Held, for the manifests and origins of the index. */
  ghost predicate HeldBy(d: Disk, files: Workspace, origin: map<Id, Workspace>) {
    && InIndex(d)
    && (forall i | 0 <= i < |d.index.order| :: d.index.order[i] in origin)
    && Held(Ordered(d.manifests, d.index.order), files, Ordered(origin, d.index.order))
  }

  /** Bookkeeping between events: no call and no commit open. */
  ghost predicate Tidy(d: Disk, active: Option<Id>, lim: Limits) {
    && lim.checkpoints >= 1
    && DiskInv(d) && d.transaction == None && d.pending == []
    && (active.Some? ==> OpenCheckpoint(d, active.value, lim))
  }

  ghost predicate Sound(s: Sys, lim: Limits) {
    && Tidy(s.disk, s.active, lim)
    && HeldBy(s.disk, s.files, s.origin)
    && (forall id | id in s.origin :: id in s.disk.index.used)
  }

  // ----- the lineage sees only operations and warnings ------------------------------------

  predicate SameRecords(a: seq<Manifest>, b: seq<Manifest>) {
    |a| == |b| && forall i | 0 <= i < |a| :: a[i].operations == b[i].operations && a[i].warnings == b[i].warnings
  }

  lemma {:induction false} SameHistory(a: seq<Manifest>, b: seq<Manifest>)
    requires SameRecords(a, b)
    ensures History(a) == History(b) && Warnings(a) == Warnings(b)
  {
    if a != [] {
      SameHistory(a[..|a| - 1], b[..|b| - 1]);
    }
  }

  lemma SameRecordsHold(a: seq<Manifest>, b: seq<Manifest>, ws: Workspace, snaps: seq<Workspace>)
    requires Held(a, ws, snaps) && SameRecords(a, b)
    ensures Held(b, ws, snaps)
  {
    SameHistory(a, b);
    forall k | 0 <= k <= |a| ensures History(a[k..]) == History(b[k..]) {
      SameHistory(a[k..], b[k..]);
    }
    forall p: Path ensures HeldAt(b, ws, snaps, p) {
      assert HeldAt(a, ws, snaps, p);
    }
  }

  // ----- begin --------------------------------------------------------------------------

  lemma BeginView(d: Disk, id: Id, keep: nat)
    requires DiskInv(d) && id !in d.index.used && keep >= 1
    ensures var d' := Pruned(Begun(d, id), keep);
            var all := d.index.order + [id];
            var e := Excess(|all|, keep);
            && d'.index == Index(all[e..], d.index.used + [id])
            && (forall i | 0 <= i < |all[e..]| :: all[e..][i] in d'.manifests)
            && Ordered(d'.manifests, all[e..]) == (Ordered(d.manifests, d.index.order) + [EmptyManifest()])[e..]
  {
    var b := Begun(d, id);
    var all := d.index.order + [id];
    var e := Excess(|all|, keep);
    OrderIsUsed(d);
    PruneLaw(b, keep);
    assert b.index.order == all;
    forall i | e <= i < |all|
      ensures all[i] in Pruned(b, keep).manifests
      ensures Pruned(b, keep).manifests[all[i]] == (Ordered(d.manifests, d.index.order) + [EmptyManifest()])[i]
    {
      BeginEntry(d, id, e, i);
    }
  }

  /** The i-th manifest once a checkpoint has begun. */
  lemma BeginEntry(d: Disk, id: Id, e: nat, i: nat)
    requires InIndex(d) && Distinct(d.index.order) && id !in d.index.order && e <= i <= |d.index.order|
    ensures var all := d.index.order + [id];
            && all[i] !in all[..e] && all[i] in Begun(d, id).manifests
            && Begun(d, id).manifests[all[i]] == (Ordered(d.manifests, d.index.order) + [EmptyManifest()])[i]
  {
    LaterNotEarlier(d.index.order, id, e, i);
  }

  lemma LaterNotEarlier(order: seq<Id>, id: Id, e: nat, i: nat)
    requires Distinct(order) && id !in order && e <= i <= |order|
    ensures (order + [id])[i] !in (order + [id])[..e]
    ensures i < |order| ==> (order + [id])[i] == order[i] && order[i] != id
  {
  }

  lemma BeginHeld(d: Disk, id: Id, keep: nat, files: Workspace, origin: map<Id, Workspace>)
    requires DiskInv(d) && id !in d.index.used && keep >= 1
    requires HeldBy(d, files, origin)
    ensures HeldBy(Pruned(Begun(d, id), keep), files, origin[id := files])
  {
    var e := Excess(|d.index.order| + 1, keep);
    BeginView(d, id, keep);
    OrderIsUsed(d);
    var view := Ordered(d.manifests, d.index.order);
    BeginTimeline(view, d.index.order, id, e, files, origin);
    ViewHeld(Pruned(Begun(d, id), keep), (view + [EmptyManifest()])[e..], files, origin[id := files]);
  }

  /** The timeline from position e on, once a checkpoint has begun. */
  lemma BeginTimeline(view: seq<Manifest>, order: seq<Id>, id: Id, e: nat, files: Workspace, origin: map<Id, Workspace>)
    requires Distinct(order) && id !in order && e <= |order|
    requires forall i | 0 <= i < |order| :: order[i] in origin
    requires Held(view, files, Ordered(origin, order))
    ensures var ids := (order + [id])[e..]; var origin' := origin[id := files];
            && (forall i | 0 <= i < |ids| :: ids[i] in origin')
            && Held((view + [EmptyManifest()])[e..], files, Ordered(origin', ids))
  {
    BeginHolds(view, files, Ordered(origin, order));
    PruneHolds(view + [EmptyManifest()], files, Ordered(origin, order) + [files], e);
    OriginsBegin(order, id, e, origin, files);
  }

  lemma OriginsBegin(order: seq<Id>, id: Id, e: nat, origin: map<Id, Workspace>, files: Workspace)
    requires Distinct(order) && id !in order && e <= |order|
    requires forall i | 0 <= i < |order| :: order[i] in origin
    ensures var all := order + [id];
            && (forall i | 0 <= i < |all[e..]| :: all[e..][i] in origin[id := files])
            && Ordered(origin[id := files], all[e..]) == (Ordered(origin, order) + [files])[e..]
  {
    var all := order + [id];
    forall i | 0 <= i < |all[e..]|
      ensures all[e..][i] in origin[id := files]
      ensures origin[id := files][all[e..][i]] == (Ordered(origin, order) + [files])[e + i]
    {
      if e + i < |order| { LaterNotEarlier(order, id, e, e + i); }
    }
  }

  lemma BeginTidy(d: Disk, id: Id, lim: Limits)
    requires Tidy(d, None, lim) && id !in d.index.used
    ensures Tidy(Pruned(Begun(d, id), lim.checkpoints), Some(id), lim)
  {
    BeginSafe(d, id, lim.checkpoints);
    BeginLast(d, id, lim.checkpoints);
    PrunedPending(Begun(d, id), lim.checkpoints);
  }

  /** The begun checkpoint is last and empty. */
  lemma BeginLast(d: Disk, id: Id, keep: nat)
    requires DiskInv(d) && id !in d.index.used && keep >= 1
    ensures var d' := Pruned(Begun(d, id), keep);
            var n := |d'.index.order|;
            n > 0 && d'.index.order[n - 1] == id && id in d'.manifests && d'.manifests[id] == EmptyManifest()
  {
    var d' := Pruned(Begun(d, id), keep);
    var all := d.index.order + [id];
    var e := Excess(|all|, keep);
    BeginView(d, id, keep);
    assert Ordered(d'.manifests, all[e..])[|all| - e - 1] == EmptyManifest();
  }

  lemma PrunedPending(d: Disk, keep: nat)
    requires d.pending == []
    ensures Pruned(d, keep).pending == [] && Pruned(d, keep).transaction == d.transaction
  {
    if |d.index.order| > keep {
      NothingPending(d.index.order[..|d.index.order| - keep]);
    }
  }

  // ----- a tracked call ---------------------------------------------------------------------

  lemma {:induction false} TargetsRecord(ts: seq<Target>, paths: seq<Path>, was: Workspace, now: Workspace)
    requires |ts| == |paths|
    requires forall i | 0 <= i < |paths| :: paths[i] in was && paths[i] in now
    requires forall i | 0 <= i < |paths| :: ts[i] == Tracked(paths[i], was[paths[i]]) && !was[paths[i]].Skipped?
    requires forall i | 0 <= i < |paths| :: !now[paths[i]].Skipped?
    ensures TargetChanges(now, ts) == Delta(paths, was, now)
    ensures TargetWarnings(now, ts) == []
  {
    if paths != [] {
      var n := |paths| - 1;
      TargetsRecord(ts[..n], paths[..n], was, now);
    }
  }

  lemma FoundOnly(r: Pending)
    ensures FindPending([r], Some(r.checkpoint), r.call) == Some(r)
  {
  }

  /** The manifest of the active checkpoint after a call. */
  lemma CallRecords(d: Disk, id: Id, call: CallId, paths: seq<Path>, was: Workspace, now: Workspace, lim: Limits)
    requires id in d.manifests && call != "" && paths != [] && d.pending == []
    requires TrackedEdit(paths, was, now)
    requires Fits(was, paths, d.manifests[id], lim)
    ensures var m := d.manifests[id]; var acc := CaptureAll(was, RelativeTargets(paths), m.snapshots, m.bytes, lim);
            AfterCall(d, id, call, paths, was, now, lim) ==
            d.(blobs := d.blobs + acc.blobs,
               manifests := d.manifests[id := m.(snapshots := acc.snapshots, bytes := acc.bytes,
                 operations := m.operations + [Operation(call, Delta(paths, was, now))])])
  {
    var m := d.manifests[id];
    var acc := CaptureAll(was, RelativeTargets(paths), m.snapshots, m.bytes, lim);
    CapturedRecords(acc.targets, m, paths, was, now, lim);
    PreDiskOf(d, was, id, call, RelativeTargets(paths), lim);
    HookedDisk(d, id, call, acc, now, m.(snapshots := acc.snapshots, bytes := acc.bytes));
    AfterCallIs(d, id, call, paths, was, now, lim, acc);
  }

  lemma AfterCallIs(d: Disk, id: Id, call: CallId, paths: seq<Path>, was: Workspace, now: Workspace, lim: Limits,
                    acc: Capturing)
    requires id in d.manifests && call != "" && paths != []
    requires var d1 := PreDisk(d, was, id, call, RelativeTargets(paths), lim);
             id in d1.manifests && d1.pending == [Pending(id, call, acc.targets)]
    ensures AfterCall(d, id, call, paths, was, now, lim) ==
            PostDisk(PreDisk(d, was, id, call, RelativeTargets(paths), lim), now, Pending(id, call, acc.targets))
  {
    FoundOnly(Pending(id, call, acc.targets));
  }

  /** Both hooks together, without warnings. */
  lemma HookedDisk(d: Disk, id: Id, call: CallId, acc: Capturing, now: Workspace, m: Manifest)
    requires d.pending == [] && TargetWarnings(now, acc.targets) == []
    ensures var r := Pending(id, call, acc.targets);
            var d1 := d.(blobs := d.blobs + acc.blobs, manifests := d.manifests[id := m], pending := [r]);
            PostDisk(d1, now, r) ==
            d.(blobs := d.blobs + acc.blobs,
               manifests := d.manifests[id :=
                 m.(operations := m.operations + [Operation(call, TargetChanges(now, acc.targets))])])
  {
    var r := Pending(id, call, acc.targets);
    PostDiskOf(d.(blobs := d.blobs + acc.blobs, manifests := d.manifests[id := m], pending := [r]), now, r);
    var m' := m.(operations := m.operations + [Operation(call, TargetChanges(now, acc.targets))]);
    assert d.manifests[id := m][id := m'] == d.manifests[id := m'];
  }

  /** The hook after a call without warnings. */
  lemma PostDiskOf(d: Disk, ws: Workspace, r: Pending)
    requires d.pending == [r] && r.checkpoint in d.manifests && TargetWarnings(ws, r.targets) == []
    ensures var m := d.manifests[r.checkpoint];
            PostDisk(d, ws, r) ==
            d.(manifests := d.manifests[r.checkpoint :=
                 m.(operations := m.operations + [Operation(r.call, TargetChanges(ws, r.targets))])],
               pending := [])
  {
    WithoutOnly(r);
    Sequences.EmptyRight(d.manifests[r.checkpoint].warnings);
  }

  /** The captured pre-images turn into the changes of the edit, without warnings. */
  lemma CapturedRecords(ts: seq<Target>, m: Manifest, paths: seq<Path>, was: Workspace, now: Workspace, lim: Limits)
    requires TrackedEdit(paths, was, now) && Fits(was, paths, m, lim)
    requires ts == CaptureAll(was, RelativeTargets(paths), m.snapshots, m.bytes, lim).targets
    ensures TargetChanges(now, ts) == Delta(paths, was, now) && TargetWarnings(now, ts) == []
  {
    FitsExactly(was, paths, m.snapshots, m.bytes, lim);
    forall i | 0 <= i < |paths| ensures EditOf(was[paths[i]], now[paths[i]]) {
      assert paths[i] in paths;
    }
    TargetsRecord(ts, paths, was, now);
  }

  lemma PreDiskOf(d: Disk, ws: Workspace, id: Id, call: CallId, rs: seq<Resolved>, lim: Limits)
    requires id in d.manifests && call != "" && rs != [] && d.pending == []
    ensures var m := d.manifests[id]; var acc := CaptureAll(ws, rs, m.snapshots, m.bytes, lim);
            PreDisk(d, ws, id, call, rs, lim) ==
            d.(blobs := d.blobs + acc.blobs,
               manifests := d.manifests[id := m.(snapshots := acc.snapshots, bytes := acc.bytes)],
               pending := [Pending(id, call, acc.targets)])
  {
  }

  lemma WithoutOnly(r: Pending)
    ensures Without([r], r.checkpoint, r.call) == []
  {
    assert [r][..0] == [];
  }

  lemma CallHeld(d: Disk, id: Id, call: CallId, paths: seq<Path>, was: Workspace, now: Workspace, lim: Limits,
                 origin: map<Id, Workspace>)
    requires DiskInv(d) && d.pending == [] && HeldBy(d, was, origin) == true
    requires OpenCheckpoint(d, id, lim) && call != "" && paths != []
    requires TrackedEdit(paths, was, now)
    requires Fits(was, paths, d.manifests[id], lim)
    ensures HeldBy(AfterCall(d, id, call, paths, was, now, lim), now, origin) == true
  {
    CallRecords(d, id, call, paths, was, now, lim);
    OrderIsUsed(d);
    CalledTimeline(d, AfterCall(d, id, call, paths, was, now, lim), id, call, paths, was, now, origin);
  }

  /** The manifest of id got one more operation and no warning. */
  predicate CalledOn(d: Disk, d': Disk, id: Id, call: CallId, changes: seq<Change>) {
    && id in d.manifests && id in d'.manifests && d'.index == d.index
    && d'.manifests == d.manifests[id := d'.manifests[id]]
    && d'.manifests[id].operations == d.manifests[id].operations + [Operation(call, changes)]
    && d'.manifests[id].warnings == d.manifests[id].warnings
  }

  lemma CalledTimeline(d: Disk, d': Disk, id: Id, call: CallId, paths: seq<Path>, was: Workspace, now: Workspace,
                       origin: map<Id, Workspace>)
    requires InIndex(d) && Distinct(d.index.order) && HeldBy(d, was, origin) == true
    requires d.index.order != [] && d.index.order[|d.index.order| - 1] == id
    requires TrackedEdit(paths, was, now) && CalledOn(d, d', id, call, Delta(paths, was, now))
    ensures HeldBy(d', now, origin) == true
  {
    var order := d.index.order;
    var view := Ordered(d.manifests, order);
    CallHolds(view, was, Ordered(origin, order), call, paths, now);
    CallView(d, d', call, Delta(paths, was, now));
    SameRecordsHold(Recorded(view, call, Delta(paths, was, now)), Ordered(d'.manifests, order), now,
                    Ordered(origin, order));
  }

  /** Only the newest manifest gets the operation. */
  lemma CallView(d: Disk, d': Disk, call: CallId, changes: seq<Change>)
    requires InIndex(d) && Distinct(d.index.order) && d.index.order != []
    requires CalledOn(d, d', d.index.order[|d.index.order| - 1], call, changes)
    ensures SameRecords(Recorded(Ordered(d.manifests, d.index.order), call, changes),
                        Ordered(d'.manifests, d.index.order))
  {
    var order := d.index.order;
    forall i | 0 <= i < |order| - 1 ensures d'.manifests[order[i]] == d.manifests[order[i]] {
      assert order[i] != order[|order| - 1];
    }
  }

  lemma CallTidy(d: Disk, id: Id, call: CallId, paths: seq<Path>, was: Workspace, now: Workspace, lim: Limits)
    requires Tidy(d, Some(id), lim) && call != "" && paths != []
    requires TrackedEdit(paths, was, now)
    requires Fits(was, paths, d.manifests[id], lim)
    ensures Tidy(AfterCall(d, id, call, paths, was, now, lim), Some(id), lim) == true
  {
    CallInv(d, id, call, paths, was, now, lim);
    CallRecords(d, id, call, paths, was, now, lim);
    var m := d.manifests[id];
    FitsExactly(was, paths, m.snapshots, m.bytes, lim);
  }

  lemma CallInv(d: Disk, id: Id, call: CallId, paths: seq<Path>, was: Workspace, now: Workspace, lim: Limits)
    requires DiskInv(d) && d.transaction == None && d.pending == [] && id in d.manifests && call != "" && paths != []
    requires TrackedEdit(paths, was, now) && Fits(was, paths, d.manifests[id], lim)
    ensures DiskInv(AfterCall(d, id, call, paths, was, now, lim)) == true
  {
    var d' := AfterCall(d, id, call, paths, was, now, lim);
    var m := d.manifests[id];
    var acc := CaptureAll(was, RelativeTargets(paths), m.snapshots, m.bytes, lim);
    CallRecords(d, id, call, paths, was, now, lim);
    CapturedRecords(acc.targets, m, paths, was, now, lim);
    CallSafe(d, d', id, was, now, RelativeTargets(paths), call, lim);
  }

  // ----- finish -------------------------------------------------------------------------------

  lemma FinishHeld(d: Disk, id: Id, files: Workspace, origin: map<Id, Workspace>)
    requires d.pending == [] && id in d.manifests && HeldBy(d, files, origin)
    ensures HeldBy(Collected(Finalized(d, id)), files, origin)
  {
    var d' := Collected(Finalized(d, id));
    assert d.manifests[id].warnings + [] == d.manifests[id].warnings;
    SameRecordsHold(Ordered(d.manifests, d.index.order), Ordered(d'.manifests, d.index.order), files,
                    Ordered(origin, d.index.order));
  }

  lemma FinishTidy(d: Disk, id: Id, lim: Limits)
    requires Tidy(d, Some(id), lim)
    ensures Tidy(Collected(Finalized(d, id)), None, lim)
  {
    FinishSafe(d, id);
  }

  // ----- closing what an exit left unfinished ---------------------------------------------------

  /** Storage that differs from d only in what is marked finished. */
  predicate MarkedOnly(r: Disk, d: Disk) {
    && r.pending == d.pending && r.manifests.Keys == d.manifests.Keys
    && forall id | id in d.manifests ::
         && r.manifests[id].operations == d.manifests[id].operations
         && r.manifests[id].warnings == d.manifests[id].warnings
         && r.manifests[id].retired == d.manifests[id].retired
  }

  /** With no call open, closing a checkpoint only marks it. */
  lemma ClosedOne(d: Disk, id: Id)
    requires d.pending == [] && id in d.manifests
    ensures MarkedOnly(Finalized(d, id), d)
  {
    Sequences.EmptyRight(d.manifests[id].warnings);
  }

  lemma {:induction false} ClosedRecords(d: Disk, ids: seq<Id>)
    requires d.pending == [] && forall i | 0 <= i < |ids| :: ids[i] in d.manifests
    ensures MarkedOnly(FinalizedAll(d, ids), d)
  {
    if ids != [] {
      ClosedRecords(d, ids[..|ids| - 1]);
      ClosedOne(FinalizedAll(d, ids[..|ids| - 1]), ids[|ids| - 1]);
    }
  }

  lemma ClosedInv(d: Disk, ids: seq<Id>)
    requires DiskInv(d) && d.transaction == None && d.pending == []
    requires forall i | 0 <= i < |ids| :: ids[i] in d.manifests
    ensures DiskInv(FinalizedAll(d, ids))
  {
    var r := FinalizedAll(d, ids);
    ClosedRecords(d, ids);
    forall id | id in r.manifests ensures Covered(r.manifests[id], r.blobs) {
      assert Covered(d.manifests[id], d.blobs);
    }
  }

  lemma ClosedHeld(d: Disk, ids: seq<Id>, files: Workspace, origin: map<Id, Workspace>)
    requires d.pending == [] && HeldBy(d, files, origin)
    requires forall i | 0 <= i < |ids| :: ids[i] in d.manifests
    ensures HeldBy(FinalizedAll(d, ids), files, origin)
  {
    var r := FinalizedAll(d, ids);
    ClosedRecords(d, ids);
    SameRecordsHold(Ordered(d.manifests, d.index.order), Ordered(r.manifests, d.index.order), files,
                    Ordered(origin, d.index.order));
  }

  lemma ReopenKeeps(s: Sys, exits: seq<nat>, lim: Limits)
    requires Sound(s, lim)
    ensures Sound(s.(active := None, disk := Recovered(Recoveries(s.disk, exits))), lim)
    ensures Recovered(Recoveries(s.disk, exits)) == s.disk
  {
    NothingToRecover(s.disk, exits);
  }

  // ----- hide ---------------------------------------------------------------------------------

  /** What a fold leaves in the index: the kept manifests, the last one merged. */
  predicate FoldedInto(d': Disk, d: Disk, kept: nat)
    requires InIndex(d) && kept <= |d.index.order|
  {
    && d'.index == Index(d.index.order[..kept], d.index.used)
    && d'.pending == [] && d'.transaction == None
    && d'.manifests == Overwrite(d.manifests, FoldTransaction(d, kept).manifests)
  }

  lemma FoldView(d: Disk, kept: nat)
    requires InIndex(d) && d.pending == [] && kept < |d.index.order|
    ensures FoldedInto(FoldDisk(d, kept), Closed(d, kept), kept)
  {
    ClosedPending(d, kept);
    NothingPending(d.index.order[kept..]);
  }

  lemma ClosedPending(d: Disk, kept: nat)
    requires InIndex(d) && d.pending == [] && kept <= |d.index.order|
    ensures Closed(d, kept).pending == []
  {
    if kept > 0 { ClosedRecords(d, d.index.order[kept - 1..]); }
  }

  lemma CommittedView(c: Disk, kept: nat)
    requires InIndex(c) && c.pending == [] && kept < |c.index.order|
    ensures FoldedInto(Committed(c, FoldTransaction(c, kept)), c, kept)
  {
  }

  lemma FoldViewManifests(d: Disk, kept: nat, ms: map<Id, Manifest>, ids: seq<Id>)
    requires DiskInv(d) == true && d.transaction == None && InIndex(d)
    requires 0 < kept < |d.index.order| && ids == d.index.order[..kept]
    requires ms == Overwrite(d.manifests, FoldTransaction(d, kept).manifests)
    ensures Shown(ms, ids, Folded(Ordered(d.manifests, d.index.order), kept)) == true
  {
    var order := d.index.order;
    var view := Ordered(d.manifests, order);
    assert view[kept..] == Ordered(d.manifests, order[kept..]);
    forall i | 0 <= i < kept ensures ids[i] in ms && ms[ids[i]] == Folded(view, kept)[i] {
      FoldEntry(d, kept, i);
    }
  }

  lemma HideHeld(d: Disk, kept: nat, d': Disk, files: Workspace, origin: map<Id, Workspace>)
    requires DiskInv(d) == true && d.transaction == None && InIndex(d)
    requires kept < |d.index.order| && HeldBy(d, files, origin) == true
    requires FoldedInto(d', d, kept)
    ensures HeldBy(d', files, origin) == true
  {
    if kept == 0 {
      NothingHeld(d', files, origin);
    } else {
      FoldViewManifests(d, kept, d'.manifests, d'.index.order);
      ShownOrdered(d'.manifests, d'.index.order, Folded(Ordered(d.manifests, d.index.order), kept));
      HideTimeline(d, kept, d', files, origin);
    }
  }

  lemma NothingHeld(d: Disk, files: Workspace, origin: map<Id, Workspace>)
    requires d.index.order == []
    ensures HeldBy(d, files, origin) == true
  {
    NoHistory(files, origin);
  }

  lemma HideTimeline(d: Disk, kept: nat, d': Disk, files: Workspace, origin: map<Id, Workspace>)
    requires HeldBy(d, files, origin) == true && 0 < kept < |d.index.order|
    requires d'.index.order == d.index.order[..kept] && InIndex(d')
    requires Ordered(d'.manifests, d'.index.order) == Folded(Ordered(d.manifests, d.index.order), kept)
    ensures HeldBy(d', files, origin) == true
  {
    var order := d.index.order;
    var view := Ordered(d.manifests, order);
    FoldHolds(view, kept, files, Ordered(origin, order));
    OriginsPrefix(origin, order, kept);
    ViewHeld(d', Folded(view, kept), files, origin);
  }

  lemma ViewHeld(d': Disk, ms: seq<Manifest>, files: Workspace, origin: map<Id, Workspace>)
    requires InIndex(d') && forall i | 0 <= i < |d'.index.order| :: d'.index.order[i] in origin
    requires Ordered(d'.manifests, d'.index.order) == ms
    requires Held(ms, files, Ordered(origin, d'.index.order))
    ensures HeldBy(d', files, origin)
  {
  }

  lemma OriginsPrefix(origin: map<Id, Workspace>, order: seq<Id>, kept: nat)
    requires kept <= |order| && forall i | 0 <= i < |order| :: order[i] in origin
    ensures Ordered(origin, order[..kept]) == Ordered(origin, order)[..kept]
  {
  }

  /** The closed checkpoints are as good a timeline as the unfinished ones were. */
  lemma ClosedKeeps(d: Disk, kept: nat, files: Workspace, origin: map<Id, Workspace>)
    requires DiskInv(d) && d.transaction == None && d.pending == [] && HeldBy(d, files, origin)
    requires kept <= |d.index.order|
    ensures var c := Closed(d, kept); DiskInv(c) && c.pending == [] && HeldBy(c, files, origin)
  {
    if kept > 0 {
      var ids := d.index.order[kept - 1..];
      ClosedRecords(d, ids);
      ClosedInv(d, ids);
      ClosedHeld(d, ids, files, origin);
    }
  }

  lemma HideKeeps(d: Disk, kept: nat, cut: Option<Cut>, d': Disk, files: Workspace, origin: map<Id, Workspace>,
                  lim: Limits)
    requires Tidy(d, None, lim) && HeldBy(d, files, origin)
    requires HideStep(d, kept, cut, d')
    ensures Tidy(d', None, lim) && HeldBy(d', files, origin) && d'.index.used == d.index.used
  {
    if kept < |d.index.order| {
      var c := Closed(d, kept);
      ClosedKeeps(d, kept, files, origin);
      FoldView(d, kept);
      CommittedView(c, kept);
      FoldSafe(c, kept);
      FoldDiskIs(d, kept);
      if cut.Some? { CutIsAtomic(d', c, FoldTransaction(c, kept), FoldDisk(d, kept), cut.value); }
      if cut == None || cut.value.k > 0 { HideHeld(c, kept, d', files, origin); }
    }
  }

  lemma FoldDiskIs(d: Disk, kept: nat)
    requires InIndex(d) && d.pending == [] && kept < |d.index.order|
    ensures FoldDisk(d, kept) == Collected(Committed(Closed(d, kept), FoldTransaction(Closed(d, kept), kept)))
  {
    ClosedPending(d, kept);
    NothingPending(d.index.order[kept..]);
  }

  lemma NoHistory(files: Workspace, origin: map<Id, Workspace>)
    ensures Held([], files, [])
  {
    forall p: Path ensures HeldAt([], files, [], p) {
    }
  }

  // ----- restore ------------------------------------------------------------------------------

  lemma {:induction false} HistoryCovered(ms: seq<Manifest>, blobs: set<Digest>)
    requires AllCovered(ms, blobs)
    ensures ChangesCovered(History(ms), blobs)
  {
    if ms != [] {
      var n := |ms| - 1;
      HistoryCovered(ms[..n], blobs);
      assert Covered(ms[n], blobs);
      OpChangesCovered(ms[n].operations, blobs);
    }
  }

  lemma {:induction false} OpChangesCovered(ops: seq<Operation>, blobs: set<Digest>)
    requires OpsCovered(ops, blobs)
    ensures ChangesCovered(OpChanges(ops), blobs)
  {
    if ops != [] {
      OpChangesCovered(ops[..|ops| - 1], blobs);
    }
  }

  /** In a sound state every selected file can be brought back. */
  lemma SoundRestorable(ms: seq<Manifest>, start: nat, files: Workspace, snaps: seq<Workspace>, blobs: set<Digest>)
    requires Held(ms, files, snaps) && start <= |ms| && AllCovered(ms, blobs)
    ensures Restorable(History(ms[start..]), files, blobs)
    ensures Warnings(ms[start..]) == []
  {
    var cs := History(ms[start..]);
    HistoryCovered(ms[start..], blobs);
    assert ms == ms[..start] + ms[start..];
    HistoryConcat(ms[..start], ms[start..]);
    forall p: Path | Chain(cs, p) != []
      ensures p in files && ReadyAt(Chain(cs, p), files[p], blobs)
    {
      assert HeldAt(ms, files, snaps, p);
      ChainConcat(History(ms[..start]), cs, p);
      LinkedSuffix(Chain(History(ms[..start]), p), Chain(cs, p), files[p]);
      ChainMembers(cs, p);
      assert Chain(cs, p)[0] in cs;
      assert Captured(Chain(cs, p)[0], files[p]);
    }
  }

  /** What the commit of a complete restore leaves, cut short or not. */
  predicate LandedOn(d': Disk, d: Disk, start: nat, retain: bool, t: Tally)
    requires InIndex(d) && start <= |d.index.order|
    requires forall p | p in t.restored :: p in t.states
  {
    && d'.index == Index(if retain then d.index.order else d.index.order[..start], d.index.used)
    && d'.pending == d.pending && d'.transaction == None
    && d'.manifests == Overwrite(d.manifests, Zip(d.index.order, AdvancedManifests(d, start, retain, t, true)))
  }

  lemma Landing(d': Disk, d: Disk, start: nat, retain: bool, t: Tally, cut: Option<Cut>)
    requires InIndex(d) && start <= |d.index.order| && d.transaction == None
    requires forall p | p in t.restored :: p in t.states
    requires cut.Some? ==> cut.value.k > 0
    requires Ends(d', d, AdvanceTransaction(d, start, retain, t, true), Advanced(d, start, retain, t, true), cut)
    ensures LandedOn(d', d, start, retain, t)
  {
    if cut.Some? {
      CutIsAtomic(d', d, AdvanceTransaction(d, start, retain, t, true), Advanced(d, start, retain, t, true), cut.value);
    }
  }

  lemma LandingSafe(d': Disk, d: Disk, start: nat, retain: bool, t: Tally, cut: Option<Cut>)
    requires DiskInv(d) && start <= |d.index.order| && d.transaction == None && d.pending == []
    requires forall p | p in t.restored :: p in t.states
    requires Ends(d', d, AdvanceTransaction(d, start, retain, t, true), Advanced(d, start, retain, t, true), cut)
    ensures DiskInv(d') == true
  {
    AdvanceSafe(d, start, retain, t, true);
    if cut.Some? {
      CutIsAtomic(d', d, AdvanceTransaction(d, start, retain, t, true), Advanced(d, start, retain, t, true), cut.value);
    }
  }

  /** One manifest of the index after a complete restore: rebased, or an anchor. */
  lemma AdvancedAt(d: Disk, start: nat, retain: bool, t: Tally, i: nat)
    requires InIndex(d) && Distinct(d.index.order) && start <= |d.index.order|
    requires forall p | p in t.restored :: p in t.states
    requires i < |d.index.order| && (i < start || retain)
    ensures var after := Overwrite(d.manifests, Zip(d.index.order, AdvancedManifests(d, start, retain, t, true)));
            && d.index.order[i] in after
            && after[d.index.order[i]] == if i < start then Rebased(d, start, t)[i] else AnchorManifest()
  {
    OverwriteZip(d.manifests, d.index.order, AdvancedManifests(d, start, retain, t, true), i);
  }

  /** The index after a complete restore, in order. */
  function Remaining(d: Disk, start: nat, retain: bool, t: Tally): (r: seq<Manifest>)
    requires InIndex(d) && start <= |d.index.order|
    requires forall p | p in t.restored :: p in t.states
  {
    Rebased(d, start, t) + (if retain then Copies(AnchorManifest(), |d.index.order| - start) else [])
  }

  lemma AdvancedView(d: Disk, start: nat, retain: bool, t: Tally, ms: map<Id, Manifest>, ids: seq<Id>)
    requires InIndex(d) && Distinct(d.index.order) && start <= |d.index.order|
    requires forall p | p in t.restored :: p in t.states
    requires ids == if retain then d.index.order else d.index.order[..start]
    requires ms == Overwrite(d.manifests, Zip(d.index.order, AdvancedManifests(d, start, retain, t, true)))
    ensures Shown(ms, ids, Remaining(d, start, retain, t))
  {
    forall i | 0 <= i < |ids| ensures ids[i] in ms && ms[ids[i]] == Remaining(d, start, retain, t)[i] {
      AdvancedAt(d, start, retain, t, i);
    }
  }

  function Rebased(d: Disk, start: nat, t: Tally): (r: seq<Manifest>)
    requires InIndex(d) && start <= |d.index.order|
    requires forall p | p in t.restored :: p in t.states
    ensures |r| == start
  {
    RebaseAll(Ordered(d.manifests, d.index.order[..start]), t.restored, t.states)
  }

  lemma {:induction false} AnchoredIsCopies(ms: seq<Manifest>, n: nat)
    ensures Anchored(ms, n) == ms + Copies(AnchorManifest(), n)
  {
    if n > 0 {
      AnchoredIsCopies(ms, n - 1);
    }
  }

  lemma {:induction false} RepeatedAt(snaps: seq<Workspace>, ws: Workspace, n: nat)
    ensures |Repeated(snaps, ws, n)| == |snaps| + n
    ensures forall i | 0 <= i < |snaps| + n :: Repeated(snaps, ws, n)[i] == if i < |snaps| then snaps[i] else ws
  {
    if n > 0 {
      RepeatedAt(snaps, ws, n - 1);
    }
  }

  lemma RestoredHeld(d: Disk, start: nat, t: Tally, files: Workspace, files': Workspace, origin: map<Id, Workspace>)
    requires start <= |d.index.order| && InIndex(d) && HeldBy(d, files, origin) == true
    requires FullRestore(Ordered(d.manifests, d.index.order), start, files, t.restored, t.states, files')
    ensures Held(Rebased(d, start, t), files', Ordered(origin, d.index.order)[..start]) == true
  {
    var view := Ordered(d.manifests, d.index.order);
    assert Ordered(d.manifests, d.index.order[..start]) == view[..start];
    RestoreHolds(view, start, files, Ordered(origin, d.index.order), t.restored, t.states, files');
  }

  lemma RemainingHeld(rebased: seq<Manifest>, order: seq<Id>, start: nat, retain: bool, files': Workspace,
                      origin: map<Id, Workspace>, origin': map<Id, Workspace>, ids: seq<Id>)
    requires start <= |order| && Distinct(order)
    requires forall i | 0 <= i < |order| :: order[i] in origin
    requires Held(rebased, files', Ordered(origin, order)[..start]) == true
    requires ids == if retain then order else order[..start]
    requires origin' == if retain then Reanchored(origin, order[start..], files') else origin
    ensures forall i | 0 <= i < |ids| :: ids[i] in origin'
    ensures Held(rebased + if retain then Copies(AnchorManifest(), |order| - start) else [],
                 files', Ordered(origin', ids))
  {
    if retain {
      RetainedHeld(rebased, order, start, files', origin);
    } else {
      OriginsPrefix(origin, order, start);
      Sequences.EmptyRight(rebased);
    }
  }

  /** Behind the rebased checkpoints, anchors that begin with the restored files. */
  lemma RetainedHeld(ms: seq<Manifest>, order: seq<Id>, start: nat, files: Workspace, origin: map<Id, Workspace>)
    requires start <= |order| && Distinct(order)
    requires forall i | 0 <= i < |order| :: order[i] in origin
    requires Held(ms, files, Ordered(origin, order)[..start])
    ensures var o := Reanchored(origin, order[start..], files);
            && (forall i | 0 <= i < |order| :: order[i] in o)
            && Held(ms + Copies(AnchorManifest(), |order| - start), files, Ordered(o, order))
  {
    AnchoredHeld(ms, files, Ordered(origin, order)[..start], |order| - start);
    OriginsReanchored(order, start, origin, files);
  }

  /** The committed storage holds exactly that. */
  lemma RestoredView(d': Disk, ms: seq<Manifest>, files': Workspace, origin': map<Id, Workspace>)
    requires Shown(d'.manifests, d'.index.order, ms)
    requires forall i | 0 <= i < |d'.index.order| :: d'.index.order[i] in origin'
    requires Held(ms, files', Ordered(origin', d'.index.order))
    ensures HeldBy(d', files', origin')
  {
    ShownOrdered(d'.manifests, d'.index.order, ms);
  }

  lemma AnchoredHeld(ms: seq<Manifest>, files: Workspace, snaps: seq<Workspace>, n: nat)
    requires Held(ms, files, snaps)
    ensures Held(ms + Copies(AnchorManifest(), n), files, Repeated(snaps, files, n))
  {
    AnchorsHold(ms, files, snaps, n);
    AnchoredIsCopies(ms, n);
  }

  lemma OriginsReanchored(order: seq<Id>, start: nat, origin: map<Id, Workspace>, files: Workspace)
    requires start <= |order| && forall i, j | 0 <= i < start <= j < |order| :: order[i] != order[j]
    requires forall i | 0 <= i < |order| :: order[i] in origin
    ensures var o := Reanchored(origin, order[start..], files);
            && (forall i | 0 <= i < |order| :: order[i] in o)
            && Ordered(o, order) == Repeated(Ordered(origin, order)[..start], files, |order| - start)
  {
    RepeatedAt(Ordered(origin, order)[..start], files, |order| - start);
    var o := Reanchored(origin, order[start..], files);
    forall i | 0 <= i < |order|
      ensures o[order[i]] == if i < start then origin[order[i]] else files
    {
      if i >= start { assert order[start..][i - start] == order[i]; }
    }
  }

  /** A quiet restore of a sound store is clean and complete. */
  lemma QuietIsComplete(d: Disk, start: nat, files: Workspace, origin: map<Id, Workspace>, tried: seq<Deed>,
                        deeds: seq<Deed>, tally: Tally, clean: bool, files': Workspace)
    requires DiskInv(d) && start <= |d.index.order| && HeldBy(d, files, origin) && Tried(d, start, files, tried)
    requires FileOutcome(d, start, true, Replayed(files, tried), deeds, tally, clean, files')
    ensures clean && tally.skipped == []
    ensures FullRestore(Ordered(d.manifests, d.index.order), start, files, tally.restored, tally.states, files')
  {
    var view := Ordered(d.manifests, d.index.order);
    var ms := Ordered(d.manifests, d.index.order[start..]);
    assert ms == view[start..];
    SelectedRestorable(d, start, files, origin);
    QuietIsFull(History(ms), Warnings(ms), files, d.blobs, tried, tally, files');
  }

  lemma SelectedRestorable(d: Disk, start: nat, files: Workspace, origin: map<Id, Workspace>)
    requires DiskInv(d) && start <= |d.index.order| && HeldBy(d, files, origin)
    ensures var ms := Ordered(d.manifests, d.index.order[start..]);
            Restorable(History(ms), files, d.blobs) && Warnings(ms) == []
  {
    var view := Ordered(d.manifests, d.index.order);
    OrderedCovered(d, d.index.order);
    SoundRestorable(view, start, files, Ordered(origin, d.index.order), d.blobs);
    assert Ordered(d.manifests, d.index.order[start..]) == view[start..];
  }

  lemma QuietIsFull(cs: seq<Change>, ws: seq<Warning>, files: Workspace, blobs: set<Digest>, tried: seq<Deed>,
                    t: Tally, now: Workspace)
    requires Restorable(cs, files, blobs) && ws == []
    requires OnlyOwn(tried) && CasSafe(files, tried, cs, ws)
    requires FatesMet(cs, ws, Replayed(files, tried), blobs, t, now) && Accounted(cs, ws, t)
    requires forall p | p in t.skipped :: Warned(ws, p) || Chain(cs, p) != []
    ensures t.skipped == [] && FullRestoreOf(cs, files, t.restored, t.states, now)
  {
    ExitLeavesPartly(cs, ws, files, blobs, tried, |tried|);
    Sequences.Whole(tried);
    PartlyRestorable(cs, files, Replayed(files, tried), blobs);
    NothingSkipped(cs, ws, Replayed(files, tried), blobs, t, now);
    FullFromPartly(cs, files, Replayed(files, tried), t.restored, t.states, now);
  }

  lemma NothingSkipped(cs: seq<Change>, ws: seq<Warning>, was: Workspace, blobs: set<Digest>, t: Tally, now: Workspace)
    requires FatesMet(cs, ws, was, blobs, t, now) && Accounted(cs, ws, t)
    requires ws == [] && Restorable(cs, was, blobs)
    requires forall p | p in t.skipped :: Warned(ws, p) || Chain(cs, p) != []
    ensures t.skipped == [] && FullRestoreOf(cs, was, t.restored, t.states, now)
  {
    FullFromFates(cs, ws, was, blobs, t, now);
    if t.skipped != [] { HasMember(t.skipped); }
  }

  lemma HasMember(s: seq<Path>)
    requires s != []
    ensures exists p :: p in s
  {
    assert s[0] in s;
  }

  /** Storage a restore can work on. */
  ghost predicate Workable(d: Disk, files: Workspace, origin: map<Id, Workspace>) {
    DiskInv(d) && d.transaction == None && d.pending == [] && HeldBy(d, files, origin)
  }

  lemma ClosedWorkable(d: Disk, ids: seq<Id>, files: Workspace, origin: map<Id, Workspace>)
    requires Workable(d, files, origin)
    requires forall i | 0 <= i < |ids| :: ids[i] in d.manifests
    ensures Workable(FinalizedAll(d, ids), files, origin)
  {
    ClosedRecords(d, ids);
    ClosedInv(d, ids);
    ClosedHeld(d, ids, files, origin);
  }

  /** Everything a restore reaches on storage without unfinished checkpoints. */
  lemma RestoreLands(d: Disk, start: nat, retain: bool, files: Workspace, origin: map<Id, Workspace>,
                     tried: seq<Deed>, deeds: seq<Deed>, tally: Tally, clean: bool, cut: Option<Cut>,
                     files': Workspace, d': Disk)
    requires Workable(d, files, origin) && start <= |d.index.order| && Tried(d, start, files, tried)
    requires FileOutcome(d, start, true, Replayed(files, tried), deeds, tally, clean, files')
    requires cut.Some? ==> cut.value.k > 0
    requires Ends(d', d, AdvanceTransaction(d, start, retain, tally, clean),
                  Advanced(d, start, retain, tally, clean), cut)
    ensures clean && tally.skipped == []
    ensures FullRestore(Ordered(d.manifests, d.index.order), start, files, tally.restored, tally.states, files')
    ensures LandedOn(d', d, start, retain, tally) && DiskInv(d') == true
    ensures start < |d.index.order| ==> BackTo(files', origin[d.index.order[start]])
  {
    QuietIsComplete(d, start, files, origin, tried, deeds, tally, clean, files');
    Landing(d', d, start, retain, tally, cut);
    LandingSafe(d', d, start, retain, tally, cut);
    if start < |d.index.order| {
      OriginReached(d, start, files, origin, tally, files');
    }
  }

  /** The undo theorem for one step of a sound run. */
  lemma RestoreReaches(d: Disk, start: nat, retain: bool, files: Workspace, origin: map<Id, Workspace>,
                       tried: seq<Deed>, deeds: seq<Deed>, tally: Tally, clean: bool, cut: Option<Cut>,
                       files': Workspace, d': Disk, origin': map<Id, Workspace>)
    requires Workable(d, files, origin) && start <= |d.index.order|
    requires RestoreOn(d, start, retain, files, origin, tried, deeds, tally, clean, cut, files', d', origin')
    ensures clean && tally.skipped == []
    ensures start < |d.index.order| ==> BackTo(files', origin[d.index.order[start]])
    ensures HeldBy(d', files', origin') && DiskInv(d') == true
    ensures d'.pending == [] && d'.transaction == None && d'.index.used == d.index.used
  {
    RestoreLands(d, start, retain, files, origin, tried, deeds, tally, clean, cut, files', d');
    OrderIsUsed(d);
    AdvancedView(d, start, retain, tally, d'.manifests, d'.index.order);
    RestoreLineage(d, start, retain, tally, files, origin, d', files', origin');
  }

  lemma SoundWorkable(s: Sys, lim: Limits)
    requires Sound(s, lim)
    ensures Workable(s.disk, s.files, s.origin)
  {
  }

  lemma SelectionWorkable(s: Sys, start: nat, lim: Limits)
    requires Sound(s, lim) && start <= |s.disk.index.order|
    ensures Workable(Selected(s.disk, start), s.files, s.origin)
  {
    SoundWorkable(s, lim);
    ClosedWorkable(s.disk, s.disk.index.order[start..], s.files, s.origin);
  }

  lemma OriginReached(d: Disk, start: nat, files: Workspace, origin: map<Id, Workspace>, tally: Tally,
                      files': Workspace)
    requires start < |d.index.order| && HeldBy(d, files, origin)
    requires FullRestore(Ordered(d.manifests, d.index.order), start, files, tally.restored, tally.states, files')
    ensures BackTo(files', origin[d.index.order[start]])
  {
    UndoReaches(Ordered(d.manifests, d.index.order), start, files, Ordered(origin, d.index.order),
                tally.restored, tally.states, files');
  }

  /** The same files, every image the same up to inode. */
  predicate BackTo(now: Workspace, begun: Workspace) {
    now.Keys == begun.Keys && forall p | p in now :: SameOrUntouched(now[p], begun[p])
  }

  /** What a complete restore leaves is a timeline again. */
  lemma RestoreLineage(d: Disk, start: nat, retain: bool, tally: Tally, files: Workspace, origin: map<Id, Workspace>,
                       d': Disk, files': Workspace, origin': map<Id, Workspace>)
    requires InIndex(d) && HeldBy(d, files, origin) == true && start <= |d.index.order|
    requires FullRestore(Ordered(d.manifests, d.index.order), start, files, tally.restored, tally.states, files')
    requires Distinct(d.index.order) && d'.index.order == if retain then d.index.order else d.index.order[..start]
    requires Shown(d'.manifests, d'.index.order, Remaining(d, start, retain, tally)) == true
    requires origin' == if retain then Reanchored(origin, d.index.order[start..], files') else origin
    ensures HeldBy(d', files', origin') == true
  {
    RestoredHeld(d, start, tally, files, files', origin);
    RemainingView(Rebased(d, start, tally), d.index.order, start, retain, files', origin, origin', d');
  }

  lemma RemainingView(rebased: seq<Manifest>, order: seq<Id>, start: nat, retain: bool, files': Workspace,
                      origin: map<Id, Workspace>, origin': map<Id, Workspace>, d': Disk)
    requires start <= |order| && Distinct(order)
    requires forall i | 0 <= i < |order| :: order[i] in origin
    requires Held(rebased, files', Ordered(origin, order)[..start]) == true
    requires d'.index.order == if retain then order else order[..start]
    requires origin' == if retain then Reanchored(origin, order[start..], files') else origin
    requires Shown(d'.manifests, d'.index.order,
                   rebased + if retain then Copies(AnchorManifest(), |order| - start) else []) == true
    ensures HeldBy(d', files', origin') == true
  {
    var ms := rebased + if retain then Copies(AnchorManifest(), |order| - start) else [];
    RemainingHeld(rebased, order, start, retain, files', origin, origin', d'.index.order);
    RestoredView(d', ms, files', origin');
  }

  /** What a restore of a sound store comes to. */
  ghost predicate Restored(s: Sys, start: nat, e: Event, s': Sys)
    requires e.Restore? && start <= |s.disk.index.order|
  {
    && e.clean && e.tally.skipped == []
    && (start < |s.disk.index.order| ==> BackFrom(s, start, s'.files))
    && HeldBy(s'.disk, s'.files, s'.origin) && DiskInv(s'.disk)
    && s'.disk.pending == [] && s'.disk.transaction == None && s'.disk.index.used == s.disk.index.used
  }

  /** Predicates compared with `true` are handed over whole; the verifier need not take them apart. */
  lemma RestoreApplied(d: Disk, s: Sys, start: nat, e: Event, s': Sys)
    requires e.Restore? && start <= |s.disk.index.order| && d.index == s.disk.index && InIndex(d)
    requires Workable(d, s.files, s.origin) == true
    requires RestoreOn(d, start, e.retainTarget, s.files, s.origin, e.tried, e.deeds, e.tally, e.clean, e.cut,
                       s'.files, s'.disk, s'.origin) == true
    ensures Restored(s, start, e, s')
  {
    RestoreReaches(d, start, e.retainTarget, s.files, s.origin, e.tried, e.deeds, e.tally, e.clean, e.cut,
                   s'.files, s'.disk, s'.origin);
  }

  lemma RestoreClosed(s: Sys, start: nat, e: Event, s': Sys)
    requires e.Restore? && InIndex(s.disk) && start <= |s.disk.index.order|
    requires Workable(Selected(s.disk, start), s.files, s.origin) == true
    requires RestoreStep(s, start, e, s')
    ensures Restored(s, start, e, s') == true
  {
    RestoreApplied(Selected(s.disk, start), s, start, e, s');
  }

  predicate BackFrom(s: Sys, start: nat, files: Workspace)
    requires start < |s.disk.index.order|
  {
    s.disk.index.order[start] in s.origin && BackTo(files, s.origin[s.disk.index.order[start]])
  }

  lemma RestoreSound(s: Sys, start: nat, retain: bool, s': Sys, lim: Limits)
    requires Sound(s, lim) == true && start <= |s.disk.index.order| && DiskInv(s'.disk) == true
    requires HeldBy(s'.disk, s'.files, s'.origin) == true && s'.active == None
    requires s'.origin == if retain then Reanchored(s.origin, s.disk.index.order[start..], s'.files) else s.origin
    requires s'.disk.pending == [] && s'.disk.transaction == None && s'.disk.index.used == s.disk.index.used
    ensures Sound(s', lim)
  {
    OrderIsUsed(s.disk);
    forall id | id in s'.origin ensures id in s'.disk.index.used {
      if id in s.disk.index.order[start..] { assert id in s.disk.index.order; }
    }
  }

  lemma RestoreKeeps(s: Sys, start: nat, e: Event, s': Sys, lim: Limits)
    requires Sound(s, lim) == true && e.Restore? && start <= |s.disk.index.order|
    requires Restored(s, start, e, s') == true && s'.active == None
    requires s'.origin ==
             if e.retainTarget then Reanchored(s.origin, s.disk.index.order[start..], s'.files) else s.origin
    ensures Sound(s', lim)
  {
    RestoreSound(s, start, e.retainTarget, s', lim);
  }

  lemma BeginKeeps(s: Sys, id: Id, s': Sys, lim: Limits)
    requires Sound(s, lim) == true && Step(s, Begin(id), s', lim) == true
    ensures Sound(s', lim) && s.disk.index.used <= s'.disk.index.used
  {
    BeginHeld(s.disk, id, lim.checkpoints, s.files, s.origin);
    BeginTidy(s.disk, id, lim);
    BeginView(s.disk, id, lim.checkpoints);
  }

  lemma CallKeeps(s: Sys, call: CallId, paths: seq<Path>, s': Sys, lim: Limits)
    requires Sound(s, lim) == true && Step(s, Call(call, paths), s', lim) == true
    ensures Sound(s', lim) && s'.disk.index.used == s.disk.index.used
  {
    CallHeld(s.disk, s.active.value, call, paths, s.files, s'.files, lim, s.origin);
    CallTidy(s.disk, s.active.value, call, paths, s.files, s'.files, lim);
    CallRecords(s.disk, s.active.value, call, paths, s.files, s'.files, lim);
  }

  lemma StepKeeps(s: Sys, e: Event, s': Sys, lim: Limits)
    requires Sound(s, lim) == true && Step(s, e, s', lim) == true
    ensures Sound(s', lim) == true
    ensures s.disk.index.used <= s'.disk.index.used
  {
    match e {
      case Begin(id) =>
        BeginKeeps(s, id, s', lim);
      case Call(call, paths) =>
        CallKeeps(s, call, paths, s', lim);
      case Finish(id) =>
        FinishHeld(s.disk, id, s.files, s.origin);
        FinishTidy(s.disk, id, lim);
      case Restore(id, includeTarget, _, _, _, _, _, _) =>
        var start := StartOf(s.disk.index.order, id, includeTarget);
        SelectionWorkable(s, start, lim);
        RestoreClosed(s, start, e, s');
        RestoreKeeps(s, start, e, s', lim);
      case Hide(visible, cut) =>
        var k: nat :| VisiblePrefix(s.disk.index.order, visible, k) && HideStep(s.disk, k, cut, s'.disk);
        HideKeeps(s.disk, k, cut, s'.disk, s.files, s.origin, lim);
      case Reopen(exits) =>
        ReopenKeeps(s, exits, lim);
    }
  }

  // ----- whole runs ------------------------------------------------------------------------------

  predicate Initial(s: Sys, files: Workspace) {
    s == Sys(Disk(Index([], []), map[], [], {}, None), None, files, map[])
  }

  ghost predicate StepAt(states: seq<Sys>, events: seq<Event>, lim: Limits, i: nat)
    requires i < |events| < |states|
  {
    Step(states[i], events[i], states[i + 1], lim)
  }

  ghost predicate IsRun(states: seq<Sys>, events: seq<Event>, lim: Limits) {
    && lim.checkpoints >= 1
    && |states| == |events| + 1
    && Initial(states[0], states[0].files)
    && forall i | 0 <= i < |events| :: StepAt(states, events, lim, i)
  }

  lemma InitialSound(s: Sys, lim: Limits)
    requires Initial(s, s.files) && lim.checkpoints >= 1
    ensures Sound(s, lim) == true
  {
    NoHistory(s.files, s.origin);
  }

  lemma RunStep(states: seq<Sys>, events: seq<Event>, lim: Limits, i: nat)
    requires IsRun(states, events, lim) == true && i < |events| && |states| == |events| + 1
    ensures Step(states[i], events[i], states[i + 1], lim) == true
  {
    assert StepAt(states, events, lim, i);
  }

  lemma RunNext(states: seq<Sys>, events: seq<Event>, lim: Limits, i: nat)
    requires IsRun(states, events, lim) == true && i < |events| && |states| == |events| + 1
    requires Sound(states[i], lim) == true
    ensures Sound(states[i + 1], lim) == true
  {
    RunStep(states, events, lim, i);
    StepKeeps(states[i], events[i], states[i + 1], lim);
  }

  lemma RunBegins(states: seq<Sys>, events: seq<Event>, lim: Limits)
    requires IsRun(states, events, lim) == true && |states| > 0
    ensures Sound(states[0], lim) == true
  {
    InitialSound(states[0], lim);
  }

  lemma {:induction false} RunSound(states: seq<Sys>, events: seq<Event>, lim: Limits, k: nat)
    requires IsRun(states, events, lim) == true && k <= |events| && |states| == |events| + 1
    ensures Sound(states[k], lim) == true
  {
    if k == 0 {
      RunBegins(states, events, lim);
    } else {
      var i := k - 1;
      RunSound(states, events, lim, i);
      RunNext(states, events, lim, i);
    }
  }

  /** A code-only restore that selects the checkpoint moves its start to the restored files. */
  predicate MovesOrigin(s: Sys, e: Event, id: Id) {
    && e.Restore? && e.retainTarget && e.id in s.disk.index.order
    && id in s.disk.index.order[StartOf(s.disk.index.order, e.id, e.includeTarget)..]
  }

  /** The origins after an event. */
  function OriginAfter(s: Sys, e: Event, files: Workspace): map<Id, Workspace> {
    match e
    case Begin(id) => s.origin[id := s.files]
    case Restore(id, includeTarget, true, _, _, _, _, _) =>
      if id in s.disk.index.order
      then Reanchored(s.origin, s.disk.index.order[StartOf(s.disk.index.order, id, includeTarget)..], files)
      else s.origin
    case _ => s.origin
  }

  lemma StepOrigin(s: Sys, e: Event, s': Sys, lim: Limits)
    requires Step(s, e, s', lim) == true
    ensures s'.origin == OriginAfter(s, e, s'.files)
    ensures e.Begin? ==> e.id !in s.disk.index.used
  {
  }

  lemma OriginElsewhere(s: Sys, e: Event, files: Workspace, id: Id)
    requires id in s.origin && id in s.disk.index.used && !MovesOrigin(s, e, id)
    requires e.Begin? ==> e.id !in s.disk.index.used
    ensures id in OriginAfter(s, e, files) && OriginAfter(s, e, files)[id] == s.origin[id]
  {
  }

  lemma OriginNext(s: Sys, e: Event, s': Sys, lim: Limits, id: Id)
    requires Step(s, e, s', lim) == true
    requires id in s.origin && id in s.disk.index.used && !MovesOrigin(s, e, id)
    ensures id in s'.origin && s'.origin[id] == s.origin[id]
  {
    StepOrigin(s, e, s', lim);
    OriginElsewhere(s, e, s'.files, id);
  }

  lemma OriginFirst(states: seq<Sys>, events: seq<Event>, lim: Limits, id: Id, i: nat)
    requires IsRun(states, events, lim) == true && i < |events| && |states| == |events| + 1
    requires events[i] == Begin(id)
    ensures id in states[i + 1].origin && states[i + 1].origin[id] == states[i].files
  {
    RunStep(states, events, lim, i);
    BeginRecords(states[i], id, states[i + 1], lim);
  }

  lemma OriginOn(states: seq<Sys>, events: seq<Event>, lim: Limits, id: Id, i: nat)
    requires IsRun(states, events, lim) == true && i < |events| && |states| == |events| + 1
    requires id in states[i].origin && !MovesOrigin(states[i], events[i], id)
    ensures id in states[i + 1].origin && states[i + 1].origin[id] == states[i].origin[id]
  {
    RunSound(states, events, lim, i);
    OriginUsed(states[i], lim, id);
    RunStep(states, events, lim, i);
    OriginNext(states[i], events[i], states[i + 1], lim, id);
  }

  lemma {:induction false} OriginStays(states: seq<Sys>, events: seq<Event>, lim: Limits, id: Id, i: nat, j: nat)
    requires IsRun(states, events, lim) == true && i < j <= |events| && |states| == |events| + 1
    requires events[i] == Begin(id)
    requires forall m | i < m < j :: !MovesOrigin(states[m], events[m], id)
    ensures id in states[j].origin && states[j].origin[id] == states[i].files
  {
    if j == i + 1 {
      OriginFirst(states, events, lim, id, i);
    } else {
      OriginStays(states, events, lim, id, i, j - 1);
      OriginOn(states, events, lim, id, j - 1);
    }
  }

  lemma OriginUsed(s: Sys, lim: Limits, id: Id)
    requires Sound(s, lim) == true && id in s.origin
    ensures id in s.disk.index.used
  {
  }

  lemma BeginRecords(s: Sys, id: Id, s': Sys, lim: Limits)
    requires Step(s, Begin(id), s', lim) == true
    ensures id in s'.origin && s'.origin[id] == s.files
  {
  }

  /** The undo theorem.  In every run of begins, tracked calls, finishes, restores, code-only
      restores, branch cuts and process exits, restoring a checkpoint skips nothing and brings
      every file back to what it was when that checkpoint began, up to inode. */
  lemma UndoTheorem(states: seq<Sys>, events: seq<Event>, lim: Limits, id: Id, i: nat, j: nat)
    requires IsRun(states, events, lim) && i < j < |events|
    requires events[i] == Begin(id)
    requires events[j].Restore? && events[j].id == id && events[j].includeTarget
    requires forall m | i < m < j :: !MovesOrigin(states[m], events[m], id)
    ensures events[j].clean && events[j].tally.skipped == []
    ensures BackTo(states[j + 1].files, states[i].files)
  {
    RunSound(states, events, lim, j);
    OriginStays(states, events, lim, id, i, j);
    var s, e := states[j], events[j];
    RunStep(states, events, lim, j);
    var start := StartOf(s.disk.index.order, id, true);
    StartWithin(s.disk.index.order, id, true);
    SelectionWorkable(s, start, lim);
    RestoreClosed(s, start, e, states[j + 1]);
  }

  // ----- the store performs exactly these steps --------------------------------------------------

  ghost predicate Shows(store: Store, files: Files, s: Sys)
    reads store, files
  {
    && store.Valid() && files.Valid() && files.quiet
    && s.disk == store.disk && s.active == store.active && s.files == files.states
  }

  method PerformBegin(store: Store, files: Files, id: Id, ghost s: Sys) returns (ok: bool, ghost s': Sys)
    requires Shows(store, files, s)
    modifies store
    ensures ok ==> Step(s, Begin(id), s', store.limits) && Shows(store, files, s')
  {
    ok := store.Begin(id);
    s' := Sys(store.disk, store.active, files.states, s.origin[id := s.files]);
  }

  method PerformFinish(store: Store, files: Files, id: Id, ghost s: Sys) returns (ok: bool, ghost s': Sys)
    requires Shows(store, files, s)
    modifies store
    ensures ok ==> Step(s, Finish(id), s', store.limits) && Shows(store, files, s')
  {
    ok := store.Finish(id);
    s' := s.(disk := store.disk, active := store.active);
  }

  method PerformHide(store: Store, files: Files, visible: set<Id>, ghost s: Sys) returns (ok: bool, ghost s': Sys)
    requires Shows(store, files, s)
    modifies store
    ensures ok ==> Step(s, Hide(visible, None), s', store.limits) && Shows(store, files, s')
  {
    ok := store.ReconcileVisible(visible);
    s' := s.(disk := store.disk);
  }

  /** Another process opens what was left on disk. */
  method PerformReopen(store: Store, files: Files, ghost s: Sys) returns (reopened: Store, ghost s': Sys)
    requires Shows(store, files, s)
    ensures reopened.limits == store.limits
    ensures Step(s, Reopen([]), s', store.limits) && Shows(reopened, files, s')
  {
    reopened := new Store.Reopen(store.limits, store.disk);
    s' := s.(active := None, disk := reopened.disk);
  }

  /** A restore at the first attempt. */
  lemma OnceOn(d: Disk, start: nat, retain: bool, files: Workspace, origin: map<Id, Workspace>, deeds: seq<Deed>,
               tally: Tally, clean: bool, files': Workspace, d': Disk, origin': map<Id, Workspace>)
    requires InIndex(d) && start <= |d.index.order|
    requires FileOutcome(d, start, true, Replayed(files, []), deeds, tally, clean, files') == true
    requires d' == Advanced(d, start, retain, tally, clean)
    requires origin' == if retain then Reanchored(origin, d.index.order[start..], files') else origin
    ensures RestoreOn(d, start, retain, files, origin, [], deeds, tally, clean, None, files', d', origin') == true
  {
    TriedNothing(d, start, files);
    WentThrough(d', d, AdvanceTransaction(d, start, retain, tally, clean));
  }

  lemma TriedNothing(d: Disk, start: nat, files: Workspace)
    requires InIndex(d) && start <= |d.index.order|
    ensures Tried(d, start, files, []) == true
  {
  }

  lemma WentThrough(d': Disk, d: Disk, t: Transaction)
    ensures Ends(d', d, t, d', None) == true
  {
  }

  lemma FromHere(d: Disk, start: nat, files: Workspace, deeds: seq<Deed>, tally: Tally, clean: bool, files': Workspace)
    requires FileOutcome(d, start, true, files, deeds, tally, clean, files') == true
    ensures FileOutcome(d, start, true, Replayed(files, []), deeds, tally, clean, files') == true
  {
    assert Replayed(files, []) == files;
  }

  lemma RestoredAtOnce(s: Sys, start: nat, e: Event, s': Sys)
    requires e.Restore? && e.tried == [] && e.cut == None && InIndex(s.disk) && start <= |s.disk.index.order|
    requires var d := Selected(s.disk, start);
             && FileOutcome(d, start, true, s.files, e.deeds, e.tally, e.clean, s'.files) == true
             && s'.disk == Advanced(d, start, e.retainTarget, e.tally, e.clean)
    requires s'.active == None
    requires s'.origin ==
             if e.retainTarget then Reanchored(s.origin, s.disk.index.order[start..], s'.files) else s.origin
    ensures RestoreStep(s, start, e, s') == true
  {
    FromHere(Selected(s.disk, start), start, s.files, e.deeds, e.tally, e.clean, s'.files);
    OnceOn(Selected(s.disk, start), start, e.retainTarget, s.files, s.origin, e.deeds, e.tally, e.clean,
           s'.files, s'.disk, s'.origin);
  }

  method PerformRestore(store: Store, files: Files, id: Id, includeTarget: bool, retain: bool, ghost s: Sys)
    returns (ok: bool, ghost e: Event, ghost s': Sys)
    requires Shows(store, files, s)
    modifies store, files
    ensures ok ==> e.Restore? && e.id == id && e.includeTarget == includeTarget && e.retainTarget == retain
    ensures ok ==> e.tried == [] && e.cut == None
    ensures ok ==> Step(s, e, s', store.limits) && Shows(store, files, s')
  {
    var tally, clean;
    ok, tally, clean := store.Restore(files, id, includeTarget, retain);
    e := Restore(id, includeTarget, retain, [], tally, clean, files.deeds[|old(files.deeds)|..], None);
    if ok {
      var start := StartOf(s.disk.index.order, id, includeTarget);
      s' := Sys(store.disk, store.active, files.states,
                if retain then Reanchored(s.origin, s.disk.index.order[start..], files.states) else s.origin);
      RestoredAtOnce(s, start, e, s');
    } else {
      s' := s;
    }
  }

  /** Both hooks and the edit between them. */
  lemma CalledStep(s: Sys, call: CallId, paths: seq<Path>, edited: Workspace, lim: Limits, called: Disk, d: Disk)
    requires InIndex(s.disk) && s.active.Some? && call != "" && paths != [] && s.active.value in s.disk.manifests
    requires TrackedEdit(paths, s.files, edited) == true && Fits(s.files, paths, s.disk.manifests[s.active.value], lim)
    requires called == PreDisk(s.disk, s.files, s.active.value, call, RelativeTargets(paths), lim)
    requires var r := FindPending(called.pending, s.active, call);
             d == if call == "" || r == None || r.value.checkpoint !in called.manifests then called
                  else PostDisk(called, edited, r.value)
    ensures Step(s, Call(call, paths), s.(disk := d, files := edited), lim) == true
  {
  }

  /** tool:pre, then the tool writes the edited files, then tool:post. */
  method PerformCall(store: Store, files: Files, call: CallId, paths: seq<Path>, edited: Workspace, ghost s: Sys)
    returns (ghost s': Sys)
    requires Shows(store, files, s)
    requires s.active.Some? && call != "" && paths != []
    requires s.active.value in s.disk.manifests
    requires TrackedEdit(paths, files.states, edited) == true
    requires Fits(files.states, paths, s.disk.manifests[s.active.value], store.limits)
    modifies store, files
    ensures Step(s, Call(call, paths), s', store.limits) == true && Shows(store, files, s')
  {
    store.HandlePre(files.states, call, RelativeTargets(paths));
    ghost var called := store.disk;
    files.states, files.deeds := edited, files.deeds + [Foreign(edited)];
    store.HandleAfter(files.states, call);
    s' := s.(disk := store.disk, files := files.states);
    CalledStep(s, call, paths, edited, store.limits, called, store.disk);
  }
}
