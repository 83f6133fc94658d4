/** The checkpoint store object: its active checkpoint and durable storage, updated
    one durable write at a time. */
module CheckpointStore {
  import opened Collections
  import Sequences
  import opened CheckpointData
  import opened Lineage
  import opened CheckpointDisk
  import opened CheckpointSpec
  import opened CheckpointSafety
  import opened Timeline
  import opened RestoreFates
  import opened RestoreFiles
  import opened RestoreSpec
  import opened CheckpointLaws
  import opened RestoreLaws
  import opened RebaseLoops

  class Store {
    const limits: Limits
    var disk: Disk
    var active: Option<Id>
    /** The durable writes issued so far, in order. */
    ghost var writes: seq<Write>

    /** Between operations: invariant storage, no commit in flight, and the active
        checkpoint is the newest, unfinished and within its capture limits. */
    ghost predicate Valid()
      reads this
    {
      && limits.checkpoints >= 1
      && DiskInv(disk) && disk.transaction == None
      && (active.Some? ==> OpenCheckpoint(disk, active.value, limits))
    }

    constructor (limits: Limits)
      requires limits.checkpoints >= 1
      ensures Valid() && this.limits == limits && active == None
      ensures disk == Disk(Index([], []), map[], [], {}, None)
    {
      this.limits := limits;
      active := None;
      disk := Disk(Index([], []), map[], [], {}, None);
      writes := [];
    }

    /** A durable write is only issued when an exit right after it is safe. */
    method Put(w: Write)
      requires DiskInv(disk) && DiskInv(Apply(disk, w))
      modifies this`disk, this`writes
      ensures disk == Apply(old(disk), w) && DiskInv(disk) && writes == old(writes) + [w]
    {
      disk := Apply(disk, w);
      writes := writes + [w];
    }

    // ----- begin ---------------------------------------------------------------

    method Begin(id: Id) returns (ok: bool)
      requires Valid()
      modifies this
      ensures Valid()
      ensures ok == (old(active) == None && id !in old(disk).index.used && id !in old(disk).manifests)
      ensures !ok ==> disk == old(disk) && active == old(active)
      ensures ok ==> active == Some(id) && disk == Pruned(Begun(old(disk), id), limits.checkpoints)
      ensures ok ==> Begins(old(disk), disk, id, limits.checkpoints) == true
    {
      BeginLaw(disk, id, limits.checkpoints);
      if active != None || id in disk.index.used || id in disk.manifests {
        return false;
      }
      WriteBegun(id);
      active := Some(id);
      Prune();
      return true;
    }

    /** The manifest reaches disk before the index names it. */
    method WriteBegun(id: Id)
      requires Valid() && active == None
      requires id !in disk.index.used && id !in disk.manifests
      modifies this`disk, this`writes
      ensures Valid() && OpenCheckpoint(disk, id, limits)
      ensures disk == Begun(old(disk), id)
    {
      ghost var d0 := disk;
      OrderIsUsed(disk);
      ManifestWritten(disk, id, EmptyManifest());
      Put(WriteManifest(id, EmptyManifest()));
      BegunKeeps(disk, id);
      Put(WriteIndex(Index(disk.index.order + [id], disk.index.used + [id])));
    }

    // ----- tool hooks ------------------------------------------------------------

    method AddWarning(id: Id, path: Path, reason: string)
      requires Valid() && id in disk.index.order
      modifies this`disk, this`writes
      ensures Valid()
      ensures disk == Warn(old(disk), id, path, reason)
    {
      var m := disk.manifests[id];
      assert Covered(m, disk.blobs);
      ManifestWritten(disk, id, m.(warnings := m.warnings + [Warning(path, reason)]));
      Put(WriteManifest(id, m.(warnings := m.warnings + [Warning(path, reason)])));
    }

    /** tool:pre: capture every target before the tool runs. */
    method HandlePre(files: Workspace, call: CallId, targets: seq<Resolved>)
      requires Valid()
      modifies this`disk, this`writes
      ensures Valid()
      ensures disk == if active == None then old(disk)
                      else PreDisk(old(disk), files, active.value, call, targets, limits)
      ensures active.Some? ==> PreHook(old(disk), disk, files, active.value, call, targets, limits) == true
    {
      if active == None {
        return;
      }
      var id := active.value;
      PreHookLaw(disk, files, id, call, targets, limits);
      if call == "" {
        AddWarning(id, UNKNOWN_PATH, "call lacked tool_call_id");
      } else if IsPending(disk.pending, id, call) {
        AddWarning(id, UNKNOWN_PATH, "duplicate tool_call_id");
      } else if targets == [] {
        AddWarning(id, UNKNOWN_PATH, "could not resolve targets");
      } else {
        CaptureTargets(files, id, call, targets);
      }
    }

    method CaptureTargets(files: Workspace, id: Id, call: CallId, targets: seq<Resolved>)
      requires Valid() && active == Some(id)
      requires call != "" && targets != [] && !IsPending(disk.pending, id, call)
      modifies this`disk, this`writes
      ensures Valid()
      ensures disk == PreDisk(old(disk), files, id, call, targets, limits)
    {
      var m := disk.manifests[id];
      assert Covered(m, disk.blobs);
      var acc := SnapshotTargets(files, targets, m.snapshots, m.bytes);
      CoveredMore(m, old(disk).blobs, acc.blobs);
      var m' := m.(snapshots := acc.snapshots, bytes := acc.bytes);
      ManifestWritten(disk, id, m');
      Put(WriteManifest(id, m'));
      CaptureCovered(files, targets, m.snapshots, m.bytes, limits, disk.blobs);
      PendingWritten(disk, Pending(id, call, acc.targets));
      Put(WritePending(Pending(id, call, acc.targets)));
    }

    /** Capture the targets in order, storing the bytes of each regular pre-image. */
    method SnapshotTargets(files: Workspace, targets: seq<Resolved>, snapshots: nat, bytes: nat)
      returns (acc: Capturing)
      requires DiskInv(disk)
      requires snapshots <= limits.snapshots && bytes <= limits.bytes
      modifies this`disk, this`writes
      ensures DiskInv(disk)
      ensures acc == CaptureAll(files, targets, snapshots, bytes, limits)
      ensures disk == old(disk).(blobs := old(disk).blobs + acc.blobs)
      ensures acc.snapshots <= limits.snapshots && acc.bytes <= limits.bytes
      ensures CapturedAll(files, targets, acc, snapshots, bytes, limits)
    {
      ghost var d0 := disk;
      acc := Capturing([], snapshots, bytes, {});
      var i := 0;
      while i < |targets|
        invariant 0 <= i <= |targets|
        invariant acc == CaptureAll(files, targets[..i], snapshots, bytes, limits)
        invariant DiskInv(disk) && disk == d0.(blobs := d0.blobs + acc.blobs)
        invariant acc.snapshots <= limits.snapshots && acc.bytes <= limits.bytes
      {
        assert targets[..i + 1][..i] == targets[..i];
        var next := CaptureOne(acc, files, targets[i], limits);
        CaptureOneStep(acc, files, targets[i], limits);
        if next.blobs != acc.blobs {
          StoreBlob(next.targets[|next.targets| - 1].before.digest);
        }
        acc := next;
        i := i + 1;
      }
      assert targets[..i] == targets;
      CaptureLaw(files, targets, snapshots, bytes, limits);
    }

    method StoreBlob(digest: Digest)
      requires DiskInv(disk)
      modifies this`disk, this`writes
      ensures DiskInv(disk)
      ensures disk == old(disk).(blobs := old(disk).blobs + {digest})
    {
      MoreBlobs(disk, {digest});
      Put(WriteBlob(digest));
    }

    /** tool:post or tool:error: record what changed and drop the pre-image record. */
    method HandleAfter(files: Workspace, call: CallId)
      requires Valid()
      modifies this`disk, this`writes
      ensures Valid()
      ensures var r := FindPending(old(disk).pending, active, call);
              disk == if call == "" || r == None || r.value.checkpoint !in old(disk).manifests then old(disk)
                      else PostDisk(old(disk), files, r.value)
      ensures CallEnded(old(disk), disk, files, active, call) == true
    {
      CallEndedLaw(disk, files, active, call);
      var found := FindPending(disk.pending, active, call);
      if call == "" || found == None || found.value.checkpoint !in disk.manifests {
        return;
      }
      FoundPending(disk.pending, active, call);
      RecordOperation(files, found.value);
    }

    /** The manifest gets the operation before the record goes. */
    method RecordOperation(files: Workspace, r: Pending)
      requires DiskInv(disk) && disk.transaction == None
      requires r in disk.pending && r.checkpoint in disk.manifests
      modifies this`disk, this`writes
      ensures DiskInv(disk) && disk.transaction == None
      ensures disk == PostDisk(old(disk), files, r)
    {
      var changes, warnings := CompareTargets(files, r.targets);
      var m := disk.manifests[r.checkpoint];
      var m' := m.(operations := m.operations + [Operation(r.call, changes)], warnings := m.warnings + warnings);
      assert PendingCovered(r, disk.blobs);
      ChangesFromTargets(files, r.targets, disk.blobs);
      assert Covered(m, disk.blobs);
      ManifestWritten(disk, r.checkpoint, m');
      Put(WriteManifest(r.checkpoint, m'));
      PendingDropped(disk, r.checkpoint, r.call);
      Put(DropPending(r.checkpoint, r.call));
    }

    /** What became of each pre-image: a change, a warning, or nothing. */
    static method CompareTargets(files: Workspace, targets: seq<Target>)
      returns (changes: seq<Change>, warnings: seq<Warning>)
      ensures changes == TargetChanges(files, targets) && warnings == TargetWarnings(files, targets)
    {
      changes, warnings := [], [];
      var i := 0;
      while i < |targets|
        invariant 0 <= i <= |targets|
        invariant changes == TargetChanges(files, targets[..i])
        invariant warnings == TargetWarnings(files, targets[..i])
      {
        assert targets[..i + 1][..i] == targets[..i];
        match targets[i] {
          case Unsafe(raw, why) => warnings := warnings + [Warning(raw, why)];
          case Tracked(p, before) =>
            if before.Skipped? {
              warnings := warnings + [Warning(p, before.reason)];
            } else {
              var after := Capture(files, p);
              if after.Skipped? {
                warnings := warnings + [Warning(p, after.reason)];
              } else if !SameImage(before, after) {
                changes := changes + [Change(p, before, after)];
              }
            }
        }
        i := i + 1;
      }
      assert targets[..i] == targets;
    }

    // ----- finish ------------------------------------------------------------------

    method Finish(id: Id) returns (ok: bool)
      requires Valid()
      modifies this
      ensures Valid()
      ensures ok == (old(active) == Some(id))
      ensures !ok ==> disk == old(disk) && active == old(active)
      ensures ok ==> active == None && disk == Collected(Finalized(old(disk), id))
      ensures ok ==> Finishes(old(disk), disk.(blobs := old(disk).blobs), id)
    {
      if active != Some(id) {
        return false;
      }
      FinishLaw(disk, id);
      FinalizeManifest(id);
      CollectGarbage();
      active := None;
      return true;
    }

    /** The final manifest reaches disk before its pre-image records are deleted. */
    method FinalizeManifest(id: Id)
      requires DiskInv(disk) && disk.transaction == None && id in disk.manifests
      requires id in disk.index.order
      modifies this`disk, this`writes
      ensures DiskInv(disk) && disk.transaction == None
      ensures disk == Finalized(old(disk), id)
    {
      var m := disk.manifests[id];
      var warnings := UnfinishedWarnings(m.warnings, disk.pending, id);
      assert Covered(m, disk.blobs);
      ManifestWritten(disk, id, m.(finished := true, warnings := warnings));
      Put(WriteManifest(id, m.(finished := true, warnings := warnings)));
      RemovePending(id);
    }

    static method UnfinishedWarnings(before: seq<Warning>, pending: seq<Pending>, id: Id)
      returns (warnings: seq<Warning>)
      ensures warnings == before + Unfinished(pending, id)
    {
      warnings := before;
      var i := 0;
      while i < |pending|
        invariant 0 <= i <= |pending|
        invariant warnings == before + Unfinished(pending[..i], id)
      {
        var r := pending[i];
        assert pending[..i + 1][..i] == pending[..i];
        if r.checkpoint == id {
          Sequences.Assoc(before, Unfinished(pending[..i], id), UnfinishedTargets(r.call, r.targets));
          warnings := warnings + UnfinishedTargets(r.call, r.targets);
        }
        i := i + 1;
      }
      assert pending[..i] == pending;
    }

    // ----- branch commit ---------------------------------------------------------

    /** Make a new index and new manifests durable together. */
    method CommitRestoreState(t: Transaction)
      requires DiskInv(disk) && disk.transaction == None
      requires DiskInv(Apply(disk, WriteTransaction(t)))
      modifies this`disk, this`writes
      ensures DiskInv(disk) && disk == Committed(old(disk), t)
      ensures writes == old(writes) + CommitWrites(t)
    {
      Put(WriteTransaction(t));
      ApplyRestoreTransaction(t);
      Sequences.Assoc(old(writes), [WriteTransaction(t)], RedoWrites(t));
    }

    method ApplyRestoreTransaction(t: Transaction)
      requires DiskInv(disk) && disk.transaction == Some(t)
      modifies this`disk, this`writes
      ensures DiskInv(disk) && disk == Committed(old(disk), t)
      ensures writes == old(writes) + RedoWrites(t)
    {
      WriteManifests(t);
      OverwriteTwice(old(disk).manifests, t.manifests);
      TransactionIndex(disk, t);
      Put(WriteIndex(t.index));
      Put(DropTransaction);
      assert writes == old(writes) + RedoWrites(t);
    }

    method WriteManifests(t: Transaction)
      requires DiskInv(disk) && disk.transaction == Some(t)
      modifies this`disk, this`writes
      ensures DiskInv(disk) && disk == old(disk).(manifests := Overwrite(old(disk).manifests, t.manifests))
      ensures writes == old(writes) + ManifestWrites(t.manifests)
    {
      ghost var d0 := disk;
      for i := 0 to |t.manifests|
        invariant DiskInv(disk)
        invariant disk == d0.(manifests := Overwrite(d0.manifests, t.manifests[..i]))
        invariant writes == old(writes) + ManifestWrites(t.manifests[..i])
      {
        TransactionManifest(disk, t, i);
        NextEntry(d0.manifests, t.manifests, i);
        Sequences.Assoc(old(writes), ManifestWrites(t.manifests[..i]),
                        [WriteManifest(t.manifests[i].id, t.manifests[i].manifest)]);
        Put(WriteManifest(t.manifests[i].id, t.manifests[i].manifest));
      }
      assert t.manifests[..|t.manifests|] == t.manifests;
    }

    /** A new process opens whatever storage an exit left behind. */
    constructor Reopen(limits: Limits, found: Disk)
      requires limits.checkpoints >= 1 && DiskInv(found)
      ensures Valid() && this.limits == limits && active == None
      ensures disk == Recovered(found)
    {
      this.limits := limits;
      active := None;
      disk := found;
      writes := [];
      new;
      if disk.transaction.Some? {
        RecoveredIsCommitted(disk, disk.transaction.value);
        ApplyRestoreTransaction(disk.transaction.value);
      }
    }

    /** Finalize the listed checkpoints that an exit left unfinished. */
    method FinalizeIncomplete(ids: seq<Id>)
      requires DiskInv(disk) && disk.transaction == None
      requires forall i | 0 <= i < |ids| :: ids[i] in disk.manifests && ids[i] in disk.index.order
      modifies this`disk, this`writes
      ensures DiskInv(disk) && disk.transaction == None
      ensures disk == FinalizedAll(old(disk), ids) && FinishesAll(old(disk), disk, ids) == true
    {
      FinishAllLaw(disk, ids);
      ghost var d0 := disk;
      for i := 0 to |ids|
        invariant DiskInv(disk) && disk.transaction == None
        invariant disk == FinalizedAll(d0, ids[..i])
      {
        FinalizedAllSnoc(d0, ids, i);
        FinalizeUnlessDone(ids[i]);
      }
      assert ids[..|ids|] == ids;
    }

    method FinalizeUnlessDone(id: Id)
      requires DiskInv(disk) && disk.transaction == None && id in disk.manifests
      requires id in disk.index.order
      modifies this`disk, this`writes
      ensures DiskInv(disk) && disk.transaction == None
      ensures disk == if old(disk).manifests[id].finished then old(disk) else Finalized(old(disk), id)
    {
      if !disk.manifests[id].finished {
        FinalizeManifest(id);
      }
    }

    /** Follow the conversation branch: checkpoints after the last visible one are
        folded into it and retired. */
    method ReconcileVisible(visible: set<Id>) returns (ok: bool)
      requires Valid()
      modifies this
      ensures Valid() && active == old(active)
      ensures ok <==> old(active) == None && exists k: nat :: VisiblePrefix(old(disk).index.order, visible, k)
      ensures ok ==> exists k: nat :: VisiblePrefix(old(disk).index.order, visible, k) && disk == FoldDisk(old(disk), k)
                                 && (k < |old(disk).index.order| ==> Folds(old(disk), disk, k))
      ensures ok ==> forall id | id in old(disk).index.order :: id in disk.index.order <==> id in visible
      ensures !ok ==> disk == old(disk)
    {
      if active != None {
        return false;
      }
      var order := disk.index.order;
      var kept := VisibleOf(order, visible);
      VisibleIsPrefix(order, visible);
      if !(kept <= order) {
        return false;
      }
      OrderIsUsed(disk);
      if |kept| < |order| {
        FoldLaw(disk, |kept|);
        HideAfter(|kept|);
      }
      PrefixMembers(order, visible, |kept|);
      return true;
    }

    method HideAfter(kept: nat)
      requires Valid() && active == None
      requires kept < |disk.index.order|
      modifies this`disk, this`writes
      ensures Valid()
      ensures disk == FoldDisk(old(disk), kept)
    {
      ghost var d0 := disk;
      var order := disk.index.order;
      if kept > 0 {
        FinalizeIncomplete(order[kept - 1..]);
        FinalizedAllKeeps(d0, order[kept - 1..]);
      }
      FoldDiskSteps(d0, disk, kept);
      CommitFold(kept);
    }

    method CommitFold(kept: nat)
      requires DiskInv(disk) && disk.transaction == None && kept < |disk.index.order|
      requires forall i | 0 <= i < |disk.index.order| :: disk.index.order[i] in disk.manifests
      modifies this`disk, this`writes
      ensures DiskInv(disk) && disk.transaction == None
      ensures var c := Committed(old(disk), FoldTransaction(old(disk), kept));
              disk == Collected(c.(pending := WithoutCheckpoints(c.pending, old(disk).index.order[kept..])))
    {
      var hidden := disk.index.order[kept..];
      var t := FoldTransaction(disk, kept);
      FoldStaged(disk, kept);
      CommitRestoreState(t);
      RemovePendingOf(hidden);
      CollectGarbage();
    }

    method RemovePendingOf(ids: seq<Id>)
      requires DiskInv(disk) && disk.transaction == None
      modifies this`disk, this`writes
      ensures DiskInv(disk)
      ensures disk == old(disk).(pending := WithoutCheckpoints(old(disk).pending, ids))
    {
      ghost var d0 := disk;
      var i := 0;
      while i < |ids|
        invariant 0 <= i <= |ids|
        invariant DiskInv(disk)
        invariant disk == d0.(pending := WithoutCheckpoints(d0.pending, ids[..i]))
      {
        assert ids[..i + 1][..i] == ids[..i];
        RemovePending(ids[i]);
        i := i + 1;
      }
      assert ids[..i] == ids;
    }

    // ----- restore -------------------------------------------------------------------

    /** Undo direct edits from a checkpoint onward.  Refused while a checkpoint is active
        or when the id is unknown; otherwise the files move under compare-and-swap and the
        history advances to match what really happened to them. */
    method Restore(files: Files, id: Id, includeTarget: bool, retainTarget: bool)
      returns (ok: bool, tally: Tally, clean: bool)
      requires Valid() && files.Valid()
      modifies this, files
      ensures Valid() && files.Valid() && active == old(active)
      ensures ok == (old(active) == None && id in old(disk).index.order)
      ensures !ok ==> disk == old(disk) && files.states == old(files.states) && files.deeds == old(files.deeds)
      ensures ok ==>
        var start := StartOf(old(disk).index.order, id, includeTarget);
        var d := FinalizedAll(old(disk), old(disk).index.order[start..]);
        && old(files.deeds) <= files.deeds
        && FileOutcome(d, start, files.quiet, old(files.states), files.deeds[|old(files.deeds)|..],
                       tally, clean, files.states)
        && disk == Advanced(d, start, retainTarget, tally, clean)
        && FinishesAll(old(disk), d, old(disk).index.order[start..]) == true
        && Advances(d, disk, start, retainTarget, tally, clean) == true
    {
      tally, clean := Tally([], map[], []), false;
      if active != None || id !in disk.index.order {
        return false, tally, clean;
      }
      tally, clean := RestoreFrom(files, StartOf(disk.index.order, id, includeTarget), retainTarget);
      ok := true;
    }

    method RestoreFrom(files: Files, start: nat, retain: bool) returns (tally: Tally, clean: bool)
      requires DiskInv(disk) && disk.transaction == None && start <= |disk.index.order|
      requires files.Valid()
      modifies this`disk, this`writes, files
      ensures DiskInv(disk) && disk.transaction == None && files.Valid()
      ensures InIndex(old(disk))
      ensures var d := FinalizedAll(old(disk), old(disk).index.order[start..]);
        && old(files.deeds) <= files.deeds
        && FileOutcome(d, start, files.quiet, old(files.states), files.deeds[|old(files.deeds)|..],
                       tally, clean, files.states)
        && disk == Advanced(d, start, retain, tally, clean)
        && FinishesAll(old(disk), d, old(disk).index.order[start..]) == true
        && Advances(d, disk, start, retain, tally, clean) == true
    {
      FinalizeIncomplete(disk.index.order[start..]);
      ghost var d := disk;
      tally, clean := RestoreWorkspace(files, Ordered(disk.manifests, disk.index.order[start..]), disk.blobs);
      assert FileOutcome(d, start, files.quiet, old(files.states), files.deeds[|old(files.deeds)|..],
                         tally, clean, files.states);
      AdvanceHistory(start, retain, tally, clean);
    }

    /** Commit the branch the files now stand for. */
    method AdvanceHistory(start: nat, retain: bool, tally: Tally, clean: bool)
      requires DiskInv(disk) && disk.transaction == None
      requires start <= |disk.index.order|
      requires Distinct(tally.restored) && forall p | p in tally.restored :: p in tally.states
      modifies this`disk, this`writes
      ensures DiskInv(disk) && disk.transaction == None
      ensures InIndex(old(disk))
      ensures disk == Advanced(old(disk), start, retain, tally, clean)
      ensures Advances(old(disk), disk, start, retain, tally, clean) == true
    {
      AdvanceLaw(disk, start, retain, tally, clean);
      var rebased, changed := RefreshPredecessors(start, tally);
      SmallerTransaction(disk, start, retain, tally, clean, rebased, changed);
      CommitRestoreState(SmallTransaction(disk, start, retain, tally, clean, rebased, changed));
      if clean {
        CollectGarbage();
      }
    }

    method RefreshPredecessors(start: nat, tally: Tally) returns (rebased: seq<Manifest>, changed: set<int>)
      requires InIndex(disk) && start <= |disk.index.order|
      requires forall p | p in tally.restored :: p in tally.states
      ensures rebased == RebaseAll(Ordered(disk.manifests, disk.index.order[..start]), tally.restored, tally.states)
      ensures forall i | 0 <= i < start && i !in changed :: rebased[i] == disk.manifests[disk.index.order[i]]
    {
      rebased, changed := RebasePredecessors(
        Ordered(disk.manifests, disk.index.order[..start]), tally.restored, tally.states);
    }

    // ----- retention ---------------------------------------------------------------

    /** Forget the oldest checkpoints: index first, then their manifests and records. */
    method Prune()
      requires Valid() && active.Some?
      modifies this`disk, this`writes
      ensures Valid()
      ensures disk == Pruned(old(disk), limits.checkpoints)
    {
      if |disk.index.order| <= limits.checkpoints {
        return;
      }
      ghost var d0 := disk;
      var excess := |disk.index.order| - limits.checkpoints;
      var removed := disk.index.order[..excess];
      OrderIsUsed(disk);
      ShorterIndexKeeps(disk, excess);
      Put(WriteIndex(disk.index.(order := disk.index.order[excess..])));
      forall i | 0 <= i < excess ensures removed[i] !in disk.index.order {
        assert forall j | excess <= j < |d0.index.order| :: d0.index.order[j] != d0.index.order[i];
      }
      Forget(removed);
      assert active.value !in removed by {
        assert d0.index.order[|d0.index.order| - 1] == active.value;
      }
      CollectGarbage();
    }

    /** Drop the manifests and pending records of checkpoints no longer in the index. */
    method Forget(removed: seq<Id>)
      requires DiskInv(disk) && disk.transaction == None
      requires forall i | 0 <= i < |removed| :: removed[i] !in disk.index.order
      modifies this`disk, this`writes
      ensures DiskInv(disk) && disk.transaction == None
      ensures disk == Forgotten(old(disk), removed)
    {
      ghost var d1 := disk;
      var i := 0;
      while i < |removed|
        invariant 0 <= i <= |removed|
        invariant DiskInv(disk) && disk.transaction == None
        invariant disk == Forgotten(d1, removed[..i])
      {
        ForgottenStep(d1, removed, i);
        ManifestDropped(disk, removed[i]);
        Put(DropManifest(removed[i]));
        RemovePending(removed[i]);
        i := i + 1;
      }
      assert removed[..i] == removed;
    }

    /** Remove every pending record of one checkpoint. */
    method RemovePending(id: Id)
      requires DiskInv(disk) && disk.transaction == None
      modifies this`disk, this`writes
      ensures DiskInv(disk)
      ensures disk == old(disk).(pending := WithoutCheckpoint(old(disk).pending, id))
    {
      ghost var d0 := disk;
      var records := disk.pending;
      var i := 0;
      while i < |records|
        invariant 0 <= i <= |records|
        invariant DiskInv(disk)
        invariant disk == d0.(pending := disk.pending)
        invariant disk.pending == DropUpTo(records, records[..i], id)
      {
        assert records[..i + 1][..i] == records[..i];
        if records[i].checkpoint == id {
          PendingDropped(disk, id, records[i].call);
          Put(DropPending(id, records[i].call));
        }
        i := i + 1;
      }
      assert records[..i] == records;
      DropAllRecords(records, records, id);
    }

    /** Delete the blobs nothing on disk refers to. */
    method CollectGarbage()
      requires DiskInv(disk) && disk.transaction == None
      modifies this`disk, this`writes
      ensures DiskInv(disk)
      ensures disk == Collected(old(disk))
      ensures forall g :: g in disk.blobs <==> g in old(disk).blobs && Used(old(disk), g)
    {
      ghost var d0 := disk;
      CollectedExactly(disk);
      var todo := disk.blobs;
      while todo != {}
        invariant todo <= d0.blobs
        invariant DiskInv(disk)
        invariant disk == d0.(blobs := set g | g in d0.blobs && (g in todo || Referenced(d0, g)))
        decreases todo
      {
        var g :| g in todo;
        assert Referenced(disk, g) == Referenced(d0, g);
        if !Referenced(disk, g) {
          BlobDropped(disk, g);
          Put(DropBlob(g));
        }
        todo := todo - {g};
      }
    }
  }

  /** Records left after dropping those of id among the listed ones. */
  function DropUpTo(ps: seq<Pending>, listed: seq<Pending>, id: Id): seq<Pending> {
    if listed == [] then ps
    else
      var rest := DropUpTo(ps, listed[..|listed| - 1], id);
      var r := listed[|listed| - 1];
      if r.checkpoint == id then Without(rest, id, r.call) else rest
  }

  lemma {:induction false} WithoutSnoc(ps: seq<Pending>, r: Pending, id: Id, call: CallId)
    ensures Without(ps + [r], id, call) ==
            if r.checkpoint == id && r.call == call then Without(ps, id, call) else Without(ps, id, call) + [r]
  {
    assert (ps + [r])[..|ps|] == ps;
  }

  lemma {:induction false} DropUpToSnoc(ps: seq<Pending>, r: Pending, listed: seq<Pending>, id: Id)
    ensures DropUpTo(ps + [r], listed, id) ==
            if r.checkpoint == id &&
               (exists i | 0 <= i < |listed| :: listed[i].checkpoint == id && listed[i].call == r.call)
            then DropUpTo(ps, listed, id) else DropUpTo(ps, listed, id) + [r]
  {
    if listed != [] {
      var n := |listed| - 1;
      var l := listed[n];
      DropUpToSnoc(ps, r, listed[..n], id);
      forall i | 0 <= i < n ensures listed[..n][i] == listed[i] {}
      if l.checkpoint == id {
        WithoutSnoc(DropUpTo(ps, listed[..n], id), r, id, l.call);
      }
    }
  }

  lemma {:induction false} DropAllRecords(ps: seq<Pending>, listed: seq<Pending>, id: Id)
    requires forall p | p in ps :: p in listed
    ensures DropUpTo(ps, listed, id) == WithoutCheckpoint(ps, id)
  {
    if ps == [] {
      DropUpToEmpty(listed, id);
    } else {
      var n := |ps| - 1;
      assert ps == ps[..n] + [ps[n]];
      DropAllRecords(ps[..n], listed, id);
      DropUpToSnoc(ps[..n], ps[n], listed, id);
      assert ps[n] in listed;
    }
  }

  lemma {:induction false} DropUpToEmpty(listed: seq<Pending>, id: Id)
    ensures DropUpTo([], listed, id) == []
  {
    if listed != [] {
      DropUpToEmpty(listed[..|listed| - 1], id);
    }
  }

  /** Storage while pruning: these checkpoints are gone, garbage not yet collected. */
  function Forgotten(d: Disk, removed: seq<Id>): Disk {
    d.(manifests := d.manifests - IdSet(removed),
       pending := WithoutCheckpoints(d.pending, removed))
  }

  lemma ForgottenStep(d: Disk, removed: seq<Id>, i: nat)
    requires i < |removed|
    ensures Forgotten(d, removed[..i + 1]) ==
            var f := Forgotten(d, removed[..i]);
            f.(manifests := f.manifests - {removed[i]}, pending := WithoutCheckpoint(f.pending, removed[i]))
  {
    assert removed[..i + 1][..i] == removed[..i];
    assert removed[..i + 1] == removed[..i] + [removed[i]];
    assert IdSet(removed[..i + 1]) == IdSet(removed[..i]) + {removed[i]};
  }

  lemma ShorterIndexKeeps(d: Disk, k: nat)
    requires DiskInv(d) && d.transaction == None && k <= |d.index.order|
    ensures DiskInv(d.(index := d.index.(order := d.index.order[k..])))
  {
    SubsequenceSuffix(d.index.order, d.index.used, k);
  }

  predicate OpenCheckpoint(d: Disk, id: Id, lim: Limits) {
    && d.index.order != [] && d.index.order[|d.index.order| - 1] == id
    && id in d.manifests
    && !d.manifests[id].finished
    && d.manifests[id].snapshots <= lim.snapshots
    && d.manifests[id].bytes <= lim.bytes
  }

  lemma OrderIsUsed(d: Disk)
    requires DiskInv(d)
    ensures forall id | id in d.index.order :: id in d.index.used
    ensures Distinct(d.index.order)
  {
    SubsequenceMembers(d.index.order, d.index.used);
  }

  lemma BegunKeeps(d: Disk, id: Id)
    requires DiskInv(d) && d.transaction == None
    requires id !in d.index.used && id in d.manifests && !d.manifests[id].retired
    ensures DiskInv(d.(index := Index(d.index.order + [id], d.index.used + [id])))
  {
    var order, used := d.index.order + [id], d.index.used + [id];
    SubsequenceBoth(d.index.order, d.index.used, id);
    DistinctExtend(d.index.used, id);
    IndexKeeps(d, Index(order, used));
  }

  lemma SubsequenceBoth(a: seq<Id>, b: seq<Id>, x: Id)
    requires Subsequence(a, b)
    ensures Subsequence(a + [x], b + [x])
  {
    Sequences.Appended(a, x);
    Sequences.Appended(b, x);
  }

  lemma DistinctExtend(s: seq<Id>, x: Id)
    requires Distinct(s) && x !in s
    ensures Distinct(s + [x])
  {
  }

  lemma IndexKeeps(d: Disk, index: Index)
    requires DiskInv(d) && d.transaction == None
    requires Subsequence(index.order, index.used) && Distinct(index.used)
    requires forall id | id in index.order :: id in d.manifests && !d.manifests[id].retired
    ensures DiskInv(d.(index := index))
  {
  }

  /** The record a finished call refers to: the active checkpoint's, else any. */
  function FindPending(ps: seq<Pending>, active: Option<Id>, call: CallId): Option<Pending> {
    if active.Some? && FirstOf(ps, active, call).Some? then FirstOf(ps, active, call)
    else FirstOf(ps, None, call)
  }

  function FirstOf(ps: seq<Pending>, checkpoint: Option<Id>, call: CallId): Option<Pending> {
    if ps == [] then None
    else if ps[0].call == call && (checkpoint.Some? ==> ps[0].checkpoint == checkpoint.value) then Some(ps[0])
    else FirstOf(ps[1..], checkpoint, call)
  }

  lemma {:induction false} FirstOfFound(ps: seq<Pending>, checkpoint: Option<Id>, call: CallId)
    ensures var r := FirstOf(ps, checkpoint, call);
            r.Some? ==> r.value in ps && r.value.call == call &&
                        (checkpoint.Some? ==> r.value.checkpoint == checkpoint.value)
  {
    if ps != [] {
      FirstOfFound(ps[1..], checkpoint, call);
    }
  }

  lemma {:induction false} FirstOfAny(ps: seq<Pending>, checkpoint: Option<Id>, call: CallId)
    ensures FirstOf(ps, checkpoint, call) == None <==>
            forall r | r in ps :: !(r.call == call && (checkpoint.Some? ==> r.checkpoint == checkpoint.value))
  {
    if ps != [] {
      FirstOfAny(ps[1..], checkpoint, call);
      assert ps == [ps[0]] + ps[1..];
    }
  }

  /** A record of the call, the active checkpoint's own if it has one. */
  predicate RecordOf(ps: seq<Pending>, active: Option<Id>, call: CallId, r: Pending) {
    && r in ps && r.call == call
    && (active.Some? && (exists q | q in ps :: q.call == call && q.checkpoint == active.value) ==>
          r.checkpoint == active.value)
  }

  lemma FoundPending(ps: seq<Pending>, active: Option<Id>, call: CallId)
    ensures var r := FindPending(ps, active, call);
            && (r.Some? ==> RecordOf(ps, active, call, r.value))
            && (r == None <==> forall q | q in ps :: q.call != call)
  {
    FirstOfFound(ps, active, call);
    FirstOfFound(ps, None, call);
    FirstOfAny(ps, active, call);
    FirstOfAny(ps, None, call);
  }

  /** Without a record nothing happens; with one its hook runs, unless its checkpoint is gone. */
  ghost predicate CallEnded(d: Disk, d': Disk, ws: Workspace, active: Option<Id>, call: CallId) {
    if call == "" || forall q | q in d.pending :: q.call != call then d' == d
    else exists r :: RecordOf(d.pending, active, call, r)
                     && if r.checkpoint in d.manifests then PostHook(d, d', ws, r) else d' == d
  }

  lemma CallEndedLaw(d: Disk, ws: Workspace, active: Option<Id>, call: CallId)
    ensures var r := FindPending(d.pending, active, call);
            CallEnded(d, if call == "" || r == None || r.value.checkpoint !in d.manifests then d
                         else PostDisk(d, ws, r.value), ws, active, call)
  {
    FoundPending(d.pending, active, call);
    var r := FindPending(d.pending, active, call);
    if r.Some? && r.value.checkpoint in d.manifests { PostHookLaw(d, ws, r.value); }
  }

  /** One capture stays within the limits and adds at most its own bytes. */
  lemma CaptureOneStep(acc: Capturing, ws: Workspace, r: Resolved, lim: Limits)
    requires acc.snapshots <= lim.snapshots && acc.bytes <= lim.bytes
    ensures var next := CaptureOne(acc, ws, r, lim);
            && next.snapshots <= lim.snapshots && next.bytes <= lim.bytes
            && |next.targets| == |acc.targets| + 1
            && (next.blobs != acc.blobs ==>
                  && next.targets[|acc.targets|].Tracked? && next.targets[|acc.targets|].before.Regular?
                  && next.blobs == acc.blobs + {next.targets[|acc.targets|].before.digest})
  {
  }

  /** Every captured pre-image has its bytes among the written blobs. */
  lemma {:induction false} CaptureCovered(ws: Workspace, rs: seq<Resolved>, snapshots: nat, bytes: nat,
                                          lim: Limits, blobs: set<Digest>)
    requires CaptureAll(ws, rs, snapshots, bytes, lim).blobs <= blobs
    ensures forall i | 0 <= i < |CaptureAll(ws, rs, snapshots, bytes, lim).targets| ::
              TargetCovered(CaptureAll(ws, rs, snapshots, bytes, lim).targets[i], blobs)
  {
    if rs != [] {
      CaptureCovered(ws, rs[..|rs| - 1], snapshots, bytes, lim, blobs);
    }
  }

  lemma {:induction false} ChangesFromTargets(ws: Workspace, ts: seq<Target>, blobs: set<Digest>)
    requires forall i | 0 <= i < |ts| :: TargetCovered(ts[i], blobs)
    ensures ChangesCovered(TargetChanges(ws, ts), blobs)
  {
    if ts != [] {
      ChangesFromTargets(ws, ts[..|ts| - 1], blobs);
      assert TargetCovered(ts[|ts| - 1], blobs);
    }
  }

  /** The next checkpoint is closed unless it is finished. */
  lemma FinalizedAllSnoc(d: Disk, ids: seq<Id>, i: nat)
    requires i < |ids| && forall j | 0 <= j < |ids| :: ids[j] in d.manifests
    ensures var r := FinalizedAll(d, ids[..i]);
            FinalizedAll(d, ids[..i + 1]) == if r.manifests[ids[i]].finished then r else Finalized(r, ids[i])
  {
    assert ids[..i + 1][..i] == ids[..i];
  }

  lemma RecoveredIsCommitted(d: Disk, t: Transaction)
    requires d.transaction == Some(t)
    ensures Recovered(d) == Committed(d, t)
  {
    var redo := RedoWrites(t);
    RedoStays(d, d, t, |redo|);
    assert redo[..|redo|] == redo;
  }

  /** The visible ids are exactly the first k of the index. */
  predicate VisiblePrefix(order: seq<Id>, visible: set<Id>, k: nat) {
    && k <= |order|
    && (forall i | 0 <= i < k :: order[i] in visible) && (forall i | k <= i < |order| :: order[i] !in visible)
  }

  lemma {:induction false} VisibleIsPrefix(order: seq<Id>, visible: set<Id>)
    ensures var kept := VisibleOf(order, visible);
            && |kept| <= |order|
            && (kept <= order ==> VisiblePrefix(order, visible, |kept|))
            && (forall k: nat :: VisiblePrefix(order, visible, k) ==> kept <= order && |kept| == k)
  {
    if order != [] {
      var n := |order| - 1;
      var front, rest, kept := order[..n], VisibleOf(order[..n], visible), VisibleOf(order, visible);
      VisibleIsPrefix(front, visible);
      if kept <= order {
        forall i | 0 <= i < |rest| ensures rest[i] == front[i] { assert kept[i] == order[i]; }
        assert VisiblePrefix(front, visible, |rest|);
        assert order[n] in visible ==> kept[|rest|] in visible && kept[|rest|] == order[|rest|];
        PrefixExtends(order, visible, |rest|);
      }
      forall k: nat | VisiblePrefix(order, visible, k) ensures kept <= order && |kept| == k {
        assert VisiblePrefix(front, visible, if k <= n then k else n);
      }
    }
  }

  lemma PrefixExtends(order: seq<Id>, visible: set<Id>, k: nat)
    requires order != [] && VisiblePrefix(order[..|order| - 1], visible, k)
    requires k < |order| - 1 ==> order[|order| - 1] !in visible
    ensures VisiblePrefix(order, visible, if order[|order| - 1] in visible then k + 1 else k)
  {
    var n := |order| - 1;
    assert forall i | 0 <= i < n :: order[..n][i] == order[i];
  }

  lemma PrefixMembers(order: seq<Id>, visible: set<Id>, k: nat)
    requires VisiblePrefix(order, visible, k)
    ensures forall id | id in order :: id in order[..k] <==> id in visible
  {
  }

  lemma {:induction false} AllOperationsCovered(ms: seq<Manifest>, blobs: set<Digest>)
    requires forall i | 0 <= i < |ms| :: Covered(ms[i], blobs)
    ensures forall i | 0 <= i < |AllOperations(ms)| :: ChangesCovered(AllOperations(ms)[i].changes, blobs)
  {
    if ms != [] {
      AllOperationsCovered(ms[..|ms| - 1], blobs);
      assert Covered(ms[|ms| - 1], blobs);
    }
  }

  /** Closed, committed, forgotten, collected. */
  lemma FoldDiskSteps(d: Disk, closed: Disk, kept: nat)
    requires kept < |d.index.order| && forall i | 0 <= i < |d.index.order| :: d.index.order[i] in d.manifests
    requires closed == if kept == 0 then d else FinalizedAll(d, d.index.order[kept - 1..])
    ensures forall i | 0 <= i < |closed.index.order| :: closed.index.order[i] in closed.manifests
    ensures var c := Committed(closed, FoldTransaction(closed, kept));
            FoldDisk(d, kept) == Collected(c.(pending := WithoutCheckpoints(c.pending, d.index.order[kept..])))
  {
  }

  lemma FoldStaged(d: Disk, kept: nat)
    requires DiskInv(d) && d.transaction == None
    requires kept < |d.index.order|
    ensures DiskInv(Apply(d, WriteTransaction(FoldTransaction(d, kept))))
  {
    var t := FoldTransaction(d, kept);
    var order := d.index.order;
    var hidden := order[kept..];
    OrderIsUsed(d);
    SubsequencePrefix(order, d.index.used, kept);
    if kept > 0 {
      AllOperationsCovered(Ordered(d.manifests, hidden), d.blobs);
      assert Covered(d.manifests[order[kept - 1]], d.blobs);
    }
    forall i | 0 <= i < |t.manifests| ensures Covered(t.manifests[i].manifest, d.blobs) {
    }
    forall i | 0 <= i < kept
      ensures order[i] in Overwrite(d.manifests, t.manifests)
      ensures !Overwrite(d.manifests, t.manifests)[order[i]].retired
    {
      FoldEntry(d, kept, i);
    }
    TransactionStaged(d, t);
  }

  /** A kept checkpoint keeps its manifest, the last one becomes the merged one. */
  lemma FoldEntry(d: Disk, kept: nat, i: nat)
    requires DiskInv(d) && d.transaction == None
    requires i < kept < |d.index.order|
    ensures var order := d.index.order;
            var after := Overwrite(d.manifests, FoldTransaction(d, kept).manifests);
            order[i] in after &&
            after[order[i]] == if i == kept - 1
                               then Merged(d.manifests[order[i]], Ordered(d.manifests, order[kept..]))
                               else d.manifests[order[i]]
  {
    OrderIsUsed(d);
    FoldEntryAt(d, kept, i);
  }

  /** What a restore from position start of d did to the files: deeds holds its own writes and
      everybody else's.  Undisturbed, every file of the workspace meets its fate. */
  ghost predicate FileOutcome(d: Disk, start: nat, quiet: bool, was: Workspace, deeds: seq<Deed>,
                              tally: Tally, clean: bool, now: Workspace)
  {
    InIndex(d) && start <= |d.index.order| &&
    var ms := Ordered(d.manifests, d.index.order[start..]);
    && now == Replayed(was, deeds)
    && Outcome(History(ms), Warnings(ms), was, deeds, tally)
    && (clean ==> tally.skipped == [] && Warnings(ms) == [])
    && (quiet ==>
          && OnlyOwn(deeds)
          && FatesMet(History(ms), Warnings(ms), was, d.blobs, tally, now)
          && (clean <==> tally.skipped == [])
          && forall p | p in tally.skipped :: Warned(Warnings(ms), p) || Chain(History(ms), p) != [])
  }

  /** First selected position: the target itself, or the one after it. */
  function StartOf(order: seq<Id>, id: Id, includeTarget: bool): (k: nat)
    requires id in order
    ensures k <= |order|
  {
    if order[0] == id then (if includeTarget then 0 else 1)
    else 1 + StartOf(order[1..], id, includeTarget)
  }

  lemma {:induction false} StartWithin(order: seq<Id>, id: Id, includeTarget: bool)
    requires id in order
    ensures var k := StartOf(order, id, includeTarget);
            if includeTarget then k < |order| && order[k] == id else 0 < k <= |order| && order[k - 1] == id
  {
    if order[0] != id {
      StartWithin(order[1..], id, includeTarget);
    }
  }
}
