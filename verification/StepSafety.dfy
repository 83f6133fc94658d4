/** Each operation of the checkpoint store, seen as one step, keeps the storage invariant.  No call
    is open meanwhile. */
module StepSafety {
  import opened Collections
  import opened CheckpointData
  import opened CheckpointDisk
  import opened CheckpointSpec
  import opened CheckpointSafety
  import opened CheckpointStore
  import opened RestoreFates
  import opened RestoreSpec

  lemma {:induction false} NothingPending(ids: seq<Id>)
    ensures WithoutCheckpoints([], ids) == []
  {
    if ids != [] {
      NothingPending(ids[..|ids| - 1]);
    }
  }

  // ----- garbage and commits ------------------------------------------------------------------

  lemma ReferredStays(d: Disk, id: Id)
    requires id in d.manifests && Covered(d.manifests[id], d.blobs)
    ensures Covered(d.manifests[id], Collected(d).blobs)
  {
    var m := d.manifests[id];
    forall i | 0 <= i < |m.operations| ensures ChangesCovered(m.operations[i].changes, Collected(d).blobs) {
      var cs := m.operations[i].changes;
      assert ChangesCovered(cs, d.blobs);
      forall j | 0 <= j < |cs| ensures HasBlob(cs[j].before, Collected(d).blobs) {
        assert HasBlob(cs[j].before, d.blobs);
        if cs[j].before.Regular? {
          var g := cs[j].before.digest;
          assert StateRefers(cs[j].before, g) && ChangesRefer(cs, g) && ManifestRefers(m, g);
        }
      }
    }
  }

  lemma CollectedKeeps(d: Disk)
    requires DiskInv(d) && d.transaction == None && d.pending == []
    ensures DiskInv(Collected(d))
  {
    forall id | id in d.manifests ensures Covered(d.manifests[id], Collected(d).blobs) {
      ReferredStays(d, id);
    }
  }

  lemma CommittedKeeps(d: Disk, t: Transaction)
    requires d.transaction == None && DiskInv(Apply(d, WriteTransaction(t)))
    ensures DiskInv(Committed(d, t))
  {
    assert Committed(Apply(d, WriteTransaction(t)), t) == Committed(d, t);
  }

  // ----- begin and finish ------------------------------------------------------------------------

  lemma PrunedKeeps(d: Disk, keep: nat)
    requires DiskInv(d) && d.transaction == None && d.pending == []
    ensures DiskInv(Pruned(d, keep))
  {
    if |d.index.order| > keep {
      var e := |d.index.order| - keep;
      NothingPending(d.index.order[..e]);
      ShorterIndexKeeps(d, e);
      OrderIsUsed(d);
      var f := d.(index := d.index.(order := d.index.order[e..]));
      OthersDropped(f, d.index.order[..e]);
      CollectedKeeps(f.(manifests := f.manifests - IdSet(d.index.order[..e])));
    }
  }

  lemma OthersDropped(d: Disk, ids: seq<Id>)
    requires DiskInv(d) && d.transaction == None
    requires forall i | 0 <= i < |d.index.order| :: d.index.order[i] !in ids
    ensures DiskInv(d.(manifests := d.manifests - IdSet(ids)))
  {
  }

  lemma BeginSafe(d: Disk, id: Id, keep: nat)
    requires DiskInv(d) && d.transaction == None && d.pending == [] && id !in d.index.used
    ensures DiskInv(Pruned(Begun(d, id), keep))
  {
    OrderIsUsed(d);
    ManifestWritten(d, id, EmptyManifest());
    BegunKeeps(Apply(d, WriteManifest(id, EmptyManifest())), id);
    PrunedKeeps(Begun(d, id), keep);
  }

  lemma FinishSafe(d: Disk, id: Id)
    requires DiskInv(d) && d.transaction == None && d.pending == [] && id in d.manifests
    ensures DiskInv(Collected(Finalized(d, id)))
  {
    FinalizedSafe(d, id);
    CollectedKeeps(Finalized(d, id));
  }

  lemma FinalizedSafe(d: Disk, id: Id)
    requires DiskInv(d) && d.transaction == None && d.pending == [] && id in d.manifests
    ensures DiskInv(Finalized(d, id)) && Finalized(d, id).pending == []
  {
    var m := d.manifests[id];
    assert Covered(m, d.blobs);
    ManifestWritten(d, id, m.(finished := true, warnings := m.warnings + Unfinished(d.pending, id)));
  }

  // ----- a call -------------------------------------------------------------------------------------

  /** The manifest with the operation of a captured call: its before-images were stored. */
  lemma CallSafe(d: Disk, d': Disk, id: Id, ws: Workspace, now: Workspace, rs: seq<Resolved>, call: CallId, lim: Limits)
    requires DiskInv(d) && d.transaction == None && d.pending == [] && id in d.manifests
    requires var m := d.manifests[id]; var acc := CaptureAll(ws, rs, m.snapshots, m.bytes, lim);
             && d'.index == d.index && d'.transaction == None && d'.pending == []
             && d'.blobs == d.blobs + acc.blobs
             && d'.manifests == d.manifests[id := m.(snapshots := acc.snapshots, bytes := acc.bytes,
                  operations := m.operations + [Operation(call, TargetChanges(now, acc.targets))])]
    ensures DiskInv(d')
  {
    var m := d.manifests[id];
    var acc := CaptureAll(ws, rs, m.snapshots, m.bytes, lim);
    var d1 := d.(blobs := d.blobs + acc.blobs);
    MoreBlobs(d, acc.blobs);
    CaptureCovered(ws, rs, m.snapshots, m.bytes, lim, d1.blobs);
    ChangesFromTargets(now, acc.targets, d1.blobs);
    assert Covered(m, d1.blobs);
    ManifestWritten(d1, id, d'.manifests[id]);
    assert d' == Apply(d1, WriteManifest(id, d'.manifests[id]));
  }

  // ----- commits of folds and restores -----------------------------------------------------------

  lemma FoldSafe(c: Disk, kept: nat)
    requires DiskInv(c) && c.transaction == None && c.pending == [] && kept < |c.index.order|
    ensures var d := Committed(c, FoldTransaction(c, kept));
            DiskInv(d) && d.pending == [] && d.transaction == None && DiskInv(Collected(d))
  {
    FoldStaged(c, kept);
    CommittedKeeps(c, FoldTransaction(c, kept));
    CollectedKeeps(Committed(c, FoldTransaction(c, kept)));
  }

  lemma AdvanceSafe(d: Disk, start: nat, retain: bool, t: Tally, clean: bool)
    requires DiskInv(d) && d.transaction == None && d.pending == [] && start <= |d.index.order|
    requires forall p | p in t.restored :: p in t.states
    ensures DiskInv(Committed(d, AdvanceTransaction(d, start, retain, t, clean)))
    ensures DiskInv(Advanced(d, start, retain, t, clean))
  {
    AdvanceStaged(d, start, retain, t, clean);
    CommittedKeeps(d, AdvanceTransaction(d, start, retain, t, clean));
    if clean { CollectedKeeps(Committed(d, AdvanceTransaction(d, start, retain, t, clean))); }
  }
}
