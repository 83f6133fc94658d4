/** Which single durable writes keep the storage invariant. */
module CheckpointSafety {
  import opened Collections
  import opened CheckpointData
  import opened CheckpointDisk
  import opened CheckpointSpec

  lemma {:induction false} WithoutMembers(ps: seq<Pending>, id: Id, call: CallId)
    ensures forall p :: p in Without(ps, id, call) <==> p in ps && !(p.checkpoint == id && p.call == call)
  {
    if ps != [] {
      WithoutMembers(ps[..|ps| - 1], id, call);
      assert ps == ps[..|ps| - 1] + [ps[|ps| - 1]];
    }
  }

  /** Blobs only need to grow with what refers to them. */
  lemma MoreBlobs(d: Disk, more: set<Digest>)
    requires DiskInv(d)
    ensures DiskInv(d.(blobs := d.blobs + more))
  {
    var d' := d.(blobs := d.blobs + more);
    MoreBlobsBasic(d, more);
    if d.transaction.Some? {
      var t := d.transaction.value;
      MoreBlobsBasic(Committed(d, t), more);
      assert Committed(d', t) == Committed(d, t).(blobs := d.blobs + more);
      forall i | 0 <= i < |t.manifests| ensures Covered(t.manifests[i].manifest, d'.blobs) {
        CoveredMore(t.manifests[i].manifest, d.blobs, more);
      }
    }
  }

  lemma CoveredMore(m: Manifest, blobs: set<Digest>, more: set<Digest>)
    requires Covered(m, blobs)
    ensures Covered(m, blobs + more)
  {
    forall i | 0 <= i < |m.operations| ensures ChangesCovered(m.operations[i].changes, blobs + more) {
      assert ChangesCovered(m.operations[i].changes, blobs);
    }
  }

  lemma MoreBlobsBasic(d: Disk, more: set<Digest>)
    requires Basic(d)
    ensures Basic(d.(blobs := d.blobs + more))
  {
    forall id | id in d.manifests ensures Covered(d.manifests[id], d.blobs + more) {
      CoveredMore(d.manifests[id], d.blobs, more);
    }
    forall i | 0 <= i < |d.pending| ensures PendingCovered(d.pending[i], d.blobs + more) {
      assert PendingCovered(d.pending[i], d.blobs);
      forall j | 0 <= j < |d.pending[i].targets|
        ensures TargetCovered(d.pending[i].targets[j], d.blobs + more)
      {
        assert TargetCovered(d.pending[i].targets[j], d.blobs);
      }
    }
  }

  /** A manifest may be rewritten while its before-images stay covered. */
  lemma ManifestWritten(d: Disk, id: Id, m: Manifest)
    requires DiskInv(d) && d.transaction == None
    requires Covered(m, d.blobs)
    requires id in d.index.order ==> !m.retired
    ensures DiskInv(Apply(d, WriteManifest(id, m)))
  {
    var d' := Apply(d, WriteManifest(id, m));
    assert Basic(d');
    assert NoneRetired(d');
  }

  lemma PendingWritten(d: Disk, r: Pending)
    requires DiskInv(d) && d.transaction == None
    requires PendingCovered(r, d.blobs)
    ensures DiskInv(Apply(d, WritePending(r)))
  {
    WithoutMembers(d.pending, r.checkpoint, r.call);
    PendingSubset(d, Without(d.pending, r.checkpoint, r.call) + [r]);
  }

  lemma PendingDropped(d: Disk, id: Id, call: CallId)
    requires DiskInv(d) && d.transaction == None
    ensures DiskInv(Apply(d, DropPending(id, call)))
  {
    WithoutMembers(d.pending, id, call);
    PendingSubset(d, Without(d.pending, id, call));
  }

  lemma PendingSubset(d: Disk, ps: seq<Pending>)
    requires DiskInv(d) && d.transaction == None
    requires forall p | p in ps :: p in d.pending || PendingCovered(p, d.blobs)
    ensures DiskInv(d.(pending := ps))
  {
    var d' := d.(pending := ps);
    forall i | 0 <= i < |ps| ensures PendingCovered(ps[i], d.blobs) {
      assert ps[i] in ps;
    }
    assert Basic(d');
    assert NoneRetired(d');
  }

  /** Garbage collection may drop exactly what nothing on disk refers to. */
  lemma BlobDropped(d: Disk, g: Digest)
    requires DiskInv(d) && d.transaction == None
    requires !Referenced(d, g)
    ensures DiskInv(Apply(d, DropBlob(g)))
  {
    var d' := Apply(d, DropBlob(g));
    forall id | id in d.manifests ensures Covered(d.manifests[id], d'.blobs) {
      var m := d.manifests[id];
      assert Covered(m, d.blobs);
      assert !ManifestRefers(m, g);
      forall i | 0 <= i < |m.operations| ensures ChangesCovered(m.operations[i].changes, d'.blobs) {
        var cs := m.operations[i].changes;
        assert ChangesCovered(cs, d.blobs);
        assert !ChangesRefer(cs, g);
        forall j | 0 <= j < |cs| ensures HasBlob(cs[j].before, d'.blobs) {
          assert HasBlob(cs[j].before, d.blobs);
          assert !StateRefers(cs[j].before, g);
        }
      }
    }
    forall i | 0 <= i < |d.pending| ensures PendingCovered(d.pending[i], d'.blobs) {
      var p := d.pending[i];
      assert PendingCovered(p, d.blobs);
      assert !PendingRefers(p, g);
      forall j | 0 <= j < |p.targets| ensures TargetCovered(p.targets[j], d'.blobs) {
        assert TargetCovered(p.targets[j], d.blobs);
      }
    }
    assert Basic(d');
    assert NoneRetired(d');
  }

  /** A manifest outside the index may go. */
  lemma ManifestDropped(d: Disk, id: Id)
    requires DiskInv(d) && d.transaction == None && id !in d.index.order
    ensures DiskInv(Apply(d, DropManifest(id)))
  {
    var d' := Apply(d, DropManifest(id));
    forall i | 0 <= i < |d.index.order| ensures d.index.order[i] in d'.manifests {
      assert d.index.order[i] in d.index.order;
    }
    assert Basic(d');
    assert NoneRetired(d');
  }

  // ----- the commit in flight -------------------------------------------------------

  /** Writing a value the commit will write anyway does not change where it ends. */
  lemma OverwriteAbsorbs(ms: map<Id, Manifest>, es: seq<Entry>, i: nat)
    requires i < |es|
    ensures Overwrite(ms[es[i].id := es[i].manifest], es) == Overwrite(ms, es)
  {
    var ms' := ms[es[i].id := es[i].manifest];
    var a, b := Overwrite(ms', es), Overwrite(ms, es);
    forall id: Id
      ensures id in a <==> id in b
      ensures id in a && id in b ==> a[id] == b[id]
    {
      OverwriteAt(ms', es, id);
      OverwriteAt(ms, es, id);
      if j :| 0 <= j < |es| && es[j].id == id {
        OverwriteForgets(ms', ms, es, j);
      }
    }
    assert a.Keys == b.Keys;
  }

  lemma TransactionStaged(d: Disk, t: Transaction)
    requires DiskInv(d) && d.transaction == None
    requires t.index.used == d.index.used
    requires forall i | 0 <= i < |t.manifests| :: Covered(t.manifests[i].manifest, d.blobs)
    requires Subsequence(t.index.order, t.index.used)
    requires forall i | 0 <= i < |t.index.order| ::
               t.index.order[i] in Overwrite(d.manifests, t.manifests) &&
               !Overwrite(d.manifests, t.manifests)[t.index.order[i]].retired
    ensures DiskInv(Apply(d, WriteTransaction(t)))
  {
    var c := Committed(d, t);
    forall id | id in c.manifests ensures Covered(c.manifests[id], c.blobs) {
      OverwriteCovered(d.manifests, t.manifests, id, d.blobs);
    }
    var d' := Apply(d, WriteTransaction(t));
    assert Committed(d', t) == c;
    assert Basic(d');
  }

  lemma {:induction false} OverwriteCovered(ms: map<Id, Manifest>, es: seq<Entry>, id: Id, blobs: set<Digest>)
    requires id in Overwrite(ms, es)
    requires forall k | k in ms :: Covered(ms[k], blobs)
    requires forall i | 0 <= i < |es| :: Covered(es[i].manifest, blobs)
    ensures Covered(Overwrite(ms, es)[id], blobs)
  {
    if es != [] && es[|es| - 1].id != id {
      OverwriteCovered(ms, es[..|es| - 1], id, blobs);
    }
  }

  lemma TransactionManifest(d: Disk, t: Transaction, i: nat)
    requires DiskInv(d) && d.transaction == Some(t) && i < |t.manifests|
    ensures DiskInv(Apply(d, WriteManifest(t.manifests[i].id, t.manifests[i].manifest)))
  {
    var d' := Apply(d, WriteManifest(t.manifests[i].id, t.manifests[i].manifest));
    OverwriteAbsorbs(d.manifests, t.manifests, i);
    assert Committed(d', t) == Committed(d, t);
    assert Basic(d');
  }

  lemma TransactionIndex(d: Disk, t: Transaction)
    requires DiskInv(d) && d.transaction == Some(t)
    requires d.manifests == Overwrite(d.manifests, t.manifests)
    ensures DiskInv(Apply(d, WriteIndex(t.index)))
    ensures DiskInv(Apply(Apply(d, WriteIndex(t.index)), DropTransaction))
  {
    var d' := Apply(d, WriteIndex(t.index));
    assert Committed(d', t) == Committed(d, t);
    assert d' == Committed(d, t).(transaction := Some(t));
    assert Basic(d');
  }

  // ----- order as a subsequence of used ---------------------------------------------

  lemma {:induction false} SubsequenceExtend<T>(a: seq<T>, b: seq<T>, x: T)
    requires Subsequence(a, b)
    ensures Subsequence(a, b + [x])
    decreases |b|, 1
  {
    assert (b + [x])[..|b + [x]| - 1] == b;
    if a != [] && a[|a| - 1] == x {
      SubsequenceShorten(a, b);
    }
  }

  lemma {:induction false} SubsequenceShorten<T>(a: seq<T>, b: seq<T>)
    requires Subsequence(a, b) && a != []
    ensures Subsequence(a[..|a| - 1], b)
    decreases |b|, 0
  {
    var a', b' := a[..|a| - 1], b[..|b| - 1];
    assert b == b' + [b[|b| - 1]];
    if a[|a| - 1] != b[|b| - 1] {
      SubsequenceShorten(a, b');
    }
    SubsequenceExtend(a', b', b[|b| - 1]);
  }

  lemma {:induction false} SubsequencePrefix<T>(a: seq<T>, b: seq<T>, k: nat)
    requires Subsequence(a, b) && k <= |a|
    ensures Subsequence(a[..k], b)
  {
    if k < |a| {
      SubsequenceShorten(a, b);
      SubsequencePrefix(a[..|a| - 1], b, k);
      assert a[..|a| - 1][..k] == a[..k];
    } else {
      assert a[..k] == a;
    }
  }

  lemma {:induction false} SubsequenceSuffix<T>(a: seq<T>, b: seq<T>, k: nat)
    requires Subsequence(a, b) && k <= |a|
    ensures Subsequence(a[k..], b)
  {
    if k < |a| {
      var a', b' := a[..|a| - 1], b[..|b| - 1];
      if a[|a| - 1] == b[|b| - 1] {
        SubsequenceSuffix(a', b', k);
        assert a[k..][..|a[k..]| - 1] == a'[k..];
      } else {
        SubsequenceSuffix(a, b', k);
      }
    }
  }

  lemma {:induction false} SubsequenceMembers<T>(a: seq<T>, b: seq<T>)
    requires Subsequence(a, b)
    ensures forall x | x in a :: x in b
    ensures Distinct(b) ==> Distinct(a)
  {
    if a != [] {
      var a', b' := a[..|a| - 1], b[..|b| - 1];
      assert b == b' + [b[|b| - 1]] && a == a' + [a[|a| - 1]];
      if a[|a| - 1] == b[|b| - 1] {
        SubsequenceMembers(a', b');
        if Distinct(b) {
          forall i, j | 0 <= i < j < |a| ensures a[i] != a[j] {
            if j == |a| - 1 {
              assert a[i] in a';
              var m :| 0 <= m < |b'| && b'[m] == a[i];
              assert b[m] == a[i];
            } else {
              assert a'[i] != a'[j];
            }
          }
        }
      } else {
        SubsequenceMembers(a, b');
      }
    }
  }
}
