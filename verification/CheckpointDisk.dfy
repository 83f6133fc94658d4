/** Durable checkpoint storage as a value, its single-step writes, the invariant
    every write keeps, and the branch commit protocol with its crash recovery. */
module CheckpointDisk {
  import opened Collections
  import opened CheckpointData

  datatype Entry = Entry(id: Id, manifest: Manifest)
  datatype Transaction = Transaction(index: Index, manifests: seq<Entry>)

  datatype Disk = Disk(
    index: Index,
    manifests: map<Id, Manifest>,
    pending: seq<Pending>,
    blobs: set<Digest>,
    transaction: Option<Transaction>)

  /** One atomic durable step; the process may exit after any of them. */
  datatype Write =
    | WriteIndex(index: Index)
    | WriteManifest(id: Id, manifest: Manifest)
    | DropManifest(id: Id)
    | WritePending(record: Pending)
    | DropPending(checkpoint: Id, call: CallId)
    | WriteBlob(digest: Digest)
    | DropBlob(digest: Digest)
    | WriteTransaction(transaction: Transaction)
    | DropTransaction

  function Without(ps: seq<Pending>, checkpoint: Id, call: CallId): seq<Pending> {
    if ps == [] then []
    else
      var rest := Without(ps[..|ps| - 1], checkpoint, call);
      var p := ps[|ps| - 1];
      if p.checkpoint == checkpoint && p.call == call then rest else rest + [p]
  }

  function Apply(d: Disk, w: Write): Disk {
    match w
    case WriteIndex(i) => d.(index := i)
    case WriteManifest(id, m) => d.(manifests := d.manifests[id := m])
    case DropManifest(id) => d.(manifests := d.manifests - {id})
    case WritePending(r) => d.(pending := Without(d.pending, r.checkpoint, r.call) + [r])
    case DropPending(c, k) => d.(pending := Without(d.pending, c, k))
    case WriteBlob(g) => d.(blobs := d.blobs + {g})
    case DropBlob(g) => d.(blobs := d.blobs - {g})
    case WriteTransaction(t) => d.(transaction := Some(t))
    case DropTransaction => d.(transaction := None)
  }

  function ApplyAll(d: Disk, ws: seq<Write>): Disk {
    if ws == [] then d else Apply(ApplyAll(d, ws[..|ws| - 1]), ws[|ws| - 1])
  }

  // ----- invariant -------------------------------------------------------------

  predicate HasBlob(s: FileState, blobs: set<Digest>) {
    s.Regular? ==> s.digest in blobs
  }

  predicate ChangesCovered(cs: seq<Change>, blobs: set<Digest>) {
    forall i | 0 <= i < |cs| :: HasBlob(cs[i].before, blobs)
  }

  predicate Covered(m: Manifest, blobs: set<Digest>) {
    forall i | 0 <= i < |m.operations| :: ChangesCovered(m.operations[i].changes, blobs)
  }

  predicate TargetCovered(t: Target, blobs: set<Digest>) {
    t.Tracked? ==> HasBlob(t.before, blobs)
  }

  predicate PendingCovered(p: Pending, blobs: set<Digest>) {
    forall i | 0 <= i < |p.targets| :: TargetCovered(p.targets[i], blobs)
  }

  ghost predicate Basic(d: Disk) {
    && Distinct(d.index.used)
    && Subsequence(d.index.order, d.index.used)
    && (forall i | 0 <= i < |d.index.order| :: d.index.order[i] in d.manifests)
    && (forall id | id in d.manifests :: Covered(d.manifests[id], d.blobs))
    && (forall i | 0 <= i < |d.pending| :: PendingCovered(d.pending[i], d.blobs))
  }

  ghost predicate NoneRetired(d: Disk) {
    forall i | 0 <= i < |d.index.order| ::
      d.index.order[i] in d.manifests && !d.manifests[d.index.order[i]].retired
  }

  /** Holds after every single durable write, hence at every possible exit. */
  ghost predicate DiskInv(d: Disk) {
    && Basic(d)
    && match d.transaction
       case None => NoneRetired(d)
       case Some(t) =>
         && t.index.used == d.index.used
         && (forall i | 0 <= i < |t.manifests| :: Covered(t.manifests[i].manifest, d.blobs))
         && Basic(Committed(d, t))
         && NoneRetired(Committed(d, t))
  }

  // ----- branch commit -----------------------------------------------------------

  function Overwrite(ms: map<Id, Manifest>, es: seq<Entry>): map<Id, Manifest> {
    if es == [] then ms
    else Overwrite(ms, es[..|es| - 1])[es[|es| - 1].id := es[|es| - 1].manifest]
  }

  /** The state a finished commit of t leaves. */
  function Committed(d: Disk, t: Transaction): Disk {
    d.(index := t.index, manifests := Overwrite(d.manifests, t.manifests), transaction := None)
  }

  function ManifestWrites(es: seq<Entry>): (ws: seq<Write>)
    ensures |ws| == |es|
  {
    if es == [] then []
    else ManifestWrites(es[..|es| - 1]) + [WriteManifest(es[|es| - 1].id, es[|es| - 1].manifest)]
  }

  lemma NextEntry(ms: map<Id, Manifest>, es: seq<Entry>, i: nat)
    requires i < |es|
    ensures Overwrite(ms, es[..i + 1]) == Overwrite(ms, es[..i])[es[i].id := es[i].manifest]
    ensures ManifestWrites(es[..i + 1]) == ManifestWrites(es[..i]) + [WriteManifest(es[i].id, es[i].manifest)]
  {
    assert es[..i + 1][..i] == es[..i];
  }

  function RedoWrites(t: Transaction): seq<Write> {
    ManifestWrites(t.manifests) + [WriteIndex(t.index), DropTransaction]
  }

  function CommitWrites(t: Transaction): seq<Write> {
    [WriteTransaction(t)] + RedoWrites(t)
  }

  /** What the next owner writes before doing any work. */
  function RecoveryWrites(d: Disk): seq<Write> {
    match d.transaction case None => [] case Some(t) => RedoWrites(t)
  }

  /** A recovery that the process leaves after at most n writes. */
  function PartialRecovery(d: Disk, n: nat): Disk {
    var ws := RecoveryWrites(d);
    ApplyAll(d, if n <= |ws| then ws[..n] else ws)
  }

  function Recoveries(d: Disk, exits: seq<nat>): Disk {
    if exits == [] then d
    else PartialRecovery(Recoveries(d, exits[..|exits| - 1]), exits[|exits| - 1])
  }

  function Recovered(d: Disk): Disk {
    ApplyAll(d, RecoveryWrites(d))
  }

  lemma {:induction false} OverwriteAt(ms: map<Id, Manifest>, es: seq<Entry>, id: Id)
    ensures (exists i | 0 <= i < |es| :: es[i].id == id) ==> id in Overwrite(ms, es)
    ensures (forall i | 0 <= i < |es| :: es[i].id != id) ==>
              (id in Overwrite(ms, es) <==> id in ms) && (id in ms ==> Overwrite(ms, es)[id] == ms[id])
  {
    if es != [] {
      var n := |es| - 1;
      OverwriteAt(ms, es[..n], id);
      forall i | 0 <= i < n ensures es[..n][i] == es[i] {}
    }
  }

  /** The value of a written id does not depend on what was there before. */
  lemma {:induction false} OverwriteForgets(m1: map<Id, Manifest>, m2: map<Id, Manifest>, es: seq<Entry>, i: nat)
    requires i < |es|
    ensures es[i].id in Overwrite(m1, es) && es[i].id in Overwrite(m2, es)
    ensures Overwrite(m1, es)[es[i].id] == Overwrite(m2, es)[es[i].id]
  {
    var n := |es| - 1;
    if i < n {
      OverwriteForgets(m1, m2, es[..n], i);
    }
  }

  /** Repeating some of the writes first does not change the outcome. */
  lemma OverwriteAgain(ms: map<Id, Manifest>, es: seq<Entry>, j: nat)
    requires j <= |es|
    ensures Overwrite(Overwrite(ms, es[..j]), es) == Overwrite(ms, es)
  {
    var part := Overwrite(ms, es[..j]);
    var a, b := Overwrite(part, es), Overwrite(ms, es);
    forall id: Id
      ensures id in a <==> id in b
      ensures id in a && id in b ==> a[id] == b[id]
    {
      OverwriteAt(part, es, id);
      OverwriteAt(ms, es, id);
      OverwriteAt(ms, es[..j], id);
      if i :| 0 <= i < |es| && es[i].id == id {
        OverwriteForgets(part, ms, es, i);
      }
    }
    assert a.Keys == b.Keys;
  }

  /** A state inside the commit of t that started from d0. */
  predicate Between(d: Disk, d0: Disk, t: Transaction) {
    && d.pending == d0.pending && d.blobs == d0.blobs
    && if d.transaction == None then d == Committed(d0, t)
       else
         && d.transaction == Some(t)
         && Overwrite(d.manifests, t.manifests) == Overwrite(d0.manifests, t.manifests)
  }

  lemma {:induction false} RedoManifests(d: Disk, es: seq<Entry>)
    ensures ApplyAll(d, ManifestWrites(es)) == d.(manifests := Overwrite(d.manifests, es))
  {
    if es != [] {
      var n := |es| - 1;
      RedoManifests(d, es[..n]);
      assert ManifestWrites(es)[..n] == ManifestWrites(es[..n]);
    }
  }

  lemma {:induction false} ManifestWritesPrefix(es: seq<Entry>, j: nat)
    requires j <= |es|
    ensures ManifestWrites(es)[..j] == ManifestWrites(es[..j])
  {
    if j == |es| {
      assert es[..j] == es;
    } else {
      var n := |es| - 1;
      ManifestWritesPrefix(es[..n], j);
      assert es[..n][..j] == es[..j];
    }
  }

  lemma ApplyAllSnoc(d: Disk, ws: seq<Write>, w: Write)
    ensures ApplyAll(d, ws + [w]) == Apply(ApplyAll(d, ws), w)
  {
    assert (ws + [w])[..|ws|] == ws;
  }

  /** Redoing any number of writes from inside the commit stays inside it; all of
      them finish it. */
  lemma RedoStays(d: Disk, d0: Disk, t: Transaction, n: nat)
    requires Between(d, d0, t) && d.transaction == Some(t)
    requires n <= |RedoWrites(t)|
    ensures Between(ApplyAll(d, RedoWrites(t)[..n]), d0, t)
    ensures n == |RedoWrites(t)| ==> ApplyAll(d, RedoWrites(t)[..n]) == Committed(d0, t)
  {
    var m := |t.manifests|;
    if n <= m {
      assert RedoWrites(t)[..n] == ManifestWrites(t.manifests)[..n];
      ManifestWritesPrefix(t.manifests, n);
      RedoManifests(d, t.manifests[..n]);
      OverwriteAgain(d.manifests, t.manifests, n);
    } else {
      RedoEnds(d, d0, t, n);
    }
  }

  /** All manifests written: then the index, then the record goes. */
  lemma RedoEnds(d: Disk, d0: Disk, t: Transaction, n: nat)
    requires Between(d, d0, t) && d.transaction == Some(t)
    requires |t.manifests| < n <= |RedoWrites(t)|
    ensures Between(ApplyAll(d, RedoWrites(t)[..n]), d0, t)
    ensures n == |RedoWrites(t)| ==> ApplyAll(d, RedoWrites(t)[..n]) == Committed(d0, t)
  {
    var m, mw := |t.manifests|, ManifestWrites(t.manifests);
    RedoManifests(d, t.manifests);
    OverwriteTwice(d.manifests, t.manifests);
    RedoPrefixes(t);
    ApplyAllSnoc(d, mw, WriteIndex(t.index));
    if n > m + 1 { ApplyAllSnoc(d, mw + [WriteIndex(t.index)], DropTransaction); }
  }

  lemma RedoPrefixes(t: Transaction)
    ensures var m, mw := |t.manifests|, ManifestWrites(t.manifests);
            && |RedoWrites(t)| == m + 2
            && RedoWrites(t)[..m + 1] == mw + [WriteIndex(t.index)]
            && RedoWrites(t)[..m + 2] == mw + [WriteIndex(t.index)] + [DropTransaction]
  {
  }

  lemma OverwriteTwice(ms: map<Id, Manifest>, es: seq<Entry>)
    ensures Overwrite(Overwrite(ms, es), es) == Overwrite(ms, es)
  {
    OverwriteAgain(ms, es, |es|);
    assert es[..|es|] == es;
  }

  lemma {:induction false} RecoveriesStay(d: Disk, d0: Disk, t: Transaction, exits: seq<nat>)
    requires Between(d, d0, t)
    ensures Between(Recoveries(d, exits), d0, t)
  {
    if exits != [] {
      var e := |exits| - 1;
      RecoveriesStay(d, d0, t, exits[..e]);
      var r := Recoveries(d, exits[..e]);
      if r.transaction == Some(t) {
        var ws := RedoWrites(t);
        assert ws == ws[..|ws|];
        RedoStays(r, d0, t, if exits[e] <= |ws| then exits[e] else |ws|);
      } else {
        assert RecoveryWrites(r) == [];
      }
    }
  }

  lemma ApplyAllFirst(d: Disk, w: Write, ws: seq<Write>)
    ensures ApplyAll(d, [w] + ws) == ApplyAll(Apply(d, w), ws)
  {
    if ws == [] {
      assert [w] + ws == [w];
      assert [w][..0] == [];
    } else {
      var n := |ws| - 1;
      assert ([w] + ws)[..n + 1] == [w] + ws[..n];
      ApplyAllFirst(d, w, ws[..n]);
    }
  }

  /** Crash atomicity of the branch commit: exit after any k writes, exit any number
      of recoveries anywhere, then recover: all of the new state if the record was
      written, all of the old state otherwise. */
  lemma CommitIsAtomic(d0: Disk, t: Transaction, k: nat, exits: seq<nat>)
    requires d0.transaction == None
    requires k <= |CommitWrites(t)|
    ensures Recovered(Recoveries(ApplyAll(d0, CommitWrites(t)[..k]), exits)) ==
            if k == 0 then d0 else Committed(d0, t)
  {
    if k == 0 {
      assert CommitWrites(t)[..0] == [];
      NothingToRecover(d0, exits);
    } else {
      var redo := RedoWrites(t);
      assert CommitWrites(t)[..k] == [WriteTransaction(t)] + redo[..k - 1];
      ApplyAllFirst(d0, WriteTransaction(t), redo[..k - 1]);
      var staged := Apply(d0, WriteTransaction(t));
      RedoStays(staged, d0, t, k - 1);
      var crashed := ApplyAll(staged, redo[..k - 1]);
      RecoveriesStay(crashed, d0, t, exits);
      var last := Recoveries(crashed, exits);
      if last.transaction == Some(t) {
        assert redo == redo[..|redo|];
        RedoStays(last, d0, t, |redo|);
      }
    }
  }

  lemma {:induction false} NothingToRecover(d: Disk, exits: seq<nat>)
    requires d.transaction == None
    ensures Recoveries(d, exits) == d && Recovered(d) == d
  {
    if exits != [] {
      NothingToRecover(d, exits[..|exits| - 1]);
    }
  }
}
