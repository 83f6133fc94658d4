/** What each operation of the checkpoint store does to durable storage, as
    functions of the old storage and of the captured file states. */
module CheckpointSpec {
  import opened CheckpointData
  import opened CheckpointDisk
  import opened Timeline

  datatype Limits = Limits(checkpoints: nat, snapshots: nat, bytes: nat)

  /** A tool target after path resolution. */
  datatype Resolved = Outside(raw: string, why: string) | Relative(path: Path)

  function Capture(ws: Workspace, p: Path): FileState {
    if p in ws then ws[p] else Skipped("cannot bind workspace path safely")
  }

  // ----- pre-images ------------------------------------------------------------

  datatype Capturing = Capturing(targets: seq<Target>, snapshots: nat, bytes: nat, blobs: set<Digest>)

  function CaptureOne(acc: Capturing, ws: Workspace, r: Resolved, lim: Limits): Capturing {
    match r
    case Outside(raw, why) => acc.(targets := acc.targets + [Unsafe(raw, why)])
    case Relative(p) =>
      if acc.snapshots >= lim.snapshots then
        acc.(targets := acc.targets + [Tracked(p, Skipped("checkpoint exceeds snapshot limit"))])
      else
        match Capture(ws, p)
        case Regular(g, m, i, d) =>
          if acc.bytes + |g| > lim.bytes then
            acc.(targets := acc.targets + [Tracked(p, Skipped("checkpoint exceeds total byte limit"))])
          else
            Capturing(acc.targets + [Tracked(p, Regular(g, m, i, d))],
                      acc.snapshots + 1, acc.bytes + |g|, acc.blobs + {g})
        case Absent(d) =>
          acc.(targets := acc.targets + [Tracked(p, Absent(d))], snapshots := acc.snapshots + 1)
        case Skipped(why) =>
          acc.(targets := acc.targets + [Tracked(p, Skipped(why))])
  }

  function CaptureAll(ws: Workspace, rs: seq<Resolved>, snapshots: nat, bytes: nat, lim: Limits): Capturing {
    if rs == [] then Capturing([], snapshots, bytes, {})
    else CaptureOne(CaptureAll(ws, rs[..|rs| - 1], snapshots, bytes, lim), ws, rs[|rs| - 1], lim)
  }

  predicate IsPending(ps: seq<Pending>, id: Id, call: CallId) {
    exists i | 0 <= i < |ps| :: ps[i].checkpoint == id && ps[i].call == call
  }

  function Warn(d: Disk, id: Id, path: Path, reason: string): Disk
    requires id in d.manifests
  {
    var m := d.manifests[id];
    d.(manifests := d.manifests[id := m.(warnings := m.warnings + [Warning(path, reason)])])
  }

  function PreDisk(d: Disk, ws: Workspace, id: Id, call: CallId, rs: seq<Resolved>, lim: Limits): Disk
    requires id in d.manifests
  {
    if call == "" then Warn(d, id, UNKNOWN_PATH, "call lacked tool_call_id")
    else if IsPending(d.pending, id, call) then Warn(d, id, UNKNOWN_PATH, "duplicate tool_call_id")
    else if rs == [] then Warn(d, id, UNKNOWN_PATH, "could not resolve targets")
    else
      var m := d.manifests[id];
      var acc := CaptureAll(ws, rs, m.snapshots, m.bytes, lim);
      d.(blobs := d.blobs + acc.blobs,
         manifests := d.manifests[id := m.(snapshots := acc.snapshots, bytes := acc.bytes)],
         pending := Without(d.pending, id, call) + [Pending(id, call, acc.targets)])
  }

  // ----- after-images ----------------------------------------------------------

  function TargetWarnings(ws: Workspace, ts: seq<Target>): seq<Warning> {
    if ts == [] then []
    else
      var rest := TargetWarnings(ws, ts[..|ts| - 1]);
      match ts[|ts| - 1]
      case Unsafe(raw, why) => rest + [Warning(raw, why)]
      case Tracked(p, before) =>
        if before.Skipped? then rest + [Warning(p, before.reason)]
        else if Capture(ws, p).Skipped? then rest + [Warning(p, Capture(ws, p).reason)]
        else rest
  }

  function TargetChanges(ws: Workspace, ts: seq<Target>): seq<Change> {
    if ts == [] then []
    else
      var rest := TargetChanges(ws, ts[..|ts| - 1]);
      match ts[|ts| - 1]
      case Unsafe(_, _) => rest
      case Tracked(p, before) =>
        var after := Capture(ws, p);
        if before.Skipped? || after.Skipped? || SameImage(before, after) then rest
        else rest + [Change(p, before, after)]
  }

  function PostDisk(d: Disk, ws: Workspace, r: Pending): Disk
    requires r.checkpoint in d.manifests
  {
    var m := d.manifests[r.checkpoint];
    d.(manifests := d.manifests[r.checkpoint :=
         m.(operations := m.operations + [Operation(r.call, TargetChanges(ws, r.targets))],
            warnings := m.warnings + TargetWarnings(ws, r.targets))],
       pending := Without(d.pending, r.checkpoint, r.call))
  }

  // ----- finishing, pruning, garbage -----------------------------------------------

  function UnfinishedTargets(call: CallId, ts: seq<Target>): seq<Warning> {
    if ts == [] then []
    else
      var path := match ts[|ts| - 1] case Unsafe(raw, _) => raw case Tracked(p, _) => p;
      UnfinishedTargets(call, ts[..|ts| - 1]) +
      [Warning(path, "unfinished tool call " + call + "; not restorable")]
  }

  function Unfinished(ps: seq<Pending>, id: Id): seq<Warning> {
    if ps == [] then []
    else
      var p := ps[|ps| - 1];
      Unfinished(ps[..|ps| - 1], id) +
      (if p.checkpoint == id then UnfinishedTargets(p.call, p.targets) else [])
  }

  function WithoutCheckpoint(ps: seq<Pending>, id: Id): seq<Pending> {
    if ps == [] then []
    else
      var rest := WithoutCheckpoint(ps[..|ps| - 1], id);
      if ps[|ps| - 1].checkpoint == id then rest else rest + [ps[|ps| - 1]]
  }

  function Finalized(d: Disk, id: Id): Disk
    requires id in d.manifests
  {
    var m := d.manifests[id];
    d.(manifests := d.manifests[id := m.(finished := true, warnings := m.warnings + Unfinished(d.pending, id))],
       pending := WithoutCheckpoint(d.pending, id))
  }

  /** Finalize every checkpoint of the list that a crash left unfinished. */
  function FinalizedAll(d: Disk, ids: seq<Id>): (r: Disk)
    requires forall i | 0 <= i < |ids| :: ids[i] in d.manifests
    ensures r.manifests.Keys == d.manifests.Keys
    ensures r.index == d.index && r.blobs == d.blobs && r.transaction == d.transaction
  {
    if ids == [] then d
    else
      var r := FinalizedAll(d, ids[..|ids| - 1]);
      var id := ids[|ids| - 1];
      if r.manifests[id].finished then r else Finalized(r, id)
  }

  predicate StateRefers(s: FileState, g: Digest) { s.Regular? && s.digest == g }

  predicate ChangesRefer(cs: seq<Change>, g: Digest) {
    exists i | 0 <= i < |cs| :: StateRefers(cs[i].before, g) || StateRefers(cs[i].after, g)
  }

  predicate ManifestRefers(m: Manifest, g: Digest) {
    exists i | 0 <= i < |m.operations| :: ChangesRefer(m.operations[i].changes, g)
  }

  predicate PendingRefers(p: Pending, g: Digest) {
    exists i | 0 <= i < |p.targets| :: p.targets[i].Tracked? && StateRefers(p.targets[i].before, g)
  }

  predicate Referenced(d: Disk, g: Digest) {
    || (exists id | id in d.manifests :: ManifestRefers(d.manifests[id], g))
    || (exists i | 0 <= i < |d.pending| :: PendingRefers(d.pending[i], g))
  }

  function Collected(d: Disk): Disk {
    d.(blobs := set g | g in d.blobs && Referenced(d, g))
  }

  function WithoutCheckpoints(ps: seq<Pending>, ids: seq<Id>): seq<Pending> {
    if ids == [] then ps
    else WithoutCheckpoint(WithoutCheckpoints(ps, ids[..|ids| - 1]), ids[|ids| - 1])
  }

  function IdSet(ids: seq<Id>): set<Id> { set id | id in ids }

  function Pruned(d: Disk, keep: nat): Disk {
    if |d.index.order| <= keep then d
    else
      var excess := |d.index.order| - keep;
      var removed := d.index.order[..excess];
      Collected(d.(index := d.index.(order := d.index.order[excess..]),
                   manifests := d.manifests - IdSet(removed),
                   pending := WithoutCheckpoints(d.pending, removed)))
  }

  function Begun(d: Disk, id: Id): Disk {
    d.(manifests := d.manifests[id := EmptyManifest()],
       index := Index(d.index.order + [id], d.index.used + [id]))
  }

  // ----- history after a restore or a hidden branch -----------------------------------

  /** Manifests of some ids, in that order. */
  function Ordered<T>(ms: map<Id, T>, ids: seq<Id>): (r: seq<T>)
    requires forall i | 0 <= i < |ids| :: ids[i] in ms
    ensures |r| == |ids|
    ensures forall i | 0 <= i < |ids| :: r[i] == ms[ids[i]]
  {
    if ids == [] then [] else Ordered(ms, ids[..|ids| - 1]) + [ms[ids[|ids| - 1]]]
  }

  function Zip(ids: seq<Id>, ms: seq<Manifest>): (r: seq<Entry>)
    requires |ids| == |ms|
    ensures |r| == |ids|
    ensures forall i | 0 <= i < |ids| :: r[i] == Entry(ids[i], ms[i])
  {
    if ids == [] then [] else Zip(ids[..|ids| - 1], ms[..|ms| - 1]) + [Entry(ids[|ids| - 1], ms[|ms| - 1])]
  }

  /** Only changes of unresolved paths stay in a partially restored branch. */
  function KeepChanges(cs: seq<Change>, unresolved: set<Path>): seq<Change> {
    if cs == [] then []
    else
      var rest := KeepChanges(cs[..|cs| - 1], unresolved);
      if cs[|cs| - 1].path in unresolved then rest + [cs[|cs| - 1]] else rest
  }

  function KeepOps(ops: seq<Operation>, unresolved: set<Path>): seq<Operation> {
    if ops == [] then []
    else
      var op := ops[|ops| - 1];
      KeepOps(ops[..|ops| - 1], unresolved) + [op.(changes := KeepChanges(op.changes, unresolved))]
  }

  function KeepAll(ms: seq<Manifest>, unresolved: set<Path>): (r: seq<Manifest>)
    ensures |r| == |ms|
  {
    if ms == [] then []
    else
      var m := ms[|ms| - 1];
      KeepAll(ms[..|ms| - 1], unresolved) + [m.(operations := KeepOps(m.operations, unresolved))]
  }

  function Copies(m: Manifest, n: nat): (r: seq<Manifest>)
    ensures |r| == n
    ensures forall i | 0 <= i < n :: r[i] == m
  {
    if n == 0 then [] else Copies(m, n - 1) + [m]
  }

  /** The commit that hides everything after the first kept checkpoints. */
  function FoldTransaction(d: Disk, kept: nat): Transaction
    requires kept <= |d.index.order|
    requires forall i | 0 <= i < |d.index.order| :: d.index.order[i] in d.manifests
  {
    var order := d.index.order;
    var hidden := order[kept..];
    var retired := Zip(hidden, Copies(RetiredManifest(), |hidden|));
    var base :=
      if kept == 0 then []
      else [Entry(order[kept - 1], Merged(d.manifests[order[kept - 1]], Ordered(d.manifests, hidden)))];
    Transaction(Index(order[..kept], d.index.used), base + retired)
  }

  /** Storage after the visible branch ends at the first kept checkpoints. */
  function FoldDisk(d: Disk, kept: nat): Disk
    requires kept <= |d.index.order|
    requires forall i | 0 <= i < |d.index.order| :: d.index.order[i] in d.manifests
  {
    var order := d.index.order;
    if kept == |order| then d
    else
      var d1 := if kept == 0 then d else FinalizedAll(d, order[kept - 1..]);
      FinalizedAllKeeps(d, if kept == 0 then [] else order[kept - 1..]);
      var d2 := Committed(d1, FoldTransaction(d1, kept));
      Collected(d2.(pending := WithoutCheckpoints(d2.pending, order[kept..])))
  }

  lemma {:induction false} FinalizedAllKeeps(d: Disk, ids: seq<Id>)
    requires forall i | 0 <= i < |ids| :: ids[i] in d.manifests
    ensures forall id | id in d.manifests ::
              FinalizedAll(d, ids).manifests[id].operations == d.manifests[id].operations &&
              FinalizedAll(d, ids).manifests[id].retired == d.manifests[id].retired
  {
    if ids != [] {
      FinalizedAllKeeps(d, ids[..|ids| - 1]);
    }
  }

  /** Ids of the index that the conversation still shows. */
  function VisibleOf(order: seq<Id>, visible: set<Id>): seq<Id> {
    if order == [] then []
    else
      var rest := VisibleOf(order[..|order| - 1], visible);
      if order[|order| - 1] in visible then rest + [order[|order| - 1]] else rest
  }
}
