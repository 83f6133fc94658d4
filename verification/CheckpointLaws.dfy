/** What the store owes every target of a tool call: it is captured if it can be, its change is
    recorded, and whatever could not be captured or recorded is warned about, for as long as the
    checkpoint can be restored. */
module CheckpointLaws {
  import opened CheckpointData
  import opened Lineage
  import opened CheckpointDisk
  import opened CheckpointSpec
  import opened CheckpointSafety
  import opened RestoreFates
  import Sequences

  // ----- tool:pre ---------------------------------------------------------------------------

  predicate Taken(t: Target) { t.Tracked? && !t.before.Skipped? }

  function SizeOf(s: FileState): nat { if s.Regular? then |s.digest| else 0 }

  function TakenCount(ts: seq<Target>): nat {
    if ts == [] then 0 else TakenCount(ts[..|ts| - 1]) + if Taken(ts[|ts| - 1]) then 1 else 0
  }

  function TakenBytes(ts: seq<Target>): nat {
    if ts == [] then 0
    else TakenBytes(ts[..|ts| - 1]) + if Taken(ts[|ts| - 1]) then SizeOf(ts[|ts| - 1].before) else 0
  }

  predicate TakenDigest(ts: seq<Target>, g: Digest) {
    exists i | 0 <= i < |ts| :: Taken(ts[i]) && ts[i].before.Regular? && ts[i].before.digest == g
  }

  predicate Room(s: FileState, snapshots: nat, bytes: nat, lim: Limits) {
    !s.Skipped? && snapshots < lim.snapshots && bytes + SizeOf(s) <= lim.bytes
  }

  /** A path is refused for three reasons only: it cannot be captured, or with what the checkpoint holds
      already it is one snapshot or some bytes too many.  Otherwise it is held as it is. */
  predicate TargetOf(ws: Workspace, r: Resolved, t: Target, snapshots: nat, bytes: nat, lim: Limits) {
    match r
    case Outside(raw, why) => t == Unsafe(raw, why)
    case Relative(p) =>
      && t.Tracked? && t.path == p
      && (Taken(t) <==> Room(Capture(ws, p), snapshots, bytes, lim))
      && (Taken(t) ==> t.before == Capture(ws, p))
  }

  /** Every target is dealt with in order, against what is held before it; the counters count what is
      held, and exactly the bytes of held files are stored. */
  ghost predicate CapturedAll(ws: Workspace, rs: seq<Resolved>, acc: Capturing, snapshots: nat, bytes: nat,
                              lim: Limits)
  {
    && |acc.targets| == |rs|
    && acc.snapshots == snapshots + TakenCount(acc.targets)
    && acc.bytes == bytes + TakenBytes(acc.targets)
    && (forall g :: g in acc.blobs <==> TakenDigest(acc.targets, g))
    && (forall i | 0 <= i < |rs| :: TargetAt(ws, rs, acc.targets, i, snapshots, bytes, lim))
  }

  predicate TargetAt(ws: Workspace, rs: seq<Resolved>, ts: seq<Target>, i: nat, snapshots: nat, bytes: nat, lim: Limits)
    requires i < |rs| == |ts|
  {
    TargetOf(ws, rs[i], ts[i], snapshots + TakenCount(ts[..i]), bytes + TakenBytes(ts[..i]), lim)
  }

  lemma {:induction false} CaptureLaw(ws: Workspace, rs: seq<Resolved>, snapshots: nat, bytes: nat, lim: Limits)
    requires bytes <= lim.bytes
    ensures CapturedAll(ws, rs, CaptureAll(ws, rs, snapshots, bytes, lim), snapshots, bytes, lim)
    ensures CaptureAll(ws, rs, snapshots, bytes, lim).bytes <= lim.bytes
  {
    if rs != [] {
      var n := |rs| - 1;
      CaptureLaw(ws, rs[..n], snapshots, bytes, lim);
      CaptureStep(ws, rs, CaptureAll(ws, rs[..n], snapshots, bytes, lim), snapshots, bytes, lim);
    }
  }

  lemma OneTarget(acc: Capturing, ws: Workspace, r: Resolved, lim: Limits)
    requires acc.bytes <= lim.bytes
    ensures var next := CaptureOne(acc, ws, r, lim); var n := |acc.targets|;
            && |next.targets| == n + 1 && next.targets == acc.targets + [next.targets[n]]
            && var t := next.targets[n];
            && TargetOf(ws, r, t, acc.snapshots, acc.bytes, lim)
            && next.snapshots == acc.snapshots + (if Taken(t) then 1 else 0)
            && next.bytes == acc.bytes + (if Taken(t) then SizeOf(t.before) else 0) && next.bytes <= lim.bytes
            && next.blobs == acc.blobs + (if Taken(t) && t.before.Regular? then {t.before.digest} else {})
  {
  }

  lemma CaptureStep(ws: Workspace, rs: seq<Resolved>, acc: Capturing, snapshots: nat, bytes: nat, lim: Limits)
    requires rs != [] && acc.bytes <= lim.bytes
    requires CapturedAll(ws, rs[..|rs| - 1], acc, snapshots, bytes, lim) == true
    ensures CapturedAll(ws, rs, CaptureOne(acc, ws, rs[|rs| - 1], lim), snapshots, bytes, lim)
    ensures CaptureOne(acc, ws, rs[|rs| - 1], lim).bytes <= lim.bytes
  {
    var n := |rs| - 1;
    OneTarget(acc, ws, rs[n], lim);
    var next := CaptureOne(acc, ws, rs[n], lim);
    OneMoreTaken(ws, rs, acc, next, next.targets[n], snapshots, bytes, lim);
  }

  lemma OneMoreTaken(ws: Workspace, rs: seq<Resolved>, acc: Capturing, next: Capturing, t: Target, snapshots: nat,
                    bytes: nat, lim: Limits)
    requires rs != [] && CapturedAll(ws, rs[..|rs| - 1], acc, snapshots, bytes, lim) == true
    requires next.targets == acc.targets + [t]
    requires TargetOf(ws, rs[|rs| - 1], t, acc.snapshots, acc.bytes, lim) == true
    requires next.snapshots == acc.snapshots + (if Taken(t) then 1 else 0)
    requires next.bytes == acc.bytes + (if Taken(t) then SizeOf(t.before) else 0)
    requires next.blobs == acc.blobs + (if Taken(t) && t.before.Regular? then {t.before.digest} else {})
    ensures CapturedAll(ws, rs, next, snapshots, bytes, lim)
  {
    TakenSnoc(acc.targets, t);
    forall i | 0 <= i < |rs| ensures TargetAt(ws, rs, next.targets, i, snapshots, bytes, lim) {
      if i < |rs| - 1 {
        assert TargetAt(ws, rs[..|rs| - 1], acc.targets, i, snapshots, bytes, lim);
        EarlierTarget(ws, rs, acc.targets, t, i, snapshots, bytes, lim);
      } else {
        assert next.targets[..i] == acc.targets;
      }
    }
  }

  lemma EarlierTarget(ws: Workspace, rs: seq<Resolved>, ts: seq<Target>, t: Target, i: nat, snapshots: nat, bytes: nat,
                      lim: Limits)
    requires i < |ts| == |rs| - 1 && TargetAt(ws, rs[..|rs| - 1], ts, i, snapshots, bytes, lim)
    ensures TargetAt(ws, rs, ts + [t], i, snapshots, bytes, lim)
  {
    assert (ts + [t])[..i] == ts[..i];
  }

  lemma TakenSnoc(ts: seq<Target>, t: Target)
    ensures TakenCount(ts + [t]) == TakenCount(ts) + if Taken(t) then 1 else 0
    ensures TakenBytes(ts + [t]) == TakenBytes(ts) + if Taken(t) then SizeOf(t.before) else 0
    ensures forall g :: TakenDigest(ts + [t], g) <==>
              TakenDigest(ts, g) || (Taken(t) && t.before.Regular? && t.before.digest == g)
  {
    Sequences.Appended(ts, t);
    forall g
      ensures TakenDigest(ts + [t], g) <==>
                TakenDigest(ts, g) || (Taken(t) && t.before.Regular? && t.before.digest == g)
    {
      if i :| 0 <= i < |ts| && Taken(ts[i]) && ts[i].before.Regular? && ts[i].before.digest == g {
        assert (ts + [t])[i] == ts[i];
      }
      if Taken(t) && t.before.Regular? && t.before.digest == g { assert (ts + [t])[|ts|] == t; }
    }
  }

  // ----- a call that fits -----------------------------------------------------------------------

  function RelativeTargets(paths: seq<Path>): (r: seq<Resolved>)
    ensures |r| == |paths|
    ensures forall i | 0 <= i < |paths| :: r[i] == Relative(paths[i])
  {
    if paths == [] then [] else RelativeTargets(paths[..|paths| - 1]) + [Relative(paths[|paths| - 1])]
  }

  function SizesOf(ws: Workspace, paths: seq<Path>): nat {
    if paths == [] then 0
    else SizesOf(ws, paths[..|paths| - 1]) + SizeOf(Capture(ws, paths[|paths| - 1]))
  }

  /** Every path can be captured, and the checkpoint has room for all of them. */
  predicate CallFits(ws: Workspace, paths: seq<Path>, snapshots: nat, bytes: nat, lim: Limits) {
    && (forall p | p in paths :: p in ws && !ws[p].Skipped?)
    && snapshots + |paths| <= lim.snapshots && bytes + SizesOf(ws, paths) <= lim.bytes
  }

  /** All targets are held as they are, and both counters grow by exactly that. */
  predicate AllTaken(ws: Workspace, paths: seq<Path>, acc: Capturing, snapshots: nat, bytes: nat) {
    && |acc.targets| == |paths|
    && (forall i | 0 <= i < |paths| :: paths[i] in ws && acc.targets[i] == Tracked(paths[i], ws[paths[i]])
                                       && !ws[paths[i]].Skipped?)
    && acc.snapshots == snapshots + |paths| && acc.bytes == bytes + SizesOf(ws, paths)
  }

  /** A call is captured completely exactly if it fits. */
  lemma {:induction false} FitsExactly(ws: Workspace, paths: seq<Path>, snapshots: nat, bytes: nat, lim: Limits)
    requires snapshots <= lim.snapshots && bytes <= lim.bytes
    ensures var acc := CaptureAll(ws, RelativeTargets(paths), snapshots, bytes, lim);
            && (CallFits(ws, paths, snapshots, bytes, lim) ==> AllTaken(ws, paths, acc, snapshots, bytes))
            && ((forall i | 0 <= i < |acc.targets| :: Taken(acc.targets[i])) ==>
                  CallFits(ws, paths, snapshots, bytes, lim))
  {
    if paths != [] {
      var n := |paths| - 1;
      var front, p := paths[..n], paths[n];
      var acc := CaptureAll(ws, RelativeTargets(front), snapshots, bytes, lim);
      FitsExactly(ws, front, snapshots, bytes, lim);
      CaptureLaw(ws, RelativeTargets(front), snapshots, bytes, lim);
      assert RelativeTargets(paths)[..n] == RelativeTargets(front);
      FitsStep(ws, paths, acc, CaptureOne(acc, ws, Relative(p), lim), snapshots, bytes, lim);
    }
  }

  lemma FitsStep(ws: Workspace, paths: seq<Path>, acc: Capturing, next: Capturing, snapshots: nat, bytes: nat,
                 lim: Limits)
    requires paths != [] && |acc.targets| == |paths| - 1
    requires next == CaptureOne(acc, ws, Relative(paths[|paths| - 1]), lim)
    requires CallFits(ws, paths[..|paths| - 1], snapshots, bytes, lim) ==>
               AllTaken(ws, paths[..|paths| - 1], acc, snapshots, bytes)
    requires (forall i | 0 <= i < |acc.targets| :: Taken(acc.targets[i])) ==>
               CallFits(ws, paths[..|paths| - 1], snapshots, bytes, lim)
    ensures CallFits(ws, paths, snapshots, bytes, lim) ==> AllTaken(ws, paths, next, snapshots, bytes)
    ensures (forall i | 0 <= i < |next.targets| :: Taken(next.targets[i])) ==>
              CallFits(ws, paths, snapshots, bytes, lim)
  {
    var n := |paths| - 1;
    Sequences.Snoc(paths);
    if CallFits(ws, paths, snapshots, bytes, lim) {
      assert forall p | p in paths[..n] :: p in paths;
      assert paths[n] in paths;
      assert AllTaken(ws, paths[..n], acc, snapshots, bytes);
      forall i | 0 <= i < n ensures next.targets[i] == Tracked(paths[i], ws[paths[i]]) && !ws[paths[i]].Skipped? {
        assert paths[..n][i] == paths[i];
      }
    }
    if forall i | 0 <= i < |next.targets| :: Taken(next.targets[i]) {
      forall i | 0 <= i < |acc.targets| ensures Taken(acc.targets[i]) { assert next.targets[i] == acc.targets[i]; }
      assert Taken(next.targets[n]);
    }
  }

  /** The record that cannot be made is a warning that spoils the checkpoint's whole range. */
  ghost predicate PreHook(d: Disk, d': Disk, ws: Workspace, id: Id, call: CallId, rs: seq<Resolved>, lim: Limits)
    requires id in d.manifests
  {
    var m := d.manifests[id];
    if call == "" || (exists r | r in d.pending :: r.checkpoint == id && r.call == call) || rs == [] then
      exists reason :: d' == d.(manifests := d.manifests[id :=
                                  m.(warnings := m.warnings + [Warning(UNKNOWN_PATH, reason)])])
    else
      exists acc: Capturing ::
        && CapturedAll(ws, rs, acc, m.snapshots, m.bytes, lim)
        && d' == d.(blobs := d.blobs + acc.blobs,
                    manifests := d.manifests[id := m.(snapshots := acc.snapshots, bytes := acc.bytes)],
                    pending := d'.pending)
        && forall r :: r in d'.pending <==> r in d.pending || r == Pending(id, call, acc.targets)
  }

  lemma PreHookLaw(d: Disk, ws: Workspace, id: Id, call: CallId, rs: seq<Resolved>, lim: Limits)
    requires id in d.manifests && d.manifests[id].bytes <= lim.bytes
    ensures PreHook(d, PreDisk(d, ws, id, call, rs, lim), ws, id, call, rs, lim) == true
  {
    var d', m := PreDisk(d, ws, id, call, rs, lim), d.manifests[id];
    if call == "" || IsPending(d.pending, id, call) || rs == [] {
      if r :| r in d.pending && r.checkpoint == id && r.call == call {
        var i :| 0 <= i < |d.pending| && d.pending[i] == r;
      }
      var reason := d'.manifests[id].warnings[|m.warnings|].reason;
      assert d' == d.(manifests := d.manifests[id := m.(warnings := m.warnings + [Warning(UNKNOWN_PATH, reason)])]);
    } else {
      var acc := CaptureAll(ws, rs, m.snapshots, m.bytes, lim);
      CaptureLaw(ws, rs, m.snapshots, m.bytes, lim);
      NoSuchRecord(d.pending, id, call);
      assert forall r :: r in d'.pending <==> r in d.pending || r == Pending(id, call, acc.targets);
    }
  }

  lemma {:induction false} NoSuchRecord(ps: seq<Pending>, id: Id, call: CallId)
    requires !IsPending(ps, id, call)
    ensures Without(ps, id, call) == ps
    ensures forall r | r in ps :: !(r.checkpoint == id && r.call == call)
  {
    if ps != [] {
      var n := |ps| - 1;
      assert !(ps[n].checkpoint == id && ps[n].call == call);
      forall i | 0 <= i < n ensures ps[..n][i] == ps[i] {}
      NoSuchRecord(ps[..n], id, call);
      Sequences.Snoc(ps);
    }
  }

  // ----- tool:post ------------------------------------------------------------------------------

  /** What becomes of one target: it is warned about, or unchanged, or its change is recorded. */
  predicate Settled(ws: Workspace, t: Target, changes: seq<Change>, warnings: seq<Warning>) {
    match t
    case Unsafe(raw, _) => Warned(warnings, raw)
    case Tracked(p, before) =>
      if before.Skipped? || Capture(ws, p).Skipped? then Warned(warnings, p)
      else SameImage(before, Capture(ws, p)) || Change(p, before, Capture(ws, p)) in changes
  }

  /** A recorded change is that of some target. */
  predicate ChangeOf(ws: Workspace, ts: seq<Target>, c: Change) {
    && Tracked(c.path, c.before) in ts && c.after == Capture(ws, c.path)
    && !c.before.Skipped? && !c.after.Skipped? && !SameImage(c.before, c.after)
  }

  /** A warning is that of some target. */
  predicate WarningOf(ws: Workspace, ts: seq<Target>, w: Warning) {
    exists i | 0 <= i < |ts| ::
      match ts[i]
      case Unsafe(raw, why) => w == Warning(raw, why)
      case Tracked(p, before) =>
        w.path == p && (before == Skipped(w.reason) || Capture(ws, p) == Skipped(w.reason))
  }

  ghost predicate AllSettled(ws: Workspace, ts: seq<Target>, changes: seq<Change>, warnings: seq<Warning>) {
    && (forall t | t in ts :: Settled(ws, t, changes, warnings))
    && (forall c | c in changes :: ChangeOf(ws, ts, c))
    && (forall w | w in warnings :: WarningOf(ws, ts, w))
  }

  lemma {:induction false} SettledLaw(ws: Workspace, ts: seq<Target>)
    ensures AllSettled(ws, ts, TargetChanges(ws, ts), TargetWarnings(ws, ts))
  {
    if ts != [] {
      var n := |ts| - 1;
      SettledLaw(ws, ts[..n]);
      Sequences.Snoc(ts);
      LastSettled(ws, ts);
      SettledStep(ws, ts[..n], ts[n], TargetChanges(ws, ts[..n]), TargetWarnings(ws, ts[..n]),
                  TargetChanges(ws, ts), TargetWarnings(ws, ts));
    }
  }

  /** The last target settled. */
  lemma LastSettled(ws: Workspace, ts: seq<Target>)
    requires ts != []
    ensures var n := |ts| - 1; var t := ts[n];
            var cs, ws0 := TargetChanges(ws, ts[..n]), TargetWarnings(ws, ts[..n]);
            var cs', ws' := TargetChanges(ws, ts), TargetWarnings(ws, ts);
            && cs <= cs' && ws0 <= ws' && Settled(ws, t, cs', ws')
            && (forall c | c in cs'[|cs|..] :: ChangeOf(ws, [t], c))
            && (forall w | w in ws'[|ws0|..] :: WarningOf(ws, [t], w))
  {
    var n := |ts| - 1;
    var t := ts[n];
    var cs, ws0 := TargetChanges(ws, ts[..n]), TargetWarnings(ws, ts[..n]);
    var cs', ws' := TargetChanges(ws, ts), TargetWarnings(ws, ts);
    if |ws'| > |ws0| { assert [t][0] == t && ws'[|ws0|].path == (if t.Unsafe? then t.raw else t.path); }
    if |cs'| > |cs| { assert cs'[|cs|] == Change(t.path, t.before, Capture(ws, t.path)); }
  }

  lemma SettledStep(ws: Workspace, ts: seq<Target>, t: Target, changes: seq<Change>, warnings: seq<Warning>,
                    changes': seq<Change>, warnings': seq<Warning>)
    requires AllSettled(ws, ts, changes, warnings) && changes <= changes' && warnings <= warnings'
    requires Settled(ws, t, changes', warnings')
    requires forall c | c in changes'[|changes|..] :: ChangeOf(ws, [t], c)
    requires forall w | w in warnings'[|warnings|..] :: WarningOf(ws, [t], w)
    ensures AllSettled(ws, ts + [t], changes', warnings')
  {
    assert changes' == changes + changes'[|changes|..] && warnings' == warnings + warnings'[|warnings|..];
    forall u | u in ts + [t] ensures Settled(ws, u, changes', warnings') {
      if u in ts {
        assert Settled(ws, u, changes, warnings);
        WarnedStays(warnings, warnings', if u.Unsafe? then u.raw else u.path);
      }
    }
    forall c | c in changes' ensures ChangeOf(ws, ts + [t], c) {
      if c in changes { assert ChangeOf(ws, ts, c); } else { assert ChangeOf(ws, [t], c); }
    }
    forall w | w in warnings' ensures WarningOf(ws, ts + [t], w) {
      if w in warnings { assert WarningOf(ws, ts, w); } else { assert WarningOf(ws, [t], w); }
      WarningMore(ws, ts, t, w);
    }
  }

  lemma WarningMore(ws: Workspace, ts: seq<Target>, t: Target, w: Warning)
    requires WarningOf(ws, ts, w) || WarningOf(ws, [t], w)
    ensures WarningOf(ws, ts + [t], w)
  {
    var more := ts + [t];
    if WarningOf(ws, ts, w) {
      forall i | 0 <= i < |ts| ensures more[i] == ts[i] {}
    } else {
      assert more[|ts|] == t && [t][0] == t;
    }
  }

  lemma WarnedStays(warnings: seq<Warning>, more: seq<Warning>, p: Path)
    requires warnings <= more
    ensures Warned(warnings, p) ==> Warned(more, p)
  {
    if i :| 0 <= i < |warnings| && warnings[i].path == p { assert more[i].path == p; }
  }

  /** What the hook after a call does to the manifest of its record. */
  ghost predicate AfterHook(m: Manifest, m': Manifest, ws: Workspace, r: Pending) {
    exists changes: seq<Change>, warnings: seq<Warning> ::
      && AllSettled(ws, r.targets, changes, warnings)
      && m' == m.(operations := m.operations + [Operation(r.call, changes)], warnings := m.warnings + warnings)
  }

  /** Exactly the records of this checkpoint and call are gone. */
  ghost predicate RecordDone(ps: seq<Pending>, ps': seq<Pending>, r: Pending) {
    forall q :: q in ps' <==> q in ps && !(q.checkpoint == r.checkpoint && q.call == r.call)
  }

  ghost predicate PostHook(d: Disk, d': Disk, ws: Workspace, r: Pending)
    requires r.checkpoint in d.manifests
  {
    && r.checkpoint in d'.manifests
    && d' == d.(manifests := d.manifests[r.checkpoint := d'.manifests[r.checkpoint]], pending := d'.pending)
    && AfterHook(d.manifests[r.checkpoint], d'.manifests[r.checkpoint], ws, r)
    && RecordDone(d.pending, d'.pending, r)
  }

  lemma PostHookLaw(d: Disk, ws: Workspace, r: Pending)
    requires r.checkpoint in d.manifests
    ensures PostHook(d, PostDisk(d, ws, r), ws, r)
  {
    SettledLaw(ws, r.targets);
    WithoutMembers(d.pending, r.checkpoint, r.call);
    var d' := PostDisk(d, ws, r);
    assert d'.manifests[r.checkpoint] ==
           d.manifests[r.checkpoint].(
             operations := d.manifests[r.checkpoint].operations + [Operation(r.call, TargetChanges(ws, r.targets))],
             warnings := d.manifests[r.checkpoint].warnings + TargetWarnings(ws, r.targets));
  }

  // ----- calls that never finished ---------------------------------------------------------------

  function PathOf(t: Target): Path { match t case Unsafe(raw, _) => raw case Tracked(p, _) => p }

  /** Finished, with warnings for what was still open and nothing else changed. */
  ghost predicate Closing(m: Manifest, m': Manifest, ps: seq<Pending>, id: Id) {
    exists warnings: seq<Warning> ::
      && m' == m.(finished := true, warnings := m.warnings + warnings)
      && Concern(ps, id, warnings)
  }

  predicate Open(ps: seq<Pending>, id: Id, p: Path) {
    exists i, k | 0 <= i < |ps| && 0 <= k < |ps[i].targets| :: ps[i].checkpoint == id && PathOf(ps[i].targets[k]) == p
  }

  lemma {:induction false} UnfinishedTargetsLaw(call: CallId, ts: seq<Target>)
    ensures |UnfinishedTargets(call, ts)| == |ts|
    ensures forall i | 0 <= i < |ts| :: UnfinishedTargets(call, ts)[i].path == PathOf(ts[i])
  {
    if ts != [] { UnfinishedTargetsLaw(call, ts[..|ts| - 1]); }
  }

  /** Every path of a record of the checkpoint is warned about, and no other. */
  ghost predicate Concern(ps: seq<Pending>, id: Id, warnings: seq<Warning>) {
    && (forall r, t | r in ps && r.checkpoint == id && t in r.targets :: Warned(warnings, PathOf(t)))
    && (forall w | w in warnings :: Open(ps, id, w.path))
  }

  lemma {:induction false} UnfinishedLaw(ps: seq<Pending>, id: Id)
    ensures Concern(ps, id, Unfinished(ps, id))
  {
    if ps != [] {
      var n := |ps| - 1;
      UnfinishedLaw(ps[..n], id);
      UnfinishedTargetsLaw(ps[n].call, ps[n].targets);
      Sequences.Snoc(ps);
      ConcernStep(ps, id, Unfinished(ps[..n], id), Unfinished(ps, id));
    }
  }

  lemma ConcernStep(ps: seq<Pending>, id: Id, warnings: seq<Warning>, more: seq<Warning>)
    requires ps != [] && Concern(ps[..|ps| - 1], id, warnings)
    requires var r := ps[|ps| - 1];
             && warnings <= more && |more| == |warnings| + (if r.checkpoint == id then |r.targets| else 0)
             && forall k | 0 <= k < |more| - |warnings| :: more[|warnings| + k].path == PathOf(r.targets[k])
    ensures Concern(ps, id, more)
  {
    var n := |ps| - 1;
    forall r, t | r in ps && r.checkpoint == id && t in r.targets ensures Warned(more, PathOf(t)) {
      if r in ps[..n] {
        WarnedStays(warnings, more, PathOf(t));
      } else {
        var k :| 0 <= k < |r.targets| && r.targets[k] == t;
        assert more[|warnings| + k].path == PathOf(t);
      }
    }
    forall w | w in more ensures Open(ps, id, w.path) {
      var k :| 0 <= k < |more| && more[k] == w;
      if k < |warnings| {
        assert warnings[k] in warnings;
        var i, l :| 0 <= i < n && 0 <= l < |ps[..n][i].targets| &&
                    ps[..n][i].checkpoint == id && PathOf(ps[..n][i].targets[l]) == w.path;
        assert ps[..n][i] == ps[i];
      } else {
        assert PathOf(ps[n].targets[k - |warnings|]) == w.path;
      }
    }
  }

  lemma {:induction false} OthersPending(ps: seq<Pending>, id: Id)
    ensures forall r :: r in WithoutCheckpoint(ps, id) <==> r in ps && r.checkpoint != id
  {
    if ps != [] {
      Sequences.Snoc(ps);
      OthersPending(ps[..|ps| - 1], id);
    }
  }

  /** Finished: what was still open is warned about, and its records are gone. */
  ghost predicate Finishes(d: Disk, d': Disk, id: Id)
    requires id in d.manifests
  {
    && id in d'.manifests
    && d' == d.(manifests := d.manifests[id := d'.manifests[id]], pending := d'.pending)
    && Closing(d.manifests[id], d'.manifests[id], d.pending, id)
    && forall r :: r in d'.pending <==> r in d.pending && r.checkpoint != id
  }

  lemma FinishLaw(d: Disk, id: Id)
    requires id in d.manifests
    ensures Finishes(d, Finalized(d, id), id)
  {
    UnfinishedLaw(d.pending, id);
    OthersPending(d.pending, id);
    var m := d.manifests[id];
    assert Concern(d.pending, id, Unfinished(d.pending, id));
    assert Finalized(d, id).manifests[id] ==
           m.(finished := true, warnings := m.warnings + Unfinished(d.pending, id));
  }

  /** The same for every checkpoint of a list that an exit left unfinished. */
  ghost predicate FinishesAll(d: Disk, d': Disk, ids: seq<Id>) {
    && d' == d.(manifests := d'.manifests, pending := d'.pending) && d'.manifests.Keys == d.manifests.Keys
    && (forall id | id in d.manifests ::
          if id in ids && !d.manifests[id].finished then Closing(d.manifests[id], d'.manifests[id], d.pending, id)
          else d'.manifests[id] == d.manifests[id])
    && (forall r :: r in d'.pending <==>
          r in d.pending &&
          !(r.checkpoint in ids && r.checkpoint in d.manifests && !d.manifests[r.checkpoint].finished))
  }

  lemma {:induction false} FinishAllLaw(d: Disk, ids: seq<Id>)
    requires forall i | 0 <= i < |ids| :: ids[i] in d.manifests
    ensures FinishesAll(d, FinalizedAll(d, ids), ids)
  {
    if ids != [] {
      var n := |ids| - 1;
      var r := FinalizedAll(d, ids[..n]);
      FinishAllLaw(d, ids[..n]);
      Sequences.Snoc(ids);
      if !r.manifests[ids[n]].finished { FinishLaw(r, ids[n]); }
      FinishAllStep(d, r, FinalizedAll(d, ids), ids);
    }
  }

  lemma FinishAllStep(d: Disk, r: Disk, d': Disk, ids: seq<Id>)
    requires ids != [] && FinishesAll(d, r, ids[..|ids| - 1]) && ids[|ids| - 1] in d.manifests
    requires var id := ids[|ids| - 1];
             id in r.manifests && if r.manifests[id].finished then d' == r else Finishes(r, d', id)
    ensures FinishesAll(d, d', ids)
  {
    var n, id := |ids| - 1, ids[|ids| - 1];
    Sequences.Snoc(ids);
    assert forall k :: k in ids <==> k in ids[..n] || k == id;
    if !r.manifests[id].finished {
      assert id !in ids[..n] || d.manifests[id].finished;
      assert r.manifests[id] == d.manifests[id];
      ClosingAgrees(d.manifests[id], d'.manifests[id], r.pending, d.pending, id);
    }
  }

  lemma ClosingAgrees(m: Manifest, m': Manifest, ps: seq<Pending>, qs: seq<Pending>, id: Id)
    requires Closing(m, m', ps, id) && forall r: Pending | r.checkpoint == id :: r in ps <==> r in qs
    ensures Closing(m, m', qs, id)
  {
    var warnings :| m' == m.(finished := true, warnings := m.warnings + warnings) && Concern(ps, id, warnings);
    forall w | w in warnings ensures Open(qs, id, w.path) {
      var i, k :| 0 <= i < |ps| && 0 <= k < |ps[i].targets| &&
                  ps[i].checkpoint == id && PathOf(ps[i].targets[k]) == w.path;
      assert ps[i] in ps && ps[i] in qs;
      var j :| 0 <= j < |qs| && qs[j] == ps[i];
      assert PathOf(qs[j].targets[k]) == w.path;
    }
    assert Concern(qs, id, warnings);
  }

  // ----- garbage ------------------------------------------------------------------------------------

  predicate Has(s: FileState, g: Digest) { s.Regular? && s.digest == g }

  /** Some recorded change starts or ends with these bytes, or some open call may have to restore them. */
  ghost predicate Used(d: Disk, g: Digest) {
    || (exists id, c: Change | id in d.manifests && c in OpChanges(d.manifests[id].operations) ::
          Has(c.before, g) || Has(c.after, g))
    || (exists r, t | r in d.pending && t in r.targets :: t.Tracked? && Has(t.before, g))
  }

  lemma UsedExactly(d: Disk, g: Digest)
    ensures Referenced(d, g) <==> Used(d, g)
  {
    if id :| id in d.manifests && ManifestRefers(d.manifests[id], g) {
      var c := ReferringChange(d.manifests[id].operations, g);
    }
    if i :| 0 <= i < |d.pending| && PendingRefers(d.pending[i], g) {
      var k :| 0 <= k < |d.pending[i].targets| && d.pending[i].targets[k].Tracked? &&
               StateRefers(d.pending[i].targets[k].before, g);
      assert d.pending[i] in d.pending && d.pending[i].targets[k] in d.pending[i].targets;
    }
    if id, c: Change :| id in d.manifests && c in OpChanges(d.manifests[id].operations)
                        && (Has(c.before, g) || Has(c.after, g)) {
      ChangeRefers(d.manifests[id].operations, c, g);
      assert ManifestRefers(d.manifests[id], g);
    }
    if r, t :| r in d.pending && t in r.targets && t.Tracked? && Has(t.before, g) {
      var i :| 0 <= i < |d.pending| && d.pending[i] == r;
      assert PendingRefers(d.pending[i], g);
    }
  }

  lemma CollectedExactly(d: Disk)
    ensures forall g :: g in Collected(d).blobs <==> g in d.blobs && Used(d, g)
  {
    forall g { UsedExactly(d, g); }
  }

  lemma {:induction false} ReferringChange(ops: seq<Operation>, g: Digest) returns (c: Change)
    requires exists i | 0 <= i < |ops| :: ChangesRefer(ops[i].changes, g)
    ensures c in OpChanges(ops) && (Has(c.before, g) || Has(c.after, g))
  {
    var n := |ops| - 1;
    if ChangesRefer(ops[n].changes, g) {
      var k :| 0 <= k < |ops[n].changes| &&
               (StateRefers(ops[n].changes[k].before, g) || StateRefers(ops[n].changes[k].after, g));
      c := ops[n].changes[k];
    } else {
      var i :| 0 <= i < |ops| && ChangesRefer(ops[i].changes, g);
      assert ops[..n][i] == ops[i];
      c := ReferringChange(ops[..n], g);
    }
  }

  lemma {:induction false} ChangeRefers(ops: seq<Operation>, c: Change, g: Digest)
    requires c in OpChanges(ops) && (Has(c.before, g) || Has(c.after, g))
    ensures exists i | 0 <= i < |ops| :: ChangesRefer(ops[i].changes, g)
  {
    var n := |ops| - 1;
    if c in ops[n].changes {
      assert ChangesRefer(ops[n].changes, g);
    } else {
      ChangeRefers(ops[..n], c, g);
      var i :| 0 <= i < n && ChangesRefer(ops[..n][i].changes, g);
      assert ops[i] == ops[..n][i];
    }
  }
}
