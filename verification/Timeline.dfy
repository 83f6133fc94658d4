/** The undo invariant: for every checkpoint still in the index, the recorded
    chains lead back from the current files to the files at that checkpoint. */
module Timeline {
  import opened CheckpointData
  import opened Lineage
  import Sequences

  function ParentOf(s: FileState): nat {
    match s case Absent(p) => p case Regular(_, _, _, p) => p case Skipped(_) => 0
  }

  /** The state a restore of these changes aims at for one path. */
  function Base(cs: seq<Change>, p: Path, current: FileState): FileState { BaseOf(Chain(cs, p), current) }

  function BaseOf(chain: seq<Change>, current: FileState): FileState {
    if chain == [] then current else chain[0].before
  }

  /** A change whose two states were really captured, in the directory that holds the file now. */
  predicate Captured(c: Change, now: FileState) {
    !c.before.Skipped? && !c.after.Skipped? && ParentOf(c.before) == ParentOf(now)
  }

  predicate Linked(chain: seq<Change>, now: FileState) {
    && Continuous(chain)
    && (chain != [] ==> chain[|chain| - 1].after == now)
    && forall i | 0 <= i < |chain| :: Captured(chain[i], now)
  }

  ghost predicate HeldAt(ms: seq<Manifest>, ws: Workspace, snaps: seq<Workspace>, p: Path)
    requires |snaps| == |ms|
  {
    if p in ws then
      && Linked(Chain(History(ms), p), ws[p])
      && forall k | 0 <= k < |ms| ::
           p in snaps[k] && SameOrUntouched(Base(History(ms[k..]), p, ws[p]), snaps[k][p])
    else
      && Chain(History(ms), p) == []
      && forall k | 0 <= k < |ms| :: p !in snaps[k]
  }

  /** Same image, or the very same (possibly uncapturable) state. */
  predicate SameOrUntouched(a: FileState, b: FileState) { a == b || SameImage(a, b) }

  /** ms: manifests of the index in order; snaps[k]: the files when ms[k] began. */
  ghost predicate Held(ms: seq<Manifest>, ws: Workspace, snaps: seq<Workspace>) {
    && |snaps| == |ms|
    && Warnings(ms) == []
    && forall p: Path :: HeldAt(ms, ws, snaps, p)
  }

  // ----- begin ---------------------------------------------------------------

  lemma BeginHolds(ms: seq<Manifest>, ws: Workspace, snaps: seq<Workspace>)
    requires Held(ms, ws, snaps)
    ensures Held(ms + [EmptyManifest()], ws, snaps + [ws])
  {
    var ms', snaps' := ms + [EmptyManifest()], snaps + [ws];
    EmptyAdds(ms);
    forall p: Path ensures HeldAt(ms', ws, snaps', p) {
      BeginHoldsAt(ms, ws, snaps, p);
    }
  }

  lemma EmptyAdds(ms: seq<Manifest>)
    ensures History(ms + [EmptyManifest()]) == History(ms)
    ensures Warnings(ms + [EmptyManifest()]) == Warnings(ms)
  {
    AppendHistory(ms, EmptyManifest());
    Sequences.EmptyRight(History(ms));
    Sequences.EmptyRight(Warnings(ms));
  }

  lemma EmptySuffix(ms: seq<Manifest>, k: nat)
    requires k <= |ms|
    ensures History((ms + [EmptyManifest()])[k..]) == History(ms[k..])
  {
    EmptyAdds(ms[k..]);
    assert (ms + [EmptyManifest()])[k..] == ms[k..] + [EmptyManifest()];
  }

  lemma BeginHoldsAt(ms: seq<Manifest>, ws: Workspace, snaps: seq<Workspace>, p: Path)
    requires |snaps| == |ms| && HeldAt(ms, ws, snaps, p)
    ensures HeldAt(ms + [EmptyManifest()], ws, snaps + [ws], p)
  {
    EmptyAdds(ms);
    var ms', snaps' := ms + [EmptyManifest()], snaps + [ws];
    if p in ws {
      forall k | 0 <= k < |ms'|
        ensures p in snaps'[k] && SameOrUntouched(Base(History(ms'[k..]), p, ws[p]), snaps'[k][p])
      {
        EmptySuffix(ms, k);
        assert k == |ms| ==> ms[k..] == [];
      }
    }
  }

  lemma AppendHistory(ms: seq<Manifest>, m: Manifest)
    ensures History(ms + [m]) == History(ms) + OpChanges(m.operations)
    ensures Warnings(ms + [m]) == Warnings(ms) + m.warnings
  {
    Sequences.Appended(ms, m);
  }

  // ----- one tracked tool call -----------------------------------------------

  /** The changes a finished call records, in target order. */
  function Delta(paths: seq<Path>, was: Workspace, now: Workspace): seq<Change>
    requires forall p | p in paths :: p in was && p in now
  {
    if paths == [] then []
    else
      var n := |paths| - 1;
      var p := paths[n];
      Delta(paths[..n], was, now) +
      (if SameImage(was[p], now[p]) then [] else [Change(p, was[p], now[p])])
  }

  /** What the undo theorem assumes of a call: distinct capturable targets, nothing
      else written, directories stay, and equal content means the same inode. */
  predicate TrackedEdit(paths: seq<Path>, was: Workspace, now: Workspace) {
    && was.Keys == now.Keys
    && (forall i, j | 0 <= i < j < |paths| :: paths[i] != paths[j])
    && (forall p | p in paths :: p in was && EditOf(was[p], now[p]))
    && (forall p | p in was && p !in paths :: now[p] == was[p])
  }

  predicate EditOf(was: FileState, now: FileState) {
    && !was.Skipped? && !now.Skipped? && ParentOf(was) == ParentOf(now)
    && (SameImage(was, now) ==> was == now)
  }

  lemma {:induction false} DeltaChain(paths: seq<Path>, was: Workspace, now: Workspace, p: Path)
    requires forall p | p in paths :: p in was && p in now
    requires forall i, j | 0 <= i < j < |paths| :: paths[i] != paths[j]
    ensures Chain(Delta(paths, was, now), p) ==
            if p in paths && !SameImage(was[p], now[p]) then [Change(p, was[p], now[p])] else []
  {
    if paths != [] {
      var n := |paths| - 1;
      var q := paths[n];
      Sequences.Snoc(paths);
      DeltaChain(paths[..n], was, now, p);
      DeltaSnoc(paths, was, now, p);
    }
  }

  /** What the last target adds to a path's chain. */
  lemma DeltaSnoc(paths: seq<Path>, was: Workspace, now: Workspace, p: Path)
    requires paths != [] && forall q | q in paths :: q in was && q in now
    ensures var n := |paths| - 1; var q := paths[n]; var front := Chain(Delta(paths[..n], was, now), p);
            Chain(Delta(paths, was, now), p) ==
            if q == p && !SameImage(was[q], now[q]) then front + [Change(q, was[q], now[q])] else front
  {
    var n := |paths| - 1;
    var q, front := paths[n], Delta(paths[..n], was, now);
    if SameImage(was[q], now[q]) {
      Sequences.EmptyRight(front);
    } else {
      ChainSnoc(front, Change(q, was[q], now[q]), p);
    }
  }

  /** The manifests after a call's operation was appended to the newest one. */
  function Recorded(ms: seq<Manifest>, call: CallId, changes: seq<Change>): seq<Manifest>
    requires ms != []
  {
    var n := |ms| - 1;
    ms[..n] + [ms[n].(operations := ms[n].operations + [Operation(call, changes)])]
  }

  lemma RecordedHistory(ms: seq<Manifest>, k: nat, call: CallId, changes: seq<Change>)
    requires k < |ms|
    ensures History(Recorded(ms, call, changes)[k..]) == History(ms[k..]) + changes
    ensures Warnings(Recorded(ms, call, changes)) == Warnings(ms)
  {
    var n := |ms| - 1;
    var front, last, longer := ms[k..n], ms[n], Recorded(ms, call, changes)[n];
    RecordedSlice(ms, k, call, changes);
    RecordedOp(last, call, changes);
    RecordedAt(front, last, longer, changes);
    RecordedWarnings(ms, call, changes);
  }

  lemma RecordedAt(front: seq<Manifest>, last: Manifest, longer: Manifest, changes: seq<Change>)
    requires OpChanges(longer.operations) == OpChanges(last.operations) + changes
    ensures History(front + [longer]) == History(front + [last]) + changes
  {
    AppendHistory(front, last);
    AppendHistory(front, longer);
    Sequences.Assoc(History(front), OpChanges(last.operations), changes);
  }

  lemma RecordedSlice(ms: seq<Manifest>, k: nat, call: CallId, changes: seq<Change>)
    requires k < |ms|
    ensures ms[k..] == ms[k..|ms| - 1] + [ms[|ms| - 1]]
    ensures Recorded(ms, call, changes)[k..] == ms[k..|ms| - 1] + [Recorded(ms, call, changes)[|ms| - 1]]
    ensures Recorded(ms, call, changes)[|ms| - 1].operations == ms[|ms| - 1].operations + [Operation(call, changes)]
  {
  }

  lemma RecordedOp(m: Manifest, call: CallId, changes: seq<Change>)
    ensures OpChanges(m.operations + [Operation(call, changes)]) == OpChanges(m.operations) + changes
  {
    Sequences.Appended(m.operations, Operation(call, changes));
  }

  lemma RecordedWarnings(ms: seq<Manifest>, call: CallId, changes: seq<Change>)
    requires ms != []
    ensures Warnings(Recorded(ms, call, changes)) == Warnings(ms)
  {
    var n := |ms| - 1;
    Sequences.Snoc(ms);
    AppendHistory(ms[..n], ms[n]);
    AppendHistory(ms[..n], Recorded(ms, call, changes)[n]);
  }

  lemma CallHolds(ms: seq<Manifest>, ws: Workspace, snaps: seq<Workspace>,
                  call: CallId, paths: seq<Path>, ws': Workspace)
    requires Held(ms, ws, snaps) && ms != []
    requires TrackedEdit(paths, ws, ws')
    ensures Held(Recorded(ms, call, Delta(paths, ws, ws')), ws', snaps)
  {
    RecordedWarnings(ms, call, Delta(paths, ws, ws'));
    forall p: Path ensures HeldAt(Recorded(ms, call, Delta(paths, ws, ws')), ws', snaps, p) {
      assert HeldAt(ms, ws, snaps, p);
      CallHoldsAt(ms, ws, snaps, call, paths, ws', p);
    }
  }

  lemma CallHoldsAt(ms: seq<Manifest>, ws: Workspace, snaps: seq<Workspace>,
                    call: CallId, paths: seq<Path>, ws': Workspace, p: Path)
    requires |snaps| == |ms| && ms != [] && HeldAt(ms, ws, snaps, p)
    requires TrackedEdit(paths, ws, ws')
    ensures HeldAt(Recorded(ms, call, Delta(paths, ws, ws')), ws', snaps, p)
  {
    CallChain(ms, call, paths, ws, ws', 0, p);
    Sequences.Whole(ms);
    Sequences.Whole(Recorded(ms, call, Delta(paths, ws, ws')));
    if p in ws {
      CallLinked(Chain(History(ms), p), ws[p], p, ws'[p]);
      forall k | 0 <= k < |ms|
        ensures SameOrUntouched(Base(History(Recorded(ms, call, Delta(paths, ws, ws'))[k..]), p, ws'[p]), snaps[k][p])
      {
        CallChain(ms, call, paths, ws, ws', k, p);
      }
    }
  }

  /** A path's chain from position k on, once the call is recorded. */
  lemma CallChain(ms: seq<Manifest>, call: CallId, paths: seq<Path>, ws: Workspace, ws': Workspace, k: nat, p: Path)
    requires k < |ms| && TrackedEdit(paths, ws, ws')
    ensures Chain(History(Recorded(ms, call, Delta(paths, ws, ws'))[k..]), p) ==
            Chain(History(ms[k..]), p) +
            if p in paths && !SameImage(ws[p], ws'[p]) then [Change(p, ws[p], ws'[p])] else []
  {
    var ds := Delta(paths, ws, ws');
    RecordedHistory(ms, k, call, ds);
    DeltaChain(paths, ws, ws', p);
    ChainConcat(History(ms[k..]), ds, p);
  }

  lemma CallLinked(chain: seq<Change>, was: FileState, p: Path, now: FileState)
    requires Linked(chain, was)
    requires EditOf(was, now) || now == was
    ensures Linked(chain + (if SameImage(was, now) || was == now then [] else [Change(p, was, now)]), now)
  {
    if SameImage(was, now) || was == now {
      assert chain + [] == chain;
    } else {
      var longer := chain + [Change(p, was, now)];
      forall i | 0 < i < |longer|
        ensures StatesEqual(longer[i - 1].after, longer[i].before, true)
      {
        if i == |chain| {
          assert Captured(chain[i - 1], was);
        }
      }
    }
  }

  // ----- restore -------------------------------------------------------------

  /** Outcome of a restore that skipped nothing: exactly the touched paths were
      brought back to their base image, and states records what is there now. */
  ghost predicate FullRestore(ms: seq<Manifest>, start: nat, ws: Workspace,
                              paths: seq<Path>, states: Workspace, ws': Workspace)
    requires start <= |ms|
  {
    FullRestoreOf(History(ms[start..]), ws, paths, states, ws')
  }

  ghost predicate FullRestoreOf(cs: seq<Change>, ws: Workspace,
                                paths: seq<Path>, states: Workspace, ws': Workspace)
  {
    && ws'.Keys == ws.Keys
    && (forall i, j | 0 <= i < j < |paths| :: paths[i] != paths[j])
    && (forall p: Path :: p in paths <==> Chain(cs, p) != [])
    && (forall p | p in paths :: p in states && p in ws && states[p] == ws'[p] &&
          SameImage(ws'[p], Base(cs, p, ws[p])))
    && (forall p | p in ws && p !in paths :: ws'[p] == ws[p])
  }

  lemma SplitChain(ms: seq<Manifest>, j: nat, k: nat, p: Path)
    requires j <= k <= |ms|
    ensures Chain(History(ms[j..]), p) == Chain(History(ms[j..k]), p) + Chain(History(ms[k..]), p)
  {
    assert ms[j..] == ms[j..k] + ms[k..];
    HistoryConcat(ms[j..k], ms[k..]);
    ChainConcat(History(ms[j..k]), History(ms[k..]), p);
  }

  /** The undo theorem for one restore: every file is back at its state when the
      target began, up to inode. */
  lemma UndoReaches(ms: seq<Manifest>, start: nat, ws: Workspace, snaps: seq<Workspace>,
                    paths: seq<Path>, states: Workspace, ws': Workspace)
    requires Held(ms, ws, snaps) && start < |ms|
    requires FullRestore(ms, start, ws, paths, states, ws')
    ensures ws'.Keys == snaps[start].Keys
    ensures forall p | p in ws' :: SameOrUntouched(ws'[p], snaps[start][p])
  {
    forall p: Path
      ensures p in ws' <==> p in snaps[start]
      ensures p in ws' ==> SameOrUntouched(ws'[p], snaps[start][p])
    {
      assert HeldAt(ms, ws, snaps, p);
    }
  }

  lemma LinkedPrefix(a: seq<Change>, b: seq<Change>, was: FileState, now: FileState)
    requires Linked(a + b, was)
    requires if b == [] then now == was else SameImage(now, b[0].before)
    ensures Linked(if b == [] then a else Retarget(a, now), now)
  {
    if b == [] {
      assert a + b == a;
    } else {
      assert (a + b)[|a|] == b[0];
      var r := Retarget(a, now);
      forall i | 0 < i < |r|
        ensures StatesEqual(r[i - 1].after, r[i].before, true)
      {
        assert r[i - 1] == (a + b)[i - 1];
        assert r[i].before == (a + b)[i].before;
      }
      forall i | 0 <= i < |r|
        ensures Captured(r[i], now)
      {
        assert Captured((a + b)[i], was);
        assert Captured((a + b)[|a|], was);
      }
    }
  }

  /** Earlier checkpoints stay restorable: after rebasing, the shortened timeline holds again. */
  lemma RestoreHolds(ms: seq<Manifest>, start: nat, ws: Workspace, snaps: seq<Workspace>,
                     paths: seq<Path>, states: Workspace, ws': Workspace)
    requires Held(ms, ws, snaps) && start <= |ms|
    requires FullRestore(ms, start, ws, paths, states, ws')
    ensures Held(RebaseAll(ms[..start], paths, states), ws', snaps[..start])
  {
    RebasedWarnings(ms, start, paths, states);
    forall p: Path ensures HeldAt(RebaseAll(ms[..start], paths, states), ws', snaps[..start], p) {
      assert HeldAt(ms, ws, snaps, p);
      RestoreHoldsAt(ms, start, ws, snaps, paths, states, ws', p);
    }
  }

  lemma RebasedWarnings(ms: seq<Manifest>, start: nat, paths: seq<Path>, states: Workspace)
    requires Warnings(ms) == [] && start <= |ms|
    requires forall i, j | 0 <= i < j < |paths| :: paths[i] != paths[j]
    requires forall q | q in paths :: q in states
    ensures Warnings(RebaseAll(ms[..start], paths, states)) == []
  {
    RebaseAllSuffix(ms[..start], 0, paths, states, "");
    PrefixWarnings(ms, start);
  }

  lemma PrefixWarnings(ms: seq<Manifest>, start: nat)
    requires Warnings(ms) == [] && start <= |ms|
    ensures Warnings(ms[..start]) == []
  {
    assert ms == ms[..start] + ms[start..];
    HistoryConcat(ms[..start], ms[start..]);
  }

  lemma RestoreHoldsAt(ms: seq<Manifest>, start: nat, ws: Workspace, snaps: seq<Workspace>,
                       paths: seq<Path>, states: Workspace, ws': Workspace, p: Path)
    requires |snaps| == |ms| && HeldAt(ms, ws, snaps, p) && start <= |ms|
    requires FullRestore(ms, start, ws, paths, states, ws')
    ensures HeldAt(RebaseAll(ms[..start], paths, states), ws', snaps[..start], p)
  {
    var pre' := RebaseAll(ms[..start], paths, states);
    RestoredLinked(ms, start, ws, paths, states, ws', p);
    if p in ws {
      forall k | 0 <= k < start
        ensures SameOrUntouched(Base(History(pre'[k..]), p, ws'[p]), snaps[k][p])
      {
        RebasedBase(ms, start, ws, paths, states, ws', k, p);
      }
    }
  }

  /** A path's whole chain before the restored part stays continuous and ends at the new file. */
  lemma RestoredLinked(ms: seq<Manifest>, start: nat, ws: Workspace,
                       paths: seq<Path>, states: Workspace, ws': Workspace, p: Path)
    requires start <= |ms| && FullRestore(ms, start, ws, paths, states, ws')
    requires if p in ws then Linked(Chain(History(ms), p), ws[p]) else Chain(History(ms), p) == []
    ensures var c := Chain(History(RebaseAll(ms[..start], paths, states)), p);
            if p in ws then p in ws' && Linked(c, ws'[p]) else c == []
  {
    SplitChain(ms, 0, start, p);
    Sequences.Whole(ms);
    Sequences.Whole(RebaseAll(ms[..start], paths, states));
    RebasedChain(ms, start, paths, states, 0, p);
    var a, b := Chain(History(ms[0..start]), p), Chain(History(ms[start..]), p);
    if p in ws {
      LinkedPrefix(a, b, ws[p], ws'[p]);
    }
  }

  lemma RebasedChain(ms: seq<Manifest>, start: nat, paths: seq<Path>, states: Workspace, k: nat, p: Path)
    requires k <= start <= |ms|
    requires forall i, j | 0 <= i < j < |paths| :: paths[i] != paths[j]
    requires forall q | q in paths :: q in states
    ensures var c := Chain(History(ms[k..start]), p);
            Chain(History(RebaseAll(ms[..start], paths, states)[k..]), p)
            == if p in paths then Retarget(c, states[p]) else c
  {
    assert ms[k..start] == ms[..start][k..];
    RebaseAllSuffix(ms[..start], k, paths, states, p);
  }

  /** A path's base seen from checkpoint k is unchanged, or it is what the restore wrote. */
  lemma RebasedBase(ms: seq<Manifest>, start: nat, ws: Workspace, paths: seq<Path>, states: Workspace,
                    ws': Workspace, k: nat, p: Path)
    requires k < start <= |ms| && p in ws
    requires FullRestore(ms, start, ws, paths, states, ws')
    ensures var was := Base(History(ms[k..]), p, ws[p]);
            var now := Base(History(RebaseAll(ms[..start], paths, states)[k..]), p, ws'[p]);
            now == was || SameImage(now, was)
  {
    RebasedChain(ms, start, paths, states, k, p);
    SplitChain(ms, k, start, p);
    BaseMoves(Chain(History(ms[k..start]), p), Chain(History(ms[start..]), p), ws[p], ws'[p]);
  }

  lemma BaseMoves(a: seq<Change>, b: seq<Change>, was: FileState, now: FileState)
    requires if b == [] then now == was else SameImage(now, b[0].before)
    ensures var moved := BaseOf(if b == [] then a else Retarget(a, now), now);
            moved == BaseOf(a + b, was) || SameImage(moved, BaseOf(a + b, was))
  {
    if a != [] { assert (a + b)[0] == a[0]; }
  }

  /** Restores compose: going back to c and then to an earlier b leaves the same
      file images as going back to b at once. */
  lemma RestoresCompose(ms: seq<Manifest>, b: nat, c: nat, ws: Workspace, snaps: seq<Workspace>,
                        pathsC: seq<Path>, wsC: Workspace, pathsB: seq<Path>, wsCB: Workspace,
                        pathsDirect: seq<Path>, wsDirect: Workspace)
    requires Held(ms, ws, snaps) && b < c < |ms|
    requires FullRestore(ms, c, ws, pathsC, wsC, wsC)
    requires FullRestore(RebaseAll(ms[..c], pathsC, wsC), b, wsC, pathsB, wsCB, wsCB)
    requires FullRestore(ms, b, ws, pathsDirect, wsDirect, wsDirect)
    ensures wsCB.Keys == wsDirect.Keys
    ensures forall p | p in wsCB :: SameOrUntouched(wsCB[p], wsDirect[p])
  {
    RestoreHolds(ms, c, ws, snaps, pathsC, wsC, wsC);
    UndoReaches(RebaseAll(ms[..c], pathsC, wsC), b, wsC, snaps[..c], pathsB, wsCB, wsCB);
    UndoReaches(ms, b, ws, snaps, pathsDirect, wsDirect, wsDirect);
  }

  /** A code-only restore keeps the branch as zero-operation anchors. */
  function Anchored(ms: seq<Manifest>, n: nat): seq<Manifest> {
    if n == 0 then ms else Anchored(ms, n - 1) + [AnchorManifest()]
  }

  function Repeated(snaps: seq<Workspace>, ws: Workspace, n: nat): seq<Workspace> {
    if n == 0 then snaps else Repeated(snaps, ws, n - 1) + [ws]
  }

  lemma {:induction false} AnchorsHold(ms: seq<Manifest>, ws: Workspace, snaps: seq<Workspace>, n: nat)
    requires Held(ms, ws, snaps)
    ensures Held(Anchored(ms, n), ws, Repeated(snaps, ws, n))
  {
    if n > 0 {
      AnchorsHold(ms, ws, snaps, n - 1);
      BeginHolds(Anchored(ms, n - 1), ws, Repeated(snaps, ws, n - 1));
      FlagsIrrelevant(Anchored(ms, n - 1), EmptyManifest(), AnchorManifest(), ws, Repeated(snaps, ws, n));
    }
  }

  /** The lineage depends only on operations and warnings of the newest manifest. */
  lemma FlagsIrrelevant(ms: seq<Manifest>, m: Manifest, m': Manifest, ws: Workspace, snaps: seq<Workspace>)
    requires m.operations == m'.operations && m.warnings == m'.warnings
    requires Held(ms + [m], ws, snaps)
    ensures Held(ms + [m'], ws, snaps)
  {
    var a, b := ms + [m], ms + [m'];
    AppendHistory(ms, m);
    AppendHistory(ms, m');
    forall k | 0 <= k < |a| ensures History(a[k..]) == History(b[k..]) {
      assert a[k..] == ms[k..] + [m] && b[k..] == ms[k..] + [m'];
      AppendHistory(ms[k..], m);
      AppendHistory(ms[k..], m');
    }
    forall p: Path ensures HeldAt(b, ws, snaps, p) {
      assert HeldAt(a, ws, snaps, p);
    }
  }

  // ----- pruning the oldest checkpoints ----------------------------------------

  lemma PruneHolds(ms: seq<Manifest>, ws: Workspace, snaps: seq<Workspace>, e: nat)
    requires Held(ms, ws, snaps) && e <= |ms|
    ensures Held(ms[e..], ws, snaps[e..])
  {
    assert ms == ms[..e] + ms[e..];
    HistoryConcat(ms[..e], ms[e..]);
    forall p: Path ensures HeldAt(ms[e..], ws, snaps[e..], p) {
      assert HeldAt(ms, ws, snaps, p);
      ChainConcat(History(ms[..e]), History(ms[e..]), p);
      if p in ws {
        LinkedSuffix(Chain(History(ms[..e]), p), Chain(History(ms[e..]), p), ws[p]);
        forall k | 0 <= k < |ms| - e
          ensures SameOrUntouched(Base(History(ms[e..][k..]), p, ws[p]), snaps[e..][k][p])
        {
          assert ms[e..][k..] == ms[e + k..];
        }
      }
    }
  }

  lemma LinkedSuffix(a: seq<Change>, b: seq<Change>, now: FileState)
    requires Linked(a + b, now)
    ensures Linked(b, now)
  {
    forall i | 0 <= i < |b| ensures b[i] == (a + b)[|a| + i] {}
    forall i | 0 < i < |b|
      ensures StatesEqual(b[i - 1].after, b[i].before, true)
    {
      assert b[i - 1] == (a + b)[|a| + i - 1] && b[i] == (a + b)[|a| + i];
    }
  }

  // ----- folding a hidden branch -----------------------------------------------

  function AllOperations(ms: seq<Manifest>): seq<Operation> {
    if ms == [] then [] else AllOperations(ms[..|ms| - 1]) + ms[|ms| - 1].operations
  }

  function SumSnapshots(ms: seq<Manifest>): nat {
    if ms == [] then 0 else SumSnapshots(ms[..|ms| - 1]) + ms[|ms| - 1].snapshots
  }

  function SumBytes(ms: seq<Manifest>): nat {
    if ms == [] then 0 else SumBytes(ms[..|ms| - 1]) + ms[|ms| - 1].bytes
  }

  /** The last visible manifest takes over everything the hidden ones recorded. */
  function Merged(base: Manifest, hidden: seq<Manifest>): Manifest {
    base.(operations := base.operations + AllOperations(hidden),
          warnings := base.warnings + Warnings(hidden),
          snapshots := base.snapshots + SumSnapshots(hidden),
          bytes := base.bytes + SumBytes(hidden))
  }

  function Folded(ms: seq<Manifest>, kept: nat): seq<Manifest>
    requires 0 < kept <= |ms|
  {
    ms[..kept - 1] + [Merged(ms[kept - 1], ms[kept..])]
  }

  lemma {:induction false} AllOperationsChanges(ms: seq<Manifest>)
    ensures OpChanges(AllOperations(ms)) == History(ms)
  {
    if ms != [] {
      var n := |ms| - 1;
      AllOperationsChanges(ms[..n]);
      OpChangesConcat(AllOperations(ms[..n]), ms[n].operations);
    }
  }

  /** Branch folding loses nothing: from every visible checkpoint the restore sees
      the same changes of every path and the same warnings. */
  lemma FoldKeepsMeaning(ms: seq<Manifest>, kept: nat, k: nat)
    requires k < kept <= |ms|
    ensures History(Folded(ms, kept)[k..]) == History(ms[k..])
    ensures Warnings(Folded(ms, kept)[k..]) == Warnings(ms[k..])
  {
    var base, hidden := ms[kept - 1], ms[kept..];
    var mid := ms[k..kept - 1];
    FoldSlices(ms, kept, k);
    MergedMeaning(mid, base, hidden);
  }

  lemma MergedMeaning(mid: seq<Manifest>, base: Manifest, hidden: seq<Manifest>)
    ensures History(mid + [Merged(base, hidden)]) == History(mid + [base] + hidden)
    ensures Warnings(mid + [Merged(base, hidden)]) == Warnings(mid + [base] + hidden)
  {
    var merged := Merged(base, hidden);
    AppendHistory(mid, merged);
    AppendHistory(mid, base);
    HistoryConcat(mid + [base], hidden);
    MergedChanges(base, hidden);
    Sequences.Assoc(History(mid), OpChanges(base.operations), History(hidden));
    Sequences.Assoc(Warnings(mid), base.warnings, Warnings(hidden));
  }

  lemma MergedChanges(base: Manifest, hidden: seq<Manifest>)
    ensures OpChanges(Merged(base, hidden).operations) == OpChanges(base.operations) + History(hidden)
  {
    OpChangesConcat(base.operations, AllOperations(hidden));
    AllOperationsChanges(hidden);
  }

  lemma FoldSlices(ms: seq<Manifest>, kept: nat, k: nat)
    requires k < kept <= |ms|
    ensures Folded(ms, kept)[k..] == ms[k..kept - 1] + [Merged(ms[kept - 1], ms[kept..])]
    ensures ms[k..] == ms[k..kept - 1] + [ms[kept - 1]] + ms[kept..]
  {
  }

  lemma FoldHolds(ms: seq<Manifest>, kept: nat, ws: Workspace, snaps: seq<Workspace>)
    requires Held(ms, ws, snaps) && 0 < kept <= |ms|
    ensures Held(Folded(ms, kept), ws, snaps[..kept])
  {
    FoldKeepsMeaning(ms, kept, 0);
    assert ms[0..] == ms && Folded(ms, kept)[0..] == Folded(ms, kept);
    forall p: Path ensures HeldAt(Folded(ms, kept), ws, snaps[..kept], p) {
      assert HeldAt(ms, ws, snaps, p);
      forall k | 0 <= k < kept
        ensures History(Folded(ms, kept)[k..]) == History(ms[k..])
      {
        FoldKeepsMeaning(ms, kept, k);
      }
    }
  }
}
