/** What a restore may do to a workspace, and what an undisturbed one does to each file. */
module RestoreFates {
  import opened Collections
  import opened CheckpointData
  import opened Lineage
  import opened Timeline
  import opened CheckpointDisk
  import opened CheckpointSpec
  import Sequences

  // ----- what happened to the workspace, in order -----------------------------------------

  /** One mutation issued by the restore itself. */
  datatype FileWrite = FileWrite(path: Path, was: FileState, now: FileState)

  /** A write of the restore, or whatever other programs made of the workspace. */
  datatype Deed = Own(write: FileWrite) | Foreign(states: Workspace)

  function Done(ws: Workspace, d: Deed): Workspace {
    match d
    case Own(w) => ws[w.path := w.now]
    case Foreign(states) => states
  }

  function Replayed(ws: Workspace, deeds: seq<Deed>): Workspace {
    if deeds == [] then ws else Done(Replayed(ws, deeds[..|deeds| - 1]), deeds[|deeds| - 1])
  }

  /** The i-th deed replaced what was really there. */
  predicate HonestAt(ws: Workspace, deeds: seq<Deed>, i: nat)
    requires i < |deeds| && deeds[i].Own?
  {
    var w, at := deeds[i].write, Replayed(ws, deeds[..i]);
    w.path in at && at[w.path] == w.was
  }

  predicate OnlyOwn(deeds: seq<Deed>) { forall i | 0 <= i < |deeds| :: deeds[i].Own? }

  lemma {:induction false} ReplayedConcat(ws: Workspace, a: seq<Deed>, b: seq<Deed>)
    ensures Replayed(ws, a + b) == Replayed(Replayed(ws, a), b)
  {
    if b == [] {
      assert a + b == a;
    } else {
      assert (a + b)[..|a + b| - 1] == a + b[..|b| - 1];
      ReplayedConcat(ws, a, b[..|b| - 1]);
    }
  }

  /** What everybody else did. */
  function Others(deeds: seq<Deed>): seq<Deed> {
    if deeds == [] then []
    else Others(deeds[..|deeds| - 1]) + if deeds[|deeds| - 1].Foreign? then [deeds[|deeds| - 1]] else []
  }

  predicate Names(deeds: seq<Deed>, p: Path) {
    exists i | 0 <= i < |deeds| && deeds[i].Own? :: deeds[i].write.path == p
  }

  /** A path no own write names is as others made it. */
  lemma {:induction false} Unnamed(ws: Workspace, deeds: seq<Deed>, p: Path)
    requires !Names(deeds, p)
    ensures Capture(Replayed(ws, deeds), p) == Capture(Replayed(ws, Others(deeds)), p)
  {
    if deeds != [] {
      var front, d := deeds[..|deeds| - 1], deeds[|deeds| - 1];
      forall i | 0 <= i < |front| && front[i].Own? ensures front[i].write.path != p {
        assert front[i] == deeds[i];
      }
      Unnamed(ws, front, p);
      if d.Foreign? {
        assert (Others(front) + [d])[..|Others(front)|] == Others(front);
      } else {
        assert Others(front) + [] == Others(front);
      }
    }
  }

  // ----- compare-and-swap ------------------------------------------------------------------

  predicate Warned(ws: seq<Warning>, p: Path) {
    exists i | 0 <= i < |ws| :: ws[i].path == p
  }

  /** An unknown warning spoils every chain, a known one that of its own path. */
  predicate Usable(ws: seq<Warning>, p: Path) { !Warned(ws, p) && !Warned(ws, UNKNOWN_PATH) }

  /** Bytes and mode of the wanted image under a new inode, in the directory that is there. */
  predicate Overwrites(was: FileState, now: FileState, desired: FileState) {
    match desired
    case Absent(_) => now == Absent(ParentOf(was))
    case Regular(g, m, _, _) =>
      && now.Regular? && now.digest == g && now.mode == m && now.parent == ParentOf(was)
      && (was.Regular? ==> now.inode != was.inode)
    case Skipped(_) => false
  }

  /** A write the recorded changes allow: from exactly the last after-state to the first before-state
      of an unbroken chain nobody warned about. */
  ghost predicate Allowed(w: FileWrite, cs: seq<Change>, ws: seq<Warning>) {
    var c := Chain(cs, w.path);
    && c != [] && Continuous(c) && Usable(ws, w.path)
    && w.was == c[|c| - 1].after && Overwrites(w.was, w.now, c[0].before)
  }

  /** Every write of the restore is allowed and replaced what was really there. */
  ghost predicate CasSafe(was: Workspace, deeds: seq<Deed>, cs: seq<Change>, ws: seq<Warning>) {
    forall i | 0 <= i < |deeds| && deeds[i].Own? :: HonestAt(was, deeds, i) && Allowed(deeds[i].write, cs, ws)
  }

  /** So a restore never touches a file without recorded changes, with a broken chain, or warned about:
      whatever it is afterwards, others made it; and with nobody else about it is as it was. */
  lemma Frame(was: Workspace, deeds: seq<Deed>, cs: seq<Change>, ws: seq<Warning>, p: Path)
    requires CasSafe(was, deeds, cs, ws)
    requires Chain(cs, p) == [] || !Continuous(Chain(cs, p)) || !Usable(ws, p)
    ensures Capture(Replayed(was, deeds), p) == Capture(Replayed(was, Others(deeds)), p)
    ensures OnlyOwn(deeds) ==> Capture(Replayed(was, deeds), p) == Capture(was, p)
  {
    assert !Names(deeds, p);
    Unnamed(was, deeds, p);
    if OnlyOwn(deeds) { NoOthers(deeds); }
  }

  lemma {:induction false} NoOthers(deeds: seq<Deed>)
    requires OnlyOwn(deeds)
    ensures Others(deeds) == []
  {
    if deeds != [] { NoOthers(deeds[..|deeds| - 1]); }
  }

  // ----- one path, undisturbed -----------------------------------------------------------------

  datatype Plan = Plan(path: Path, expected: FileState, desired: FileState)

  datatype Verdict = Skip | Already(state: FileState) | Planned(plan: Plan)

  /** What planning answers for a file that is found as now. */
  function VerdictOf(p: Path, chain: seq<Change>, now: FileState): Verdict
    requires chain != []
  {
    var expected, desired := chain[|chain| - 1].after, chain[0].before;
    if !Continuous(chain) || now.Skipped? then Skip
    else if SameImage(now, desired) then Already(now)
    else if now == expected then Planned(Plan(p, expected, desired))
    else Skip
  }

  /** What becomes of a file, and whether it is reported as back. */
  datatype Fate = Untouched(back: bool) | Rewritten(back: bool) | Removed

  predicate IsBack(f: Fate) { f.Removed? || f.back }

  function ApplyFate(pl: Plan, blobs: set<Digest>): Fate {
    match pl.desired
    case Absent(_) => if pl.expected.Absent? then Untouched(true) else Removed
    case Regular(g, _, _, d) => if g in blobs then Rewritten(ParentOf(pl.expected) == d) else Untouched(false)
    case Skipped(_) => Untouched(false)
  }

  function FateOf(p: Path, chain: seq<Change>, usable: bool, now: FileState, blobs: set<Digest>): Fate
    requires chain != []
  {
    if !usable then Untouched(false)
    else
      match VerdictOf(p, chain, now)
      case Skip => Untouched(false)
      case Already(_) => Untouched(true)
      case Planned(pl) => ApplyFate(pl, blobs)
  }

  predicate Meets(f: Fate, was: FileState, desired: FileState, now: FileState) {
    match f
    case Untouched(_) => now == was
    case Rewritten(_) => desired.Regular? && Overwrites(was, now, desired)
    case Removed => desired.Absent? && Overwrites(was, now, desired)
  }

  // ----- the whole workspace ---------------------------------------------------------------------

  /** The tally a restore keeps: what is back, as what state, and what was left alone. */
  datatype Tally = Tally(restored: seq<Path>, states: Workspace, skipped: seq<Path>)

  /** Every touched path ends in exactly one of restored and skipped.  What is restored was seen
      with the wanted image, unless the chain is one whose end is taken for it unseen. */
  ghost predicate Accounted(cs: seq<Change>, ws: seq<Warning>, t: Tally) {
    && Distinct(t.restored)
    && (forall p | p in t.restored :: Chain(cs, p) != [])
    && (forall p: Path | Chain(cs, p) != [] :: p in t.restored <==> p !in t.skipped)
    && (forall p | Warned(ws, p) :: p in t.skipped)
    && (Warned(ws, UNKNOWN_PATH) ==> t.restored == [])
    && (forall p :: p in t.states <==> p in t.restored)
    && (forall p | p in t.restored :: SeenBack(Chain(cs, p), t.states[p]))
  }

  predicate SeenBack(chain: seq<Change>, state: FileState) {
    chain != [] && Continuous(chain) && (SameImage(state, chain[0].before) || TakesUnseen(chain))
  }

  /** The path was absent at the start and not so at the end.  A restore removes the file, or finds none
      in another directory, and reports what it finds then without comparing it with the wanted image. */
  predicate TakesUnseen(chain: seq<Change>)
    requires chain != []
  {
    var start, end := chain[0].before, chain[|chain| - 1].after;
    start.Absent? && !end.Skipped? && !SameImage(end, start)
  }

  /** Since the deeds of was, the path was found in this state, and only others acted afterwards. */
  ghost predicate FoundLast(origin: Workspace, was: seq<Deed>, now: seq<Deed>, p: Path, state: FileState) {
    !state.Skipped? && exists k :: |was| <= k <= |now| && FoundAt(origin, now, k, p, state)
  }

  predicate FoundAt(origin: Workspace, deeds: seq<Deed>, k: nat, p: Path, state: FileState)
    requires k <= |deeds|
  {
    Capture(Replayed(origin, deeds[..k]), p) == state && forall i | k <= i < |deeds| :: deeds[i].Foreign?
  }

  /** What is reported was really there after the last write of the restore. */
  ghost predicate LastLook(was: Workspace, deeds: seq<Deed>, t: Tally) {
    forall p | p in t.restored :: p in t.states && FoundLast(was, [], deeds, p, t.states[p])
  }

  /** All a restore promises whatever others do meanwhile: deeds turned was into what it is now. */
  ghost predicate Outcome(cs: seq<Change>, ws: seq<Warning>, was: Workspace, deeds: seq<Deed>, t: Tally) {
    CasSafe(was, deeds, cs, ws) && Accounted(cs, ws, t) && LastLook(was, deeds, t)
  }

  /** Found after some of the deeds, seen from the workspace those had left. */
  lemma FoundSuffix(origin: Workspace, was: seq<Deed>, now: seq<Deed>, p: Path, state: FileState)
    requires was <= now && FoundLast(origin, was, now, p, state)
    ensures FoundLast(Replayed(origin, was), [], now[|was|..], p, state)
  {
    var k :| |was| <= k <= |now| && FoundAt(origin, now, k, p, state);
    var since := now[|was|..];
    assert now[..k] == was + since[..k - |was|];
    ReplayedConcat(origin, was, since[..k - |was|]);
    assert FoundAt(Replayed(origin, was), since, k - |was|, p, state);
  }

  lemma FoundLater(origin: Workspace, was: seq<Deed>, now: seq<Deed>, later: seq<Deed>, p: Path, state: FileState)
    requires FoundLast(origin, was, now, p, state)
    requires now <= later && forall i | |now| <= i < |later| :: later[i].Foreign?
    ensures FoundLast(origin, was, later, p, state)
  {
    var k :| |was| <= k <= |now| && FoundAt(origin, now, k, p, state);
    assert later[..k] == now[..k];
    assert FoundAt(origin, later, k, p, state);
  }

  lemma FoundNow(origin: Workspace, was: seq<Deed>, now: seq<Deed>, p: Path, state: FileState)
    requires |was| <= |now| && !state.Skipped? && Capture(Replayed(origin, now), p) == state
    ensures FoundLast(origin, was, now, p, state)
  {
    Sequences.Whole(now);
    assert FoundAt(origin, now, |now|, p, state);
  }

  /** One path after an undisturbed restore. */
  ghost predicate FateMet(p: Path, cs: seq<Change>, ws: seq<Warning>, was: Workspace, blobs: set<Digest>,
                          t: Tally, now: Workspace)
  {
    var c := Chain(cs, p);
    if c == [] then p !in t.restored && (p in was ==> p in now && now[p] == was[p])
    else
      var f := FateOf(p, c, Usable(ws, p), Capture(was, p), blobs);
      && (p in t.restored <==> IsBack(f))
      && (p in was ==> p in now && Meets(f, was[p], c[0].before, now[p]))
      && (IsBack(f) ==> p in was && p in t.states && t.states[p] == now[p])
  }

  /** An undisturbed restore does to every file of the workspace exactly what its fate says. */
  ghost predicate FatesMet(cs: seq<Change>, ws: seq<Warning>, was: Workspace, blobs: set<Digest>,
                           t: Tally, now: Workspace)
  {
    now.Keys == was.Keys && forall p: Path :: FateMet(p, cs, ws, was, blobs, t, now)
  }

  // ----- complete restores -------------------------------------------------------------------------

  /** A file a restore can bring back right now: at its recorded end, or already there. */
  predicate ReadyAt(chain: seq<Change>, now: FileState, blobs: set<Digest>)
    requires chain != []
  {
    && Continuous(chain)
    && !now.Skipped? && !chain[0].before.Skipped?
    && ParentOf(now) == ParentOf(chain[0].before)
    && HasBlob(chain[0].before, blobs)
    && (now == chain[|chain| - 1].after || SameImage(now, chain[0].before))
  }

  /** The files a quiet restore can bring back completely. */
  ghost predicate Restorable(cs: seq<Change>, ws: Workspace, blobs: set<Digest>) {
    forall p: Path | Chain(cs, p) != [] :: p in ws && ReadyAt(Chain(cs, p), ws[p], blobs)
  }

  /** The fate of a ready file is its wanted image. */
  lemma ReadyFate(p: Path, chain: seq<Change>, now: FileState, blobs: set<Digest>, after: FileState)
    requires chain != [] && ReadyAt(chain, now, blobs)
    requires Meets(FateOf(p, chain, true, now, blobs), now, chain[0].before, after)
    ensures IsBack(FateOf(p, chain, true, now, blobs)) && SameImage(after, chain[0].before)
  {
  }

  /** Without warnings, and with every chain ready, all touched files are back and no other changes. */
  lemma FullFromFates(cs: seq<Change>, ws: seq<Warning>, was: Workspace, blobs: set<Digest>, t: Tally, now: Workspace)
    requires FatesMet(cs, ws, was, blobs, t, now) && Accounted(cs, ws, t)
    requires ws == [] && Restorable(cs, was, blobs)
    ensures FullRestoreOf(cs, was, t.restored, t.states, now)
    ensures forall p: Path | Chain(cs, p) != [] :: p !in t.skipped
  {
    forall p: Path
      ensures p in t.restored <==> Chain(cs, p) != []
      ensures p in t.restored ==>
                p in t.states && p in was && t.states[p] == now[p] && SameImage(now[p], Base(cs, p, was[p]))
      ensures p in was && p !in t.restored ==> now[p] == was[p]
    {
      assert FateMet(p, cs, ws, was, blobs, t, now);
      if Chain(cs, p) != [] {
        ReadyFate(p, Chain(cs, p), was[p], blobs, now[p]);
      }
    }
  }

  // ----- retry after an exit between file mutations -----------------------------------------

  /** Some files were already brought back, the others are still as recorded. */
  ghost predicate PartlyRestored(cs: seq<Change>, was: Workspace, now: Workspace) {
    && now.Keys == was.Keys
    && forall p | p in was ::
         now[p] == was[p] || (Chain(cs, p) != [] && SameImage(now[p], Chain(cs, p)[0].before))
  }

  /** So it is when an undisturbed restore of restorable chains ends after any of its writes. */
  lemma {:induction false} ExitLeavesPartly(cs: seq<Change>, ws: seq<Warning>, was: Workspace, blobs: set<Digest>,
                                            deeds: seq<Deed>, k: nat)
    requires Restorable(cs, was, blobs) && CasSafe(was, deeds, cs, ws) && OnlyOwn(deeds) && k <= |deeds|
    ensures PartlyRestored(cs, was, Replayed(was, deeds[..k]))
  {
    if k > 0 {
      ExitLeavesPartly(cs, ws, was, blobs, deeds, k - 1);
      Sequences.Appended(deeds[..k - 1], deeds[k - 1]);
      assert deeds[..k] == deeds[..k - 1] + [deeds[k - 1]];
      assert HonestAt(was, deeds, k - 1) && Allowed(deeds[k - 1].write, cs, ws);
      OneMoreBack(cs, was, blobs, Replayed(was, deeds[..k - 1]), deeds[k - 1].write);
    }
  }

  lemma OneMoreBack(cs: seq<Change>, was: Workspace, blobs: set<Digest>, now: Workspace, w: FileWrite)
    requires Restorable(cs, was, blobs) && PartlyRestored(cs, was, now)
    requires Chain(cs, w.path) != [] && w.path in now && now[w.path] == w.was
    requires Overwrites(w.was, w.now, Chain(cs, w.path)[0].before)
    ensures PartlyRestored(cs, was, now[w.path := w.now])
  {
    assert ReadyAt(Chain(cs, w.path), was[w.path], blobs);
  }

  /** The retry of a restore that an exit cut short after any of its file writes. */
  lemma RetryAfterExit(cs: seq<Change>, ws: seq<Warning>, was: Workspace, blobs: set<Digest>, deeds: seq<Deed>, k: nat,
                       paths: seq<Path>, states: Workspace, retried: Workspace,
                       paths0: seq<Path>, states0: Workspace, direct: Workspace)
    requires Restorable(cs, was, blobs) && CasSafe(was, deeds, cs, ws) && OnlyOwn(deeds) && k <= |deeds|
    requires FullRestoreOf(cs, Replayed(was, deeds[..k]), paths, states, retried)
    requires FullRestoreOf(cs, was, paths0, states0, direct)
    ensures Restorable(cs, Replayed(was, deeds[..k]), blobs)
    ensures retried.Keys == direct.Keys && forall p | p in retried :: SameOrUntouched(retried[p], direct[p])
  {
    ExitLeavesPartly(cs, ws, was, blobs, deeds, k);
    RetryCompletes(cs, was, Replayed(was, deeds[..k]), blobs, paths, states, retried, paths0, states0, direct);
  }

  lemma PartlyRestorable(cs: seq<Change>, was: Workspace, now: Workspace, blobs: set<Digest>)
    requires Restorable(cs, was, blobs) && PartlyRestored(cs, was, now)
    ensures Restorable(cs, now, blobs)
  {
    forall p: Path | Chain(cs, p) != [] ensures p in now && ReadyAt(Chain(cs, p), now[p], blobs) {
      assert ReadyAt(Chain(cs, p), was[p], blobs);
    }
  }

  /** A complete restore of what an interrupted one left is a complete restore from where that began. */
  lemma FullFromPartly(cs: seq<Change>, was: Workspace, now: Workspace, paths: seq<Path>, states: Workspace,
                       after: Workspace)
    requires PartlyRestored(cs, was, now) && FullRestoreOf(cs, now, paths, states, after)
    ensures FullRestoreOf(cs, was, paths, states, after)
  {
  }

  /** An interrupted restore can be repeated: everything is still restorable, and the
      second attempt ends with the images the first one was after. */
  lemma RetryCompletes(cs: seq<Change>, was: Workspace, now: Workspace, blobs: set<Digest>,
                       paths: seq<Path>, states: Workspace, retried: Workspace,
                       paths0: seq<Path>, states0: Workspace, direct: Workspace)
    requires Restorable(cs, was, blobs) && PartlyRestored(cs, was, now)
    requires FullRestoreOf(cs, now, paths, states, retried)
    requires FullRestoreOf(cs, was, paths0, states0, direct)
    ensures Restorable(cs, now, blobs)
    ensures retried.Keys == direct.Keys && forall p | p in retried :: SameOrUntouched(retried[p], direct[p])
  {
    PartlyRestorable(cs, was, now, blobs);
    forall p | p in retried ensures SameOrUntouched(retried[p], direct[p]) {
      if Chain(cs, p) != [] {
        assert p in paths && p in paths0;
      }
    }
  }
}
