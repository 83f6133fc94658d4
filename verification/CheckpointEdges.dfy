/** Where the undo guarantee ends, exactly. */
module CheckpointEdges {
  import opened CheckpointData
  import opened Lineage
  import opened Timeline
  import opened CheckpointSpec
  import opened Collections
  import opened RestoreFates
  import opened CheckpointDisk
  import opened RestoreSpec
  import opened CheckpointLaws
  import opened RestoreLaws
  import opened CheckpointStore
  import opened RestoreFiles
  import Sequences

  // ----- one call naming the same file more than once ----------------------------------

  function Count(paths: seq<Path>, p: Path): nat {
    if paths == [] then 0
    else Count(paths[..|paths| - 1], p) + (if paths[|paths| - 1] == p then 1 else 0)
  }

  function Same(c: Change, n: nat): (r: seq<Change>)
    ensures |r| == n && forall i | 0 <= i < n :: r[i] == c
  {
    if n == 0 then [] else Same(c, n - 1) + [c]
  }

  lemma {:induction false} DeltaRepeats(paths: seq<Path>, was: Workspace, now: Workspace, p: Path)
    requires forall q | q in paths :: q in was && q in now
    ensures Count(paths, p) > 0 ==> p in paths
    ensures Chain(Delta(paths, was, now), p) ==
            if Count(paths, p) > 0 && !SameImage(was[p], now[p])
            then Same(Change(p, was[p], now[p]), Count(paths, p)) else []
  {
    if paths != [] {
      var n := |paths| - 1;
      var q := paths[n];
      DeltaRepeats(paths[..n], was, now, p);
      DeltaSnoc(paths, was, now, p);
    }
  }

  /** Targets are told apart by spelling, so one call can record a file twice.  Such a call
      keeps the file restorable exactly when it left the file unchanged or named it once. */
  lemma RepeatedTarget(paths: seq<Path>, was: Workspace, now: Workspace, p: Path)
    requires forall q | q in paths :: q in was && q in now && !was[q].Skipped? && !now[q].Skipped?
    requires p in paths
    ensures Continuous(Chain(Delta(paths, was, now), p)) <==> SameImage(was[p], now[p]) || Count(paths, p) == 1
  {
    DeltaRepeats(paths, was, now, p);
    CountPositive(paths, p);
    var c := Chain(Delta(paths, was, now), p);
    if !SameImage(was[p], now[p]) && Count(paths, p) > 1 {
      assert !StatesEqual(c[0].after, c[1].before, true);
    }
  }

  lemma {:induction false} CountPositive(paths: seq<Path>, p: Path)
    requires p in paths
    ensures Count(paths, p) > 0
  {
    var n := |paths| - 1;
    assert paths == paths[..n] + [paths[n]];
    if paths[n] != p { CountPositive(paths[..n], p); }
  }

  lemma CountTwice(p: Path)
    ensures Count([p, p], p) == 2
  {
    assert [p, p][..1] == [p];
    assert [p][..0] == [];
    assert Count([p], p) == 1;
  }

  lemma TwiceNamed(p: Path, was: Workspace, now: Workspace)
    requires p in was && p in now && !was[p].Skipped? && !now[p].Skipped? && !SameImage(was[p], now[p])
    ensures !Continuous(Chain(Delta([p, p], was, now), p))
  {
    CountTwice(p);
    RepeatedTarget([p, p], was, now, p);
  }

  /** One file under two spellings, written once: no restore will touch it again. */
  lemma RepeatedTargetExample(p: Path)
    ensures var was := map[p := Regular("old", 420, 1, 9)];
            var now := map[p := Regular("new", 420, 2, 9)];
            !Continuous(Chain(Delta([p, p], was, now), p))
  {
    assert "old"[0] != "new"[0];
    TwiceNamed(p, map[p := Regular("old", 420, 1, 9)], map[p := Regular("new", 420, 2, 9)]);
  }

  // ----- an unrecorded rewrite of the same bytes ------------------------------------------

  /** A call that rewrites equal content records nothing; the next recorded change then joins the
      chain exactly when the rewrite kept the inode. */
  lemma SilentRewrite(chain: seq<Change>, was: FileState, rewritten: FileState, now: FileState, p: Path)
    requires Linked(chain, was) && chain != []
    requires SameImage(was, rewritten) && !SameImage(rewritten, now)
    ensures Continuous(chain + [Change(p, rewritten, now)]) <==> was == rewritten
  {
    var longer := chain + [Change(p, rewritten, now)];
    assert longer[|chain| - 1].after == was && longer[|chain|].before == rewritten;
    if Continuous(longer) {
      assert StatesEqual(longer[|chain| - 1].after, longer[|chain|].before, true);
    }
    if was == rewritten {
      forall i | 0 < i < |longer| ensures StatesEqual(longer[i - 1].after, longer[i].before, true) {
        if i < |chain| {
          assert longer[i - 1] == chain[i - 1] && longer[i] == chain[i];
        }
      }
    }
  }

  /** Such a rewrite as the last thing that happened to the file: an undisturbed restore still
      brings the file back exactly when the rewrite kept the inode.  With a new one it leaves the
      file alone and reports it as skipped. */
  lemma SilentRewriteLast(chain: seq<Change>, was: FileState, rewritten: FileState, p: Path, blobs: set<Digest>)
    requires Linked(chain, was) && chain != [] && ReadyAt(chain, was, blobs)
    requires SameImage(was, rewritten) && !SameImage(was, chain[0].before)
    ensures IsBack(FateOf(p, chain, true, rewritten, blobs)) <==> was == rewritten
    ensures was != rewritten ==> FateOf(p, chain, true, rewritten, blobs) == Untouched(false)
  {
  }

  /** One recorded edit, then the same bytes saved again under a new inode. */
  lemma SilentRewriteExample(p: Path)
    ensures var saved, edited := Regular("old", 420, 1, 9), Regular("new", 420, 2, 9);
            var chain := [Change(p, saved, edited)];
            && FateOf(p, chain, true, edited, {"old"}) == Rewritten(true)
            && FateOf(p, chain, true, Regular("new", 420, 3, 9), {"old"}) == Untouched(false)
  {
  }

  // ----- a directory replaced between the recorded start and end ---------------------------

  /** An undisturbed restore writes a file and yet reports it as skipped exactly when the file is at
      its recorded end, may be restored, its wanted bytes are stored, and its directory is not the
      one it was in at the start. */
  lemma ReplacedDirectory(p: Path, cs: seq<Change>, ws: seq<Warning>, was: Workspace, blobs: set<Digest>,
                          t: Tally, now: Workspace)
    requires FatesMet(cs, ws, was, blobs, t, now) && Accounted(cs, ws, t)
    requires p in was && Chain(cs, p) != []
    ensures var c := Chain(cs, p); var start, end := c[0].before, c[|c| - 1].after;
            p in t.skipped && now[p] != was[p] <==>
            && Usable(ws, p) && Continuous(c) && was[p] == end && !end.Skipped?
            && start.Regular? && start.digest in blobs && ParentOf(end) != start.parent
  {
    assert FateMet(p, cs, ws, was, blobs, t, now);
  }

  /** A file given up in this way is neither at its recorded end nor back: every later undisturbed
      restore of the same chain leaves it alone and skips it again. */
  lemma GivenUpForGood(p: Path, chain: seq<Change>, usable: bool, was: FileState, blobs: set<Digest>, now: FileState)
    requires chain != [] && FateOf(p, chain, usable, was, blobs) == Rewritten(false)
    requires Meets(Rewritten(false), was, chain[0].before, now)
    ensures FateOf(p, chain, usable, now, blobs) == Untouched(false)
    ensures !ReadyAt(chain, now, blobs)
  {
  }

  /** The file was edited after its directory 1 had been replaced by directory 2. */
  lemma ReplacedDirectoryExample(p: Path, inode: nat)
    requires inode != 2
    ensures var chain := [Change(p, Regular("old", 420, 1, 1), Regular("new", 420, 2, 2))];
            var written := Regular("old", 420, inode, 2);
            && FateOf(p, chain, true, Regular("new", 420, 2, 2), {"old"}) == Rewritten(false)
            && Meets(Rewritten(false), Regular("new", 420, 2, 2), chain[0].before, written)
            && FateOf(p, chain, true, written, {"old"}) == Untouched(false)
  {
  }

  /** A file that was absent at the start is removed and reported as back whatever directory it is in;
      the report shows the recorded image only if it is the same one. */
  lemma RemovedAnywhere(p: Path, cs: seq<Change>, ws: seq<Warning>, was: Workspace, blobs: set<Digest>,
                        t: Tally, now: Workspace)
    requires FatesMet(cs, ws, was, blobs, t, now) && Accounted(cs, ws, t)
    requires p in was && was[p].Regular? && Chain(cs, p) != [] && Chain(cs, p)[0].before.Absent?
    requires Usable(ws, p) && Continuous(Chain(cs, p)) && was[p] == Chain(cs, p)[|Chain(cs, p)| - 1].after
    ensures p in t.restored && now[p] == Absent(was[p].parent)
    ensures p in t.states && t.states[p] == now[p]
    ensures SameImage(now[p], Chain(cs, p)[0].before) <==> was[p].parent == Chain(cs, p)[0].before.parent
  {
    assert FateMet(p, cs, ws, was, blobs, t, now);
  }

  // ----- warned about for good ---------------------------------------------------------------

  /** Whatever others do meanwhile, a path somebody warned about is skipped and not written, and the
      restore is not clean. */
  lemma WarnedIsSkipped(d: Disk, start: nat, quiet: bool, was: Workspace, deeds: seq<Deed>, tally: Tally, clean: bool,
                        now: Workspace, p: Path)
    requires FileOutcome(d, start, quiet, was, deeds, tally, clean, now)
    requires Warned(Warnings(Ordered(d.manifests, d.index.order[start..])), p)
    ensures !clean && p in tally.skipped
    ensures Capture(now, p) == Capture(Replayed(was, Others(deeds)), p)
  {
    var ms := Ordered(d.manifests, d.index.order[start..]);
    Frame(was, deeds, History(ms), Warnings(ms), p);
  }

  lemma {:induction false} WarnedIn(ms: seq<Manifest>, p: Path)
    ensures Warned(Warnings(ms), p) <==> exists i | 0 <= i < |ms| :: Warned(ms[i].warnings, p)
  {
    if ms != [] {
      var n := |ms| - 1;
      WarnedIn(ms[..n], p);
      WarnedConcat(Warnings(ms[..n]), ms[n].warnings);
      assert forall i | 0 <= i < n :: ms[..n][i] == ms[i];
    }
  }

  /** After an incomplete restore, however often it is repeated: any restore from there or from an earlier
      checkpoint skips the path again. */
  lemma WarnedForGood(d: Disk, d': Disk, start: nat, retain: bool, t: Tally, p: Path,
                      closed: Disk, again: nat, quiet: bool, was: Workspace, deeds: seq<Deed>, tally: Tally,
                      clean: bool, now: Workspace)
    requires InIndex(d) && start <= |d.index.order| && forall q | q in t.restored :: q in t.states
    requires Warned(Warnings(Ordered(d.manifests, d.index.order[start..])), p)
    requires Advances(d, d', start, retain, t, false) == true && again <= start
    requires FinishesAll(d', closed, d'.index.order[again..]) == true
    requires FileOutcome(closed, again, quiet, was, deeds, tally, clean, now) == true
    ensures !clean && p in tally.skipped
  {
    var j := WarnedAt(d.manifests, d.index.order, start, p);
    KeptWarning(d, d', start, retain, t, closed, again, d.index.order[j], p);
    WarnedFrom(closed.manifests, closed.index.order, again, j, p);
    WarnedIsSkipped(closed, again, quiet, was, deeds, tally, clean, now, p);
  }

  lemma WarnedAt(ms: map<Id, Manifest>, order: seq<Id>, start: nat, p: Path) returns (j: nat)
    requires AllIn(ms, order) && start <= |order| && Warned(Warnings(Ordered(ms, order[start..])), p)
    ensures start <= j < |order| && Warned(ms[order[j]].warnings, p)
  {
    WarnedIn(Ordered(ms, order[start..]), p);
    var i :| 0 <= i < |order| - start && Warned(Ordered(ms, order[start..])[i].warnings, p);
    j := start + i;
  }

  lemma WarnedFrom(ms: map<Id, Manifest>, order: seq<Id>, start: nat, j: nat, p: Path)
    requires AllIn(ms, order) && start <= j < |order| && Warned(ms[order[j]].warnings, p)
    ensures Warned(Warnings(Ordered(ms, order[start..])), p)
  {
    WarnedIn(Ordered(ms, order[start..]), p);
    assert Warned(Ordered(ms, order[start..])[j - start].warnings, p);
  }

  lemma KeptWarning(d: Disk, d': Disk, start: nat, retain: bool, t: Tally, closed: Disk, again: nat, id: Id, p: Path)
    requires InIndex(d) && start <= |d.index.order| && forall q | q in t.restored :: q in t.states
    requires Advances(d, d', start, retain, t, false) && again <= start
    requires FinishesAll(d', closed, d'.index.order[again..])
    requires id in d.index.order && id in d.manifests && Warned(d.manifests[id].warnings, p)
    ensures closed.index == d.index && id in closed.manifests && Warned(closed.manifests[id].warnings, p)
  {
    assert EntryAfter(d.manifests, d'.manifests, d.index.order, start, retain, false, id);
    var m, m' := d'.manifests[id], closed.manifests[id];
    if m' != m {
      assert Closing(m, m', d'.pending, id);
      WarnedStays(m.warnings, m'.warnings, p);
    }
  }

  // ----- a state taken for the restored one unseen ---------------------------------------------

  function Paths(cs: seq<Change>): seq<Path> {
    if cs == [] then [] else Paths(cs[..|cs| - 1]) + [cs[|cs| - 1].path]
  }

  function WarnedPaths(ws: seq<Warning>): seq<Path> {
    if ws == [] then [] else WarnedPaths(ws[..|ws| - 1]) + [ws[|ws| - 1].path]
  }

  function Except(ps: seq<Path>, p: Path): (r: seq<Path>)
    ensures forall q :: q in r <==> q in ps && q != p
  {
    if ps == [] then []
    else
      var rest := Except(ps[..|ps| - 1], p);
      if ps[|ps| - 1] == p then rest else rest + [ps[|ps| - 1]]
  }

  lemma {:induction false} PathsHaveChains(cs: seq<Change>, p: Path)
    ensures Chain(cs, p) != [] ==> p in Paths(cs)
  {
    if cs != [] {
      var n := |cs| - 1;
      Sequences.Snoc(cs);
      PathsHaveChains(cs[..n], p);
      ChainSnoc(cs[..n], cs[n], p);
    }
  }

  lemma {:induction false} WarnedAreListed(ws: seq<Warning>, p: Path)
    ensures Warned(ws, p) ==> p in WarnedPaths(ws)
  {
    if ws != [] {
      var n := |ws| - 1;
      WarnedAreListed(ws[..n], p);
      if Warned(ws, p) && ws[n].path != p {
        var k :| 0 <= k < |ws| && ws[k].path == p;
        assert ws[..n][k].path == p;
      }
    }
  }

  /** One path reported as back, every other one given up. */
  function OnlyBack(cs: seq<Change>, ws: seq<Warning>, p: Path, state: FileState): Tally {
    Tally([p], map[p := state], Except(Paths(cs) + WarnedPaths(ws), p))
  }

  lemma OnlyBackAccounted(cs: seq<Change>, ws: seq<Warning>, p: Path, state: FileState)
    requires Chain(cs, p) != [] && Usable(ws, p) && SeenBack(Chain(cs, p), state)
    ensures Accounted(cs, ws, OnlyBack(cs, ws, p, state))
  {
    var t := OnlyBack(cs, ws, p, state);
    forall q: Path | Chain(cs, q) != [] ensures q in t.restored <==> q !in t.skipped {
      PathsHaveChains(cs, q);
    }
    forall q | Warned(ws, q) ensures q in t.skipped {
      WarnedAreListed(ws, q);
    }
  }

  /** The removal of the recorded file, and what others put in its place. */
  function Removal(p: Path, end: FileState, after: FileState): seq<Deed> {
    [Own(FileWrite(p, end, Absent(ParentOf(end)))), Foreign(map[p := after])]
  }

  /** A file created again right after its removal is reported as restored, whatever it is. */
  lemma AnythingReported(cs: seq<Change>, ws: seq<Warning>, p: Path, after: FileState)
    requires Chain(cs, p) != [] && Continuous(Chain(cs, p)) && Usable(ws, p)
    requires Chain(cs, p)[0].before.Absent? && Chain(cs, p)[|Chain(cs, p)| - 1].after.Regular? && !after.Skipped?
    ensures var end := Chain(cs, p)[|Chain(cs, p)| - 1].after;
            Outcome(cs, ws, map[p := end], Removal(p, end, after), OnlyBack(cs, ws, p, after)) == true
  {
    var end := Chain(cs, p)[|Chain(cs, p)| - 1].after;
    var was, deeds := map[p := end], Removal(p, end, after);
    OnlyBackAccounted(cs, ws, p, after);
    assert deeds[..1] == [deeds[0]] && [deeds[0]][..0] == [] && deeds[..0] == [];
    FoundNow(was, [], deeds, p, after);
    assert HonestAt(was, deeds, 0) && Allowed(deeds[0].write, cs, ws);
  }

  /** An absent file found in another directory is reported as restored as it is. */
  lemma OtherAbsence(cs: seq<Change>, ws: seq<Warning>, p: Path)
    requires Chain(cs, p) != [] && Continuous(Chain(cs, p)) && Usable(ws, p) && TakesUnseen(Chain(cs, p))
    requires Chain(cs, p)[|Chain(cs, p)| - 1].after.Absent?
    ensures var end := Chain(cs, p)[|Chain(cs, p)| - 1].after;
            Outcome(cs, ws, map[p := end], [], OnlyBack(cs, ws, p, end))
  {
    var end := Chain(cs, p)[|Chain(cs, p)| - 1].after;
    OnlyBackAccounted(cs, ws, p, end);
    FoundNow(map[p := end], [], [], p, end);
  }

  ghost predicate ReportsWanted(cs: seq<Change>, ws: seq<Warning>, p: Path, was: Workspace, deeds: seq<Deed>, t: Tally)
    requires Chain(cs, p) != []
  {
    Outcome(cs, ws, was, deeds, t) && p in t.restored ==>
      p in t.states && SameImage(t.states[p], Chain(cs, p)[0].before)
  }

  /** Whatever others do, a usable path reported as restored was seen with its wanted image, exactly if
      the chain is not one that was absent at the start and is not so at the end. */
  lemma ReportTrusted(cs: seq<Change>, ws: seq<Warning>, p: Path)
    requires Chain(cs, p) != [] && Continuous(Chain(cs, p)) && Usable(ws, p)
    ensures (forall was, deeds, t :: ReportsWanted(cs, ws, p, was, deeds, t)) <==> !TakesUnseen(Chain(cs, p))
  {
    var c := Chain(cs, p);
    if TakesUnseen(c) {
      var end := c[|c| - 1].after;
      if end.Regular? {
        AnythingReported(cs, ws, p, end);
        assert !ReportsWanted(cs, ws, p, map[p := end], Removal(p, end, end), OnlyBack(cs, ws, p, end));
      } else {
        OtherAbsence(cs, ws, p);
        assert !ReportsWanted(cs, ws, p, map[p := end], [], OnlyBack(cs, ws, p, end));
      }
    } else {
      forall was, deeds, t ensures ReportsWanted(cs, ws, p, was, deeds, t) {
        if Outcome(cs, ws, was, deeds, t) && p in t.restored { assert SeenBack(c, t.states[p]); }
      }
    }
  }

  /** The reported state becomes the end of the path's earlier chain, identity included.  An earlier
      restore therefore takes it for its own: it leaves the file alone exactly if the file shows the
      earlier wanted image, or none is wanted and there is none, or the wanted one cannot be written. */
  lemma ReportInherited(ms: seq<Manifest>, start: nat, t: Tally, p: Path, blobs: set<Digest>)
    requires start <= |ms| && Distinct(t.restored) && forall q | q in t.restored :: q in t.states
    requires p in t.restored && !t.states[p].Skipped?
    requires Chain(History(ms[..start]), p) != [] && Continuous(Chain(History(ms[..start]), p))
    ensures var wanted := Chain(History(ms[..start]), p)[0].before; var state := t.states[p];
            var c := Chain(History(RebaseAll(ms[..start], t.restored, t.states)), p);
            && c != [] && Continuous(c) && c[0].before == wanted && c[|c| - 1].after == state
            && (FateOf(p, c, true, state, blobs).Untouched? <==>
                SameImage(state, wanted) || (state.Absent? && wanted.Absent?) || wanted.Skipped?
                || (wanted.Regular? && wanted.digest !in blobs))
  {
    var pre := ms[..start];
    RebaseAllSuffix(pre, 0, t.restored, t.states, p);
    Sequences.Whole(pre);
    Sequences.Whole(RebaseAll(pre, t.restored, t.states));
    RetargetedChain(Chain(History(pre), p), t.states[p]);
    RetargetedFate(p, Chain(History(pre), p), t.states[p], blobs);
  }

  lemma RetargetedFate(p: Path, chain: seq<Change>, state: FileState, blobs: set<Digest>)
    requires chain != [] && Continuous(chain) && !state.Skipped?
    ensures var wanted := chain[0].before; var c := Retarget(chain, state);
            c != [] &&
            (FateOf(p, c, true, state, blobs).Untouched? <==>
             SameImage(state, wanted) || (state.Absent? && wanted.Absent?) || wanted.Skipped?
             || (wanted.Regular? && wanted.digest !in blobs))
  {
    RetargetedChain(chain, state);
  }

  lemma RetargetedChain(chain: seq<Change>, state: FileState)
    requires chain != [] && Continuous(chain)
    ensures var c := Retarget(chain, state);
            c != [] && Continuous(c) && c[0].before == chain[0].before && c[|c| - 1].after == state
  {
    var c := Retarget(chain, state);
    forall i | 0 < i < |c| ensures StatesEqual(c[i - 1].after, c[i].before, true) {
      assert c[i - 1].after == chain[i - 1].after && c[i].before == chain[i].before;
    }
  }

  /** One turn deletes a file, the next creates it anew.  Undoing the second removes it; somebody else's
      file, put there at once, is taken for the deletion, and undoing the first overwrites it. */
  lemma ForeignFileLost(p: Path)
    ensures var first, made := Regular("old", 420, 1, 9), Regular("made", 420, 2, 9);
            var theirs := Regular("theirs", 420, 3, 9);
            var turn, next := [Change(p, first, Absent(9))], [Change(p, Absent(9), made)];
            && Continuous(turn + next)
            && Outcome(next, [], map[p := made], Removal(p, made, theirs), OnlyBack(next, [], p, theirs)) == true
            && FateOf(p, Retarget(turn, theirs), true, theirs, {"old"}) == Rewritten(true)
  {
    var first, made, theirs := Regular("old", 420, 1, 9), Regular("made", 420, 2, 9), Regular("theirs", 420, 3, 9);
    TheirsReported(p, made, theirs);
    TakenForDeletion(p, first, theirs);
  }

  lemma TheirsReported(p: Path, made: FileState, theirs: FileState)
    requires made.Regular? && !theirs.Skipped?
    ensures var next := [Change(p, Absent(made.parent), made)];
            Outcome(next, [], map[p := made], Removal(p, made, theirs), OnlyBack(next, [], p, theirs)) == true
  {
    OneChange(Change(p, Absent(made.parent), made));
    AnythingReported([Change(p, Absent(made.parent), made)], [], p, theirs);
  }

  lemma OneChange(c: Change)
    ensures Chain([c], c.path) == [c]
  {
    ChainSnoc([], c, c.path);
    assert [] + [c] == [c];
  }

  lemma TakenForDeletion(p: Path, first: FileState, theirs: FileState)
    requires first.Regular? && theirs.Regular? && first.digest != theirs.digest && first.parent == theirs.parent
    ensures FateOf(p, Retarget([Change(p, first, Absent(first.parent))], theirs), true, theirs, {first.digest})
            == Rewritten(true)
  {
    assert Retarget([Change(p, first, Absent(first.parent))], theirs) == [Change(p, first, theirs)];
  }
}
