/** The file half of a restore: compare-and-swap against a workspace that other
    programs may write between any two captures. */
module RestoreFiles {
  import opened Collections
  import opened CheckpointData
  import opened Lineage
  import opened Timeline
  import Sequences
  import opened CheckpointSpec
  import opened RestoreFates

  class Files {
    /** Nothing else writes and no system call fails. */
    const quiet: bool
    var states: Workspace
    /** The workspace as it was first seen, and everything that happened to it since. */
    ghost const origin: Workspace
    ghost var deeds: seq<Deed>

    ghost predicate Valid()
      reads this
    {
      states == Replayed(origin, deeds)
    }

    constructor (quiet: bool, states: Workspace)
      ensures Valid() && this.quiet == quiet && this.states == states && deeds == []
    {
      this.quiet := quiet;
      this.states, origin := states, states;
      deeds := [];
    }

    /** Anyone else may act here. */
    method Elsewhere()
      requires Valid()
      modifies this
      ensures Valid() && Undone(deeds, old(deeds))
      ensures quiet ==> states == old(states) && deeds == old(deeds)
    {
      if !quiet {
        states := *;
        deeds := deeds + [Foreign(states)];
      }
    }

    method Fails() returns (failed: bool)
      ensures quiet ==> !failed
    {
      failed := *;
      failed := failed && !quiet;
    }

    /** Rename a fully written private file over the path: an inode appears that is not the old one's. */
    method Replace(p: Path, digest: Digest, mode: nat)
      requires Valid() && p in states
      modifies this
      ensures Valid() && p in states && states == old(states)[p := states[p]]
      ensures Overwrites(old(states)[p], states[p], Regular(digest, mode, 0, 0))
      ensures deeds == old(deeds) + [Own(FileWrite(p, old(states)[p], states[p]))]
    {
      var was := states[p];
      var inode: nat := *;
      if was.Regular? && inode == was.inode { inode := inode + 1; }
      states := states[p := Regular(digest, mode, inode, ParentOf(was))];
      deeds := deeds + [Own(FileWrite(p, was, states[p]))];
    }

    method Unlink(p: Path)
      requires Valid() && p in states
      modifies this
      ensures Valid() && states == old(states)[p := Absent(ParentOf(old(states)[p]))]
      ensures deeds == old(deeds) + [Own(FileWrite(p, old(states)[p], states[p]))]
    {
      var was := states[p];
      states := states[p := Absent(ParentOf(was))];
      deeds := deeds + [Own(FileWrite(p, was, states[p]))];
    }
  }

  /** Only others acted since. */
  ghost predicate Undone(now: seq<Deed>, was: seq<Deed>) {
    was <= now && forall i | |was| <= i < |now| :: now[i].Foreign?
  }

  /** Nobody else acted since. */
  ghost predicate OwnSince(was: seq<Deed>, now: seq<Deed>) {
    was <= now && forall i | |was| <= i < |now| :: now[i].Own?
  }

  // ----- collecting chains and warnings -------------------------------------------

  /** chains maps exactly the touched paths to their concatenated changes. */
  ghost predicate ChainsOf(cs: seq<Change>, keys: seq<Path>, chains: map<Path, seq<Change>>) {
    && Distinct(keys)
    && (forall p :: p in keys <==> p in chains)
    && (forall p :: p in chains <==> Chain(cs, p) != [])
    && (forall p | p in chains :: chains[p] == Chain(cs, p))
  }

  method AddChange(ghost cs: seq<Change>, keys: seq<Path>, chains: map<Path, seq<Change>>, c: Change)
    returns (keys': seq<Path>, chains': map<Path, seq<Change>>)
    requires ChainsOf(cs, keys, chains)
    ensures ChainsOf(cs + [c], keys', chains')
  {
    if c.path in chains {
      keys', chains' := keys, chains[c.path := chains[c.path] + [c]];
    } else {
      keys', chains' := keys + [c.path], chains[c.path := [] + [c]];
    }
    AddChangeKeeps(cs, keys, chains, c, keys', chains');
  }

  lemma AddChangeKeeps(cs: seq<Change>, keys: seq<Path>, chains: map<Path, seq<Change>>, c: Change,
                       keys': seq<Path>, chains': map<Path, seq<Change>>)
    requires ChainsOf(cs, keys, chains)
    requires keys' == if c.path in chains then keys else keys + [c.path]
    requires chains' == chains[c.path := (if c.path in chains then chains[c.path] else []) + [c]]
    ensures ChainsOf(cs + [c], keys', chains')
  {
    var after := cs + [c];
    forall p: Path
      ensures p in keys' <==> p in chains'
      ensures p in chains' <==> Chain(after, p) != []
      ensures p in chains' ==> chains'[p] == Chain(after, p)
    {
      ChainSnoc(cs, c, p);
    }
    assert Distinct(keys') by {
      assert c.path !in chains ==> c.path !in keys;
    }
  }

  method AddChanges(ghost cs: seq<Change>, keys: seq<Path>, chains: map<Path, seq<Change>>, more: seq<Change>)
    returns (keys': seq<Path>, chains': map<Path, seq<Change>>)
    requires ChainsOf(cs, keys, chains)
    ensures ChainsOf(cs + more, keys', chains')
  {
    keys', chains' := keys, chains;
    assert cs + more[..0] == cs;
    for k := 0 to |more|
      invariant ChainsOf(cs + more[..k], keys', chains')
    {
      keys', chains' := AddChange(cs + more[..k], keys', chains', more[k]);
      assert cs + more[..k] + [more[k]] == cs + more[..k + 1];
    }
    assert more[..|more|] == more;
  }

  method CollectChains(ms: seq<Manifest>) returns (keys: seq<Path>, chains: map<Path, seq<Change>>)
    ensures ChainsOf(History(ms), keys, chains)
  {
    keys, chains := [], map[];
    for i := 0 to |ms|
      invariant ChainsOf(History(ms[..i]), keys, chains)
    {
      var ops := ms[i].operations;
      ghost var before := History(ms[..i]);
      assert before + OpChanges(ops[..0]) == before;
      for j := 0 to |ops|
        invariant ChainsOf(before + OpChanges(ops[..j]), keys, chains)
      {
        keys, chains := AddChanges(before + OpChanges(ops[..j]), keys, chains, ops[j].changes);
        assert ops[..j + 1][..j] == ops[..j];
        assert before + OpChanges(ops[..j]) + ops[j].changes == before + OpChanges(ops[..j + 1]);
      }
      assert ops[..|ops|] == ops;
      assert ms[..i + 1][..i] == ms[..i];
    }
    assert ms[..|ms|] == ms;
  }

  function AppendUnique(items: seq<Path>, p: Path): seq<Path> {
    if p in items then items else items + [p]
  }

  method CollectWarnings(ms: seq<Manifest>) returns (skipped: seq<Path>)
    ensures forall p :: p in skipped <==> Warned(Warnings(ms), p)
  {
    skipped := [];
    for i := 0 to |ms|
      invariant forall p :: p in skipped <==> Warned(Warnings(ms[..i]), p)
    {
      var ws := ms[i].warnings;
      ghost var before := Warnings(ms[..i]);
      for j := 0 to |ws|
        invariant forall p :: p in skipped <==> Warned(before, p) || Warned(ws[..j], p)
      {
        WarnedSnoc(ws[..j], ws[j]);
        assert ws[..j] + [ws[j]] == ws[..j + 1];
        skipped := AppendUnique(skipped, ws[j].path);
      }
      assert ws[..|ws|] == ws;
      assert ms[..i + 1][..i] == ms[..i];
      WarnedConcat(before, ws);
    }
    assert ms[..|ms|] == ms;
  }

  lemma WarnedConcat(a: seq<Warning>, b: seq<Warning>)
    ensures forall p :: Warned(a + b, p) <==> Warned(a, p) || Warned(b, p)
  {
    forall p ensures Warned(a + b, p) <==> Warned(a, p) || Warned(b, p) {
      if Warned(a, p) {
        var i :| 0 <= i < |a| && a[i].path == p;
        assert (a + b)[i].path == p;
      }
      if Warned(b, p) {
        var i :| 0 <= i < |b| && b[i].path == p;
        assert (a + b)[|a| + i].path == p;
      }
    }
  }

  lemma WarnedSnoc(a: seq<Warning>, w: Warning)
    ensures forall p :: Warned(a + [w], p) <==> Warned(a, p) || w.path == p
  {
    WarnedConcat(a, [w]);
    assert forall p :: Warned([w], p) <==> w.path == p by {
      forall p ensures Warned([w], p) <==> w.path == p {
        if w.path == p { assert [w][0].path == p; }
      }
    }
  }

  // ----- planning -------------------------------------------------------------------

  predicate PlanOf(pl: Plan, chains: map<Path, seq<Change>>) {
    && pl.path in chains && chains[pl.path] != [] && Continuous(chains[pl.path])
    && pl.expected == chains[pl.path][|chains[pl.path]| - 1].after
    && pl.desired == chains[pl.path][0].before
    && !pl.expected.Skipped? && !SameImage(pl.expected, pl.desired)
  }

  function PlanPaths(plans: seq<Plan>): (r: seq<Path>)
    ensures |r| == |plans|
    ensures forall i | 0 <= i < |r| :: r[i] == plans[i].path
  {
    if plans == [] then [] else PlanPaths(plans[..|plans| - 1]) + [plans[|plans| - 1].path]
  }

  /** Repeat the durability barrier for a file that already has the wanted bytes. */
  method ConfirmIdempotent(files: Files, p: Path, current: FileState) returns (ok: bool, state: FileState)
    requires files.Valid()
    modifies files
    ensures files.Valid() && Undone(files.deeds, old(files.deeds))
    ensures files.quiet ==> files.states == old(files.states) && files.deeds == old(files.deeds)
    ensures ok ==> StatesEqual(state, current, true)
    ensures files.quiet && !current.Skipped? && Capture(files.states, p) == current ==> ok
  {
    files.Elsewhere();
    var failed := files.Fails();
    if failed {
      return false, current;
    }
    files.Elsewhere();
    state := Capture(files.states, p);
    ok := StatesEqual(state, current, true);
  }

  /** Decide one path; the first test never looks at the file. */
  method PlanPath(files: Files, p: Path, chain: seq<Change>) returns (v: Verdict)
    requires files.Valid() && chain != []
    modifies files
    ensures files.Valid() && Undone(files.deeds, old(files.deeds))
    ensures files.quiet ==> files.states == old(files.states) && files.deeds == old(files.deeds)
    ensures v.Planned? ==>
              && v.plan == Plan(p, chain[|chain| - 1].after, chain[0].before) && Continuous(chain)
              && !v.plan.expected.Skipped? && !SameImage(v.plan.expected, v.plan.desired)
    ensures v.Already? ==> Continuous(chain) && SameImage(v.state, chain[0].before)
    ensures !Continuous(chain) ==> v == Skip
    ensures files.quiet ==> v == VerdictOf(p, chain, Capture(files.states, p))
  {
    if !Continuous(chain) {
      return Skip;
    }
    files.Elsewhere();
    var expected, desired := chain[|chain| - 1].after, chain[0].before;
    var current := Capture(files.states, p);
    if current.Skipped? {
      return Skip;
    }
    if SameImage(current, desired) {
      var ok, state := ConfirmIdempotent(files, p, current);
      return if ok then Already(state) else Skip;
    }
    if !StatesEqual(current, expected, true) {
      return Skip;
    }
    return Planned(Plan(p, expected, desired));
  }

  /** Each listed path sits in exactly one of restored, planned and skipped. */
  ghost predicate Split(keys: seq<Path>, restored: seq<Path>, plans: seq<Plan>, skipped: seq<Path>) {
    && Distinct(restored) && Distinct(PlanPaths(plans))
    && (forall p | p in restored || p in PlanPaths(plans) :: p in keys)
    && (forall p | p in keys ::
          && (p in restored || p in PlanPaths(plans) || p in skipped)
          && !(p in restored && p in PlanPaths(plans))
          && !(p in restored && p in skipped)
          && !(p in PlanPaths(plans) && p in skipped))
  }

  /** What planning has established for the paths decided so far. */
  ghost predicate Decided(keys: seq<Path>, chains: map<Path, seq<Change>>, skipped0: seq<Path>,
                           plans: seq<Plan>, tally: Tally)
  {
    && Split(keys, tally.restored, plans, tally.skipped)
    && (forall p | p in skipped0 :: p in tally.skipped)
    && (forall p | p in tally.skipped :: p in skipped0 || p in keys)
    && (forall j | 0 <= j < |plans| :: PlanOf(plans[j], chains))
    && (forall p | p in tally.restored :: RestoredImage(p, chains, tally.states))
    && (forall p | p in tally.states :: p in tally.restored)
  }

  predicate RestoredImage(p: Path, chains: map<Path, seq<Change>>, states: Workspace) {
    p in chains && p in states && SeenBack(chains[p], states[p])
  }

  /** In an undisturbed workspace planning answers for each path as its verdict says. */
  ghost predicate QuietPlanned(keys: seq<Path>, chains: map<Path, seq<Change>>, ws: Workspace,
                               plans: seq<Plan>, tally: Tally)
  {
    && (forall p | p in keys :: p in chains && chains[p] != [] && Answered(p, chains[p], Capture(ws, p), plans, tally))
    && AllFresh(plans, ws)
  }

  /** Planned in peace: each plan was made for the file as it is. */
  ghost predicate AllFresh(plans: seq<Plan>, ws: Workspace) {
    forall i | 0 <= i < |plans| ::
      plans[i].path in ws && ws[plans[i].path] == plans[i].expected && !plans[i].expected.Skipped?
  }

  predicate Answered(p: Path, chain: seq<Change>, now: FileState, plans: seq<Plan>, tally: Tally)
    requires chain != []
  {
    match VerdictOf(p, chain, now)
    case Skip => p !in tally.restored && p !in PlanPaths(plans)
    case Already(state) => p in tally.restored && p in tally.states && tally.states[p] == state
    case Planned(pl) => exists i | 0 <= i < |plans| :: plans[i] == pl
  }

  method PlanStep(files: Files, ghost keys: seq<Path>, p: Path, chains: map<Path, seq<Change>>,
                  ghost skipped0: seq<Path>, plans: seq<Plan>, tally: Tally)
    returns (plans': seq<Plan>, tally': Tally)
    requires files.Valid()
    requires p in chains && chains[p] != [] && p !in keys && p !in skipped0
    requires Decided(keys, chains, skipped0, plans, tally)
    modifies files
    ensures files.Valid() && Undone(files.deeds, old(files.deeds))
    ensures files.quiet ==> files.states == old(files.states) && files.deeds == old(files.deeds)
    ensures Decided(keys + [p], chains, skipped0, plans', tally')
    ensures files.quiet && QuietPlanned(keys, chains, files.states, plans, tally) ==>
              QuietPlanned(keys + [p], chains, files.states, plans', tally')
  {
    var v := PlanPath(files, p, chains[p]);
    match v {
      case Skip =>
        plans', tally' := plans, tally.(skipped := AppendUnique(tally.skipped, p));
        DecidedSkip(keys, p, chains, skipped0, plans, tally);
      case Already(state) =>
        plans' := plans;
        tally' := tally.(restored := tally.restored + [p], states := tally.states[p := state]);
        DecidedAlready(keys, p, chains, skipped0, plans, tally, state);
      case Planned(plan) =>
        plans', tally' := plans + [plan], tally;
        DecidedPlan(keys, p, chains, skipped0, plans, tally, plan);
    }
    if files.quiet && QuietPlanned(keys, chains, files.states, plans, tally) {
      PlannedMore(keys, p, chains, files.states, skipped0, plans, tally, v, plans', tally');
    }
  }

  /** The next path's verdict leaves the earlier answers alone. */
  lemma PlannedMore(keys: seq<Path>, p: Path, chains: map<Path, seq<Change>>, ws: Workspace, skipped0: seq<Path>,
                    plans: seq<Plan>, tally: Tally, v: Verdict, plans': seq<Plan>, tally': Tally)
    requires p in chains && chains[p] != [] && p !in keys
    requires Decided(keys, chains, skipped0, plans, tally)
    requires QuietPlanned(keys, chains, ws, plans, tally)
    requires v == VerdictOf(p, chains[p], Capture(ws, p))
    requires plans' == if v.Planned? then plans + [v.plan] else plans
    requires tally'.restored == if v.Already? then tally.restored + [p] else tally.restored
    requires tally'.states == if v.Already? then tally.states[p := v.state] else tally.states
    ensures QuietPlanned(keys + [p], chains, ws, plans', tally')
  {
    assert p !in tally.restored && p !in PlanPaths(plans);
    NewAnswer(p, chains[p], Capture(ws, p), plans, tally, v, plans', tally');
    forall q | q in keys ensures Answered(q, chains[q], Capture(ws, q), plans', tally') {
      StillAnswered(q, chains[q], Capture(ws, q), plans, tally, p, v, plans', tally');
    }
    if v.Planned? { FreshMore(plans, v.plan, ws); }
  }

  lemma FreshMore(plans: seq<Plan>, plan: Plan, ws: Workspace)
    requires AllFresh(plans, ws)
    requires plan.path in ws && ws[plan.path] == plan.expected && !plan.expected.Skipped?
    ensures AllFresh(plans + [plan], ws)
  {
  }

  lemma NewAnswer(p: Path, chain: seq<Change>, now: FileState, plans: seq<Plan>, tally: Tally, v: Verdict,
                  plans': seq<Plan>, tally': Tally)
    requires chain != [] && v == VerdictOf(p, chain, now)
    requires p !in tally.restored && p !in PlanPaths(plans)
    requires plans' == if v.Planned? then plans + [v.plan] else plans
    requires tally'.restored == if v.Already? then tally.restored + [p] else tally.restored
    requires tally'.states == if v.Already? then tally.states[p := v.state] else tally.states
    ensures Answered(p, chain, now, plans', tally')
  {
    if v.Planned? { assert plans'[|plans|] == v.plan; }
  }

  lemma StillAnswered(q: Path, chain: seq<Change>, now: FileState, plans: seq<Plan>, tally: Tally,
                      p: Path, v: Verdict, plans': seq<Plan>, tally': Tally)
    requires chain != [] && q != p && Answered(q, chain, now, plans, tally)
    requires v.Planned? ==> v.plan.path == p
    requires plans' == if v.Planned? then plans + [v.plan] else plans
    requires tally'.restored == if v.Already? then tally.restored + [p] else tally.restored
    requires tally'.states == if v.Already? then tally.states[p := v.state] else tally.states
    ensures Answered(q, chain, now, plans', tally')
  {
    if v.Planned? { PlanPathsAppend(plans, v.plan); }
    if pl :| VerdictOf(q, chain, now) == Planned(pl) {
      var i :| 0 <= i < |plans| && plans[i] == pl;
      assert plans'[i] == pl;
    }
  }

  lemma PlanPathsAppend(plans: seq<Plan>, plan: Plan)
    ensures PlanPaths(plans + [plan]) == PlanPaths(plans) + [plan.path]
  {
    Sequences.Appended(plans, plan);
  }

  lemma DecidedSkip(keys: seq<Path>, p: Path, chains: map<Path, seq<Change>>, skipped0: seq<Path>,
                    plans: seq<Plan>, tally: Tally)
    requires p !in keys && p !in skipped0 && Decided(keys, chains, skipped0, plans, tally)
    ensures p !in tally.skipped
    ensures Decided(keys + [p], chains, skipped0, plans, tally.(skipped := AppendUnique(tally.skipped, p)))
  {
  }

  lemma DecidedAlready(keys: seq<Path>, p: Path, chains: map<Path, seq<Change>>, skipped0: seq<Path>,
                       plans: seq<Plan>, tally: Tally, state: FileState)
    requires p !in keys && p !in skipped0 && Decided(keys, chains, skipped0, plans, tally)
    requires p in chains && SeenBack(chains[p], state)
    ensures Decided(keys + [p], chains, skipped0, plans,
                    tally.(restored := tally.restored + [p], states := tally.states[p := state]))
  {
    var tally' := tally.(restored := tally.restored + [p], states := tally.states[p := state]);
    forall q | q in tally'.restored ensures RestoredImage(q, chains, tally'.states) {
      if q != p { assert RestoredImage(q, chains, tally.states); }
    }
    assert Split(keys + [p], tally'.restored, plans, tally.skipped);
  }

  lemma DecidedPlan(keys: seq<Path>, p: Path, chains: map<Path, seq<Change>>, skipped0: seq<Path>,
                    plans: seq<Plan>, tally: Tally, plan: Plan)
    requires p !in keys && p !in skipped0 && Decided(keys, chains, skipped0, plans, tally)
    requires plan.path == p && PlanOf(plan, chains)
    ensures Decided(keys + [p], chains, skipped0, plans + [plan], tally)
  {
    SplitPlan(keys, tally.restored, plans, tally.skipped, plan);
  }

  method PlanAll(files: Files, keys: seq<Path>, chains: map<Path, seq<Change>>, skipped0: seq<Path>)
    returns (plans: seq<Plan>, tally: Tally)
    requires files.Valid() && Distinct(keys)
    requires forall p | p in keys :: p in chains && chains[p] != [] && p !in skipped0
    modifies files
    ensures files.Valid() && Undone(files.deeds, old(files.deeds))
    ensures files.quiet ==> files.states == old(files.states) && files.deeds == old(files.deeds)
    ensures Decided(keys, chains, skipped0, plans, tally)
    ensures files.quiet ==> QuietPlanned(keys, chains, files.states, plans, tally)
  {
    plans, tally := [], Tally([], map[], skipped0);
    for i := 0 to |keys|
      invariant files.Valid() && Undone(files.deeds, old(files.deeds))
      invariant files.quiet ==> files.states == old(files.states) && files.deeds == old(files.deeds)
      invariant Decided(keys[..i], chains, skipped0, plans, tally)
      invariant files.quiet ==> QuietPlanned(keys[..i], chains, files.states, plans, tally)
    {
      assert keys[..i + 1] == keys[..i] + [keys[i]];
      plans, tally := PlanStep(files, keys[..i], keys[i], chains, skipped0, plans, tally);
    }
    assert keys[..|keys|] == keys;
  }

  lemma SplitPlan(keys: seq<Path>, restored: seq<Path>, plans: seq<Plan>, skipped: seq<Path>, plan: Plan)
    requires Split(keys, restored, plans, skipped)
    requires plan.path !in keys && plan.path !in skipped
    ensures Split(keys + [plan.path], restored, plans + [plan], skipped)
  {
    assert (plans + [plan])[..|plans|] == plans;
    assert PlanPaths(plans + [plan]) == PlanPaths(plans) + [plan.path];
  }

  // ----- applying -------------------------------------------------------------------

  /** A write that carries out the plan. */
  predicate FitsPlan(w: FileWrite, pl: Plan) {
    w.path == pl.path && w.was == pl.expected && Overwrites(w.was, w.now, pl.desired)
  }

  /** At most one own write since, which carries out the plan on what was really there. */
  ghost predicate OneWrite(origin: Workspace, was: seq<Deed>, now: seq<Deed>, pl: Plan) {
    && was <= now
    && (forall i | |was| <= i < |now| && now[i].Own? :: HonestAt(origin, now, i) && FitsPlan(now[i].write, pl))
    && (forall i, j | |was| <= i < j < |now| :: now[i].Own? ==> now[j].Foreign?)
  }

  lemma OneWriteNow(origin: Workspace, was: seq<Deed>, before: seq<Deed>, w: FileWrite, pl: Plan)
    requires Undone(before, was) && FitsPlan(w, pl)
    requires w.path in Replayed(origin, before) && Replayed(origin, before)[w.path] == w.was
    ensures OneWrite(origin, was, before + [Own(w)], pl)
  {
    assert (before + [Own(w)])[..|before|] == before;
  }

  lemma OneWriteThen(origin: Workspace, was: seq<Deed>, now: seq<Deed>, later: seq<Deed>, pl: Plan)
    requires OneWrite(origin, was, now, pl) && Undone(later, now)
    ensures OneWrite(origin, was, later, pl)
  {
    forall i | |was| <= i < |later| && later[i].Own?
      ensures HonestAt(origin, later, i) && FitsPlan(later[i].write, pl)
    {
      assert later[i] == now[i] && later[..i] == now[..i];
      assert HonestAt(origin, now, i);
    }
  }

  /** Applying a plan to the very file it was made for. */
  ghost predicate Applied(pl: Plan, blobs: set<Digest>, was: Workspace, now: Workspace, ok: bool, state: FileState)
    requires pl.path in was
  {
    var f := ApplyFate(pl, blobs);
    && (ok <==> IsBack(f))
    && pl.path in now && now == was[pl.path := now[pl.path]]
    && Meets(f, was[pl.path], pl.desired, now[pl.path])
    && (ok ==> state == now[pl.path])
  }

  ghost predicate Wrote(was: seq<Deed>, now: seq<Deed>) {
    exists i :: |was| <= i < |now| && now[i].Own?
  }

  /** The last capture before a mutation: is the file still exactly what the plan expects? */
  method StillExpected(files: Files, pl: Plan) returns (same: bool)
    requires files.Valid()
    modifies files
    ensures files.Valid() && Undone(files.deeds, old(files.deeds))
    ensures files.quiet ==> files.states == old(files.states) && files.deeds == old(files.deeds)
    ensures same <==> Capture(files.states, pl.path) == pl.expected && !pl.expected.Skipped?
  {
    files.Elsewhere();
    same := StatesEqual(Capture(files.states, pl.path), pl.expected, true);
  }

  /** The removal is reported as done with whatever is found afterwards. */
  method RemoveFile(files: Files, pl: Plan) returns (ok: bool, state: FileState)
    requires files.Valid() && pl.desired.Absent?
    modifies files
    ensures files.Valid() && OneWrite(files.origin, old(files.deeds), files.deeds, pl)
    ensures files.quiet ==> OwnSince(old(files.deeds), files.deeds)
    ensures ok ==> Wrote(old(files.deeds), files.deeds) && state == Capture(files.states, pl.path)
    ensures files.quiet && Capture(old(files.states), pl.path) == pl.expected && !pl.expected.Skipped? ==>
              && ok && state == Absent(ParentOf(pl.expected))
              && files.states == old(files.states)[pl.path := state]
  {
    var same := StillExpected(files, pl);
    if !same {
      return false, pl.expected;
    }
    ghost var before := files.deeds;
    TakeAway(files, pl);
    OneWriteAfter(files.origin, old(files.deeds), before, files.deeds, pl);
    var failed := files.Fails();
    if failed {
      return false, pl.expected;
    }
    ghost var after := files.deeds;
    files.Elsewhere();
    OneWriteThen(files.origin, old(files.deeds), after, files.deeds, pl);
    assert files.deeds[|before|].Own?;
    return true, Capture(files.states, pl.path);
  }

  method TakeAway(files: Files, pl: Plan)
    requires files.Valid() && pl.desired.Absent?
    requires pl.path in files.states && files.states[pl.path] == pl.expected
    modifies files
    ensures files.Valid() && OneWrite(files.origin, old(files.deeds), files.deeds, pl)
    ensures OwnSince(old(files.deeds), files.deeds) && |files.deeds| == |old(files.deeds)| + 1
    ensures files.states == old(files.states)[pl.path := Absent(ParentOf(pl.expected))]
  {
    files.Unlink(pl.path);
    OneWriteNow(files.origin, old(files.deeds), old(files.deeds), files.deeds[|old(files.deeds)|].write, pl);
  }

  /** The staged bytes are renamed into place and the result is compared with the wanted image,
      directory included: a file whose directory was replaced is rewritten and then given up. */
  method RewriteFile(files: Files, pl: Plan, blobs: set<Digest>) returns (ok: bool, state: FileState)
    requires files.Valid() && pl.desired.Regular?
    modifies files
    ensures files.Valid() && OneWrite(files.origin, old(files.deeds), files.deeds, pl)
    ensures files.quiet ==> OwnSince(old(files.deeds), files.deeds)
    ensures ok ==> SameImage(state, pl.desired)
    ensures files.quiet && Capture(old(files.states), pl.path) == pl.expected && !pl.expected.Skipped? ==>
              Applied(pl, blobs, old(files.states), files.states, ok, state)
  {
    var failed := files.Fails();
    if pl.desired.digest !in blobs || failed {
      return false, pl.expected;
    }
    var same := StillExpected(files, pl);
    if !same {
      return false, pl.expected;
    }
    ghost var before := files.deeds;
    SwapIn(files, pl);
    OneWriteAfter(files.origin, old(files.deeds), before, files.deeds, pl);
    failed := files.Fails();
    if failed {
      return false, pl.expected;
    }
    ghost var after := files.deeds;
    files.Elsewhere();
    OneWriteThen(files.origin, old(files.deeds), after, files.deeds, pl);
    state := Capture(files.states, pl.path);
    ok := StatesEqual(state, pl.desired, false);
    if files.quiet && Capture(old(files.states), pl.path) == pl.expected && !pl.expected.Skipped? {
      RewriteApplied(pl, blobs, old(files.states), files.states, ok, state);
    }
  }

  method SwapIn(files: Files, pl: Plan)
    requires files.Valid() && pl.desired.Regular?
    requires pl.path in files.states && files.states[pl.path] == pl.expected
    modifies files
    ensures files.Valid() && OneWrite(files.origin, old(files.deeds), files.deeds, pl)
    ensures OwnSince(old(files.deeds), files.deeds)
    ensures pl.path in files.states && files.states == old(files.states)[pl.path := files.states[pl.path]]
    ensures Overwrites(pl.expected, files.states[pl.path], pl.desired)
  {
    files.Replace(pl.path, pl.desired.digest, pl.desired.mode);
    OneWriteNow(files.origin, old(files.deeds), old(files.deeds), files.deeds[|old(files.deeds)|].write, pl);
  }

  lemma RewriteApplied(pl: Plan, blobs: set<Digest>, was: Workspace, now: Workspace, ok: bool, state: FileState)
    requires pl.desired.Regular? && pl.desired.digest in blobs
    requires pl.path in was && was[pl.path] == pl.expected && !pl.expected.Skipped?
    requires pl.path in now && now == was[pl.path := now[pl.path]] && state == now[pl.path]
    requires Overwrites(pl.expected, state, pl.desired) && ok == SameImage(state, pl.desired)
    ensures Applied(pl, blobs, was, now, ok, state)
  {
  }

  /** Bring one planned file back.  Undisturbed, it succeeds exactly when the wanted image is no file,
      or is one whose bytes are stored and whose directory is the one the file is in now. */
  method ApplyRestore(files: Files, pl: Plan, blobs: set<Digest>) returns (ok: bool, state: FileState)
    requires files.Valid()
    modifies files
    ensures files.Valid() && OneWrite(files.origin, old(files.deeds), files.deeds, pl)
    ensures files.quiet ==> OwnSince(old(files.deeds), files.deeds)
    ensures ok ==> !pl.desired.Skipped? && (pl.desired.Regular? ==> SameImage(state, pl.desired))
    ensures files.quiet && Capture(old(files.states), pl.path) == pl.expected && !pl.expected.Skipped? ==>
              && Applied(pl, blobs, old(files.states), files.states, ok, state)
              && (ok <==> pl.desired.Absent? || (pl.desired.Regular? && pl.desired.digest in blobs
                                                 && ParentOf(pl.expected) == pl.desired.parent))
  {
    files.Elsewhere();
    var current := Capture(files.states, pl.path);
    if !StatesEqual(current, pl.expected, true) {
      return false, current;
    }
    ghost var before := files.deeds;
    match pl.desired {
      case Absent(_) =>
        if pl.expected.Absent? {
          assert files.states == files.states[pl.path := current];
          return true, current;
        }
        ok, state := RemoveFile(files, pl);
        OneWriteAfter(files.origin, old(files.deeds), before, files.deeds, pl);
      case Regular(_, _, _, _) =>
        ok, state := RewriteFile(files, pl, blobs);
        OneWriteAfter(files.origin, old(files.deeds), before, files.deeds, pl);
      case Skipped(_) =>
        return false, current;
    }
  }

  lemma OneWriteAfter(origin: Workspace, was: seq<Deed>, before: seq<Deed>, now: seq<Deed>, pl: Plan)
    requires Undone(before, was) && OneWrite(origin, before, now, pl)
    ensures OneWrite(origin, was, now, pl)
  {
  }

  /** All own writes since are allowed by the chains and replaced what was really there. */
  ghost predicate AllAllowed(origin: Workspace, was: seq<Deed>, now: seq<Deed>, chains: map<Path, seq<Change>>) {
    && was <= now
    && forall i | |was| <= i < |now| && now[i].Own? ::
         HonestAt(origin, now, i) && AllowedBy(now[i].write, chains)
  }

  ghost predicate AllowedBy(w: FileWrite, chains: map<Path, seq<Change>>) {
    && w.path in chains && chains[w.path] != [] && Continuous(chains[w.path])
    && w.was == chains[w.path][|chains[w.path]| - 1].after
    && Overwrites(w.was, w.now, chains[w.path][0].before)
  }

  lemma OneMoreAllowed(origin: Workspace, start: seq<Deed>, was: seq<Deed>, now: seq<Deed>, pl: Plan,
                       chains: map<Path, seq<Change>>)
    requires AllAllowed(origin, start, was, chains)
    requires OneWrite(origin, was, now, pl) && PlanOf(pl, chains)
    ensures AllAllowed(origin, start, now, chains)
  {
    forall i | |start| <= i < |now| && now[i].Own?
      ensures HonestAt(origin, now, i) && AllowedBy(now[i].write, chains)
    {
      if i < |was| {
        assert now[i] == was[i] && now[..i] == was[..i];
        assert HonestAt(origin, was, i);
      }
    }
  }

  /** Taking the next plan out of the split as restored or skipped. */
  lemma SplitTake(keys: seq<Path>, restored: seq<Path>, plans: seq<Plan>, skipped: seq<Path>)
    requires plans != [] && Split(keys, restored, plans, skipped)
    ensures Split(keys, restored + [plans[0].path], plans[1..], skipped)
    ensures Split(keys, restored, plans[1..], AppendUnique(skipped, plans[0].path))
    ensures plans[0].path !in restored && plans[0].path !in PlanPaths(plans[1..])
  {
    var p := plans[0].path;
    assert PlanPaths(plans)[0] == p;
    assert PlanPaths(plans) == [p] + PlanPaths(plans[1..]);
    assert p in PlanPaths(plans) && p in keys && p !in restored;
    forall i | 0 < i < |plans| ensures plans[i].path != p {
      assert PlanPaths(plans)[i] != PlanPaths(plans)[0];
    }
    assert Distinct(PlanPaths(plans[1..])) by {
      forall i, j | 0 <= i < j < |plans| - 1 ensures PlanPaths(plans[1..])[i] != PlanPaths(plans[1..])[j] {
        assert PlanPaths(plans)[i + 1] != PlanPaths(plans)[j + 1];
      }
    }
  }

  /** One journalled application; a journal that cannot be written stops all later ones. */
  method ApplyStep(files: Files, ghost keys: seq<Path>, plans: seq<Plan>, tally: Tally,
                   writable: bool, blobs: set<Digest>)
    returns (tally': Tally, writable': bool)
    requires files.Valid() && plans != [] && Split(keys, tally.restored, plans, tally.skipped)
    requires forall p :: p in tally.states <==> p in tally.restored
    modifies files
    ensures files.Valid() && OneWrite(files.origin, old(files.deeds), files.deeds, plans[0])
    ensures files.quiet ==> OwnSince(old(files.deeds), files.deeds)
    ensures Split(keys, tally'.restored, plans[1..], tally'.skipped)
    ensures forall p | p in tally.skipped :: p in tally'.skipped
    ensures forall p | p in tally'.skipped :: p in tally.skipped || p == plans[0].path
    ensures forall p :: p in tally'.states <==> p in tally'.restored
    ensures forall p | p in tally'.states && p != plans[0].path ::
              p in tally.states && tally'.states[p] == tally.states[p]
    ensures plans[0].path in tally'.states ==>
              && !plans[0].desired.Skipped?
              && (plans[0].desired.Regular? ==> SameImage(tally'.states[plans[0].path], plans[0].desired))
    ensures files.quiet && writable && Capture(old(files.states), plans[0].path) == plans[0].expected
            && !plans[0].expected.Skipped? ==>
              QuietStep(plans[0], blobs, old(files.states), tally, files.states, tally') && writable'
  {
    var pl := plans[0];
    SplitTake(keys, tally.restored, plans, tally.skipped);
    var left := tally.(skipped := AppendUnique(tally.skipped, pl.path));
    var failed := files.Fails();
    if !writable || failed {
      return left, false;
    }
    var ok, state := ApplyRestore(files, pl, blobs);
    failed := files.Fails();
    writable' := !failed;
    if ok {
      tally' := tally.(restored := tally.restored + [pl.path], states := tally.states[pl.path := state]);
    } else {
      tally' := left;
    }
  }

  /** A plan carried out in peace: the file and its report are what the fate says. */
  ghost predicate PlanMet(pl: Plan, blobs: set<Digest>, was: Workspace, now: Workspace, tally: Tally) {
    var f := ApplyFate(pl, blobs);
    && pl.path in was && pl.path in now && Meets(f, was[pl.path], pl.desired, now[pl.path])
    && (pl.path in tally.restored <==> IsBack(f))
    && (IsBack(f) ==> pl.path in tally.states && tally.states[pl.path] == now[pl.path])
  }

  /** The reports of other paths are as before. */
  ghost predicate SameReports(before: Tally, after: Tally, paths: seq<Path>) {
    forall p | p !in paths ::
      && (p in after.restored <==> p in before.restored)
      && (p in before.restored && p in before.states ==> p in after.states && after.states[p] == before.states[p])
  }

  ghost predicate QuietStep(pl: Plan, blobs: set<Digest>, was: Workspace, tally: Tally, now: Workspace, tally': Tally) {
    && PlanMet(pl, blobs, was, now, tally')
    && now == was[pl.path := now[pl.path]]
    && SameReports(tally, tally', [pl.path])
  }

  /** After every plan was applied in peace. */
  ghost predicate QuietDone(plans: seq<Plan>, blobs: set<Digest>, was: Workspace, tally: Tally,
                            now: Workspace, tally': Tally) {
    && now.Keys == was.Keys
    && (forall p | p in was && p !in PlanPaths(plans) :: now[p] == was[p])
    && SameReports(tally, tally', PlanPaths(plans))
    && forall i | 0 <= i < |plans| :: PlanMet(plans[i], blobs, was, now, tally')
  }

  predicate SeenAll(keys: seq<Path>, chains: map<Path, seq<Change>>, tally: Tally) {
    forall p | p in tally.restored :: RestoredImage(p, chains, tally.states)
  }

  /** What stays true of the tally while plans are carried out. */
  ghost predicate Going(keys: seq<Path>, chains: map<Path, seq<Change>>, left: seq<Plan>, before: Tally, tally: Tally) {
    && Split(keys, tally.restored, left, tally.skipped)
    && (forall p | p in before.skipped :: p in tally.skipped)
    && (forall p | p in tally.skipped :: p in before.skipped || p in keys)
    && (forall p :: p in tally.states <==> p in tally.restored)
    && SeenAll(keys, chains, tally)
  }

  lemma GoingOn(keys: seq<Path>, chains: map<Path, seq<Change>>, left: seq<Plan>, start: Tally, before: Tally,
                after: Tally)
    requires left != [] && Going(keys, chains, left, start, before) && PlanOf(left[0], chains)
    requires Split(keys, after.restored, left[1..], after.skipped)
    requires forall p | p in before.skipped :: p in after.skipped
    requires forall p | p in after.skipped :: p in before.skipped || p == left[0].path
    requires forall p :: p in after.states <==> p in after.restored
    requires forall p | p in after.states && p != left[0].path ::
               p in before.states && after.states[p] == before.states[p]
    requires left[0].path in after.states ==>
               && !left[0].desired.Skipped?
               && (left[0].desired.Regular? ==> SameImage(after.states[left[0].path], left[0].desired))
    ensures Going(keys, chains, left[1..], start, after)
  {
    SeenMore(keys, chains, before, after, left[0]);
    assert PlanPaths(left)[0] == left[0].path;
    assert left[0].path in PlanPaths(left);
  }

  method ApplyAllPlans(files: Files, ghost keys: seq<Path>, plans: seq<Plan>, chains: map<Path, seq<Change>>,
                       tally: Tally, writable: bool, blobs: set<Digest>)
    returns (tally': Tally, writable': bool)
    requires files.Valid() && Split(keys, tally.restored, plans, tally.skipped)
    requires forall i | 0 <= i < |plans| :: PlanOf(plans[i], chains)
    requires forall p :: p in tally.states <==> p in tally.restored
    requires SeenAll(keys, chains, tally)
    modifies files
    ensures files.Valid() && AllAllowed(files.origin, old(files.deeds), files.deeds, chains)
    ensures files.quiet ==> OwnSince(old(files.deeds), files.deeds)
    ensures Going(keys, chains, [], tally, tally')
    ensures files.quiet && writable && AllFresh(plans, old(files.states)) ==>
              QuietDone(plans, blobs, old(files.states), tally, files.states, tally') && writable'
  {
    tally', writable' := tally, writable;
    ghost var ws0 := files.states;
    ghost var quiet := files.quiet && writable && AllFresh(plans, ws0);
    assert plans[0..] == plans && PlanPaths(plans[..0]) == [];
    for i := 0 to |plans|
      invariant files.Valid() && AllAllowed(files.origin, old(files.deeds), files.deeds, chains)
      invariant files.quiet ==> OwnSince(old(files.deeds), files.deeds)
      invariant Going(keys, chains, plans[i..], tally, tally')
      invariant quiet ==> QuietDone(plans[..i], blobs, ws0, tally, files.states, tally') && writable'
    {
      ghost var deeds, ws, before := files.deeds, files.states, tally';
      assert plans[i..][0] == plans[i] && plans[i..][1..] == plans[i + 1..];
      NotYet(plans, i);
      if quiet { assert ws[plans[i].path] == ws0[plans[i].path]; }
      tally', writable' := ApplyStep(files, keys, plans[i..], tally', writable', blobs);
      OneMoreAllowed(files.origin, old(files.deeds), deeds, files.deeds, plans[i], chains);
      GoingOn(keys, chains, plans[i..], tally, before, tally');
      if quiet { QuietSnoc(plans, i, blobs, ws0, tally, ws, before, files.states, tally'); }
    }
    assert plans[..|plans|] == plans;
    assert plans[|plans|..] == [];
  }

  lemma PlanPathsSnoc(plans: seq<Plan>, i: nat)
    requires i < |plans|
    ensures PlanPaths(plans[..i + 1]) == PlanPaths(plans[..i]) + [plans[i].path]
  {
    assert plans[..i + 1][..i] == plans[..i];
  }

  lemma NotYet(plans: seq<Plan>, i: nat)
    requires i < |plans| && Distinct(PlanPaths(plans))
    ensures plans[i].path !in PlanPaths(plans[..i])
  {
    PathsApart(plans, PlanPaths(plans), i);
  }

  lemma PathsApart(plans: seq<Plan>, paths: seq<Path>, i: nat)
    requires i < |plans| == |paths| && Distinct(paths)
    requires forall j | 0 <= j < |plans| :: paths[j] == plans[j].path
    ensures plans[i].path !in PlanPaths(plans[..i])
  {
    var before := PlanPaths(plans[..i]);
    assert forall j | 0 <= j < i :: before[j] == paths[j];
  }

  lemma SeenMore(keys: seq<Path>, chains: map<Path, seq<Change>>, before: Tally, after: Tally, pl: Plan)
    requires SeenAll(keys, chains, before) && PlanOf(pl, chains)
    requires forall p | p in after.restored :: p in after.states
    requires forall p | p in after.states && p != pl.path ::
               p in before.restored && p in before.states && after.states[p] == before.states[p]
    requires pl.path in after.states ==>
               && !pl.desired.Skipped?
               && (pl.desired.Regular? ==> SameImage(after.states[pl.path], pl.desired))
    ensures SeenAll(keys, chains, after)
  {
    forall p | p in after.restored ensures RestoredImage(p, chains, after.states) {
      if p != pl.path { assert RestoredImage(p, chains, before.states); }
    }
  }

  lemma QuietSnoc(plans: seq<Plan>, i: nat, blobs: set<Digest>, ws0: Workspace, tally: Tally, ws: Workspace,
                  before: Tally, now: Workspace, after: Tally)
    requires i < |plans| && plans[i].path !in PlanPaths(plans[..i])
    requires QuietDone(plans[..i], blobs, ws0, tally, ws, before)
    requires QuietStep(plans[i], blobs, ws, before, now, after)
    ensures QuietDone(plans[..i + 1], blobs, ws0, tally, now, after)
  {
    PlanPathsSnoc(plans, i);
    ReportsSnoc(tally, before, after, PlanPaths(plans[..i]), plans[i].path);
    QuietMet(plans, i, blobs, ws0, tally, ws, before, now, after);
  }

  lemma QuietMet(plans: seq<Plan>, i: nat, blobs: set<Digest>, ws0: Workspace, tally: Tally, ws: Workspace,
                 before: Tally, now: Workspace, after: Tally)
    requires i < |plans| && plans[i].path !in PlanPaths(plans[..i])
    requires QuietDone(plans[..i], blobs, ws0, tally, ws, before)
    requires QuietStep(plans[i], blobs, ws, before, now, after)
    ensures forall j | 0 <= j <= i :: PlanMet(plans[j], blobs, ws0, now, after)
  {
    forall j | 0 <= j <= i ensures PlanMet(plans[j], blobs, ws0, now, after) {
      if j < i {
        assert plans[..i][j] == plans[j] && PlanPaths(plans[..i])[j] == plans[j].path;
        MetStays(plans[j], plans[i], blobs, ws0, ws, before, now, after);
      }
    }
  }

  lemma ReportsSnoc(first: Tally, before: Tally, after: Tally, paths: seq<Path>, p: Path)
    requires SameReports(first, before, paths) && SameReports(before, after, [p])
    ensures SameReports(first, after, paths + [p])
  {
  }

  /** An earlier plan is still met after another path's step. */
  lemma MetStays(pl: Plan, other: Plan, blobs: set<Digest>, ws0: Workspace, ws: Workspace, before: Tally,
                 now: Workspace, after: Tally)
    requires PlanMet(pl, blobs, ws0, ws, before) && pl.path != other.path
    requires QuietStep(other, blobs, ws, before, now, after)
    ensures PlanMet(pl, blobs, ws0, now, after)
  {
  }

  // ----- confirming and the whole file phase -----------------------------------------

  function Removed(items: seq<Path>, p: Path): seq<Path> {
    if items == [] then []
    else
      var rest := Removed(items[..|items| - 1], p);
      if items[|items| - 1] == p then rest else rest + [items[|items| - 1]]
  }

  lemma {:induction false} RemovedMembers(items: seq<Path>, p: Path)
    ensures forall q :: q in Removed(items, p) <==> q in items && q != p
    ensures Distinct(items) ==> Distinct(Removed(items, p))
  {
    if items != [] {
      var init, x := items[..|items| - 1], items[|items| - 1];
      assert items == init + [x];
      RemovedMembers(init, p);
      if Distinct(items) {
        assert Distinct(init);
        assert x !in init;
      }
    }
  }

  lemma SplitDrop(keys: seq<Path>, restored: seq<Path>, skipped: seq<Path>, p: Path)
    requires Split(keys, restored, [], skipped) && p in restored
    ensures Split(keys, Removed(restored, p), [], AppendUnique(skipped, p))
  {
    RemovedMembers(restored, p);
  }

  /** What the last look leaves of a tally. */
  ghost predicate Lessened(keys: seq<Path>, tally: Tally, r: Tally) {
    && Split(keys, r.restored, [], r.skipped)
    && (forall p | p in tally.skipped :: p in r.skipped)
    && (forall p | p in r.skipped :: p in tally.skipped || p in keys)
    && (forall p :: p in r.states <==> p in r.restored)
    && (forall p | p in r.states :: p in tally.states && r.states[p] == tally.states[p])
  }

  /** Only states that are still exactly what was written become trusted boundaries. */
  method ConfirmRestored(files: Files, ghost keys: seq<Path>, tally: Tally) returns (r: Tally)
    requires files.Valid() && Split(keys, tally.restored, [], tally.skipped)
    requires forall p :: p in tally.states <==> p in tally.restored
    modifies files
    ensures files.Valid() && Undone(files.deeds, old(files.deeds))
    ensures files.quiet ==> files.states == old(files.states) && files.deeds == old(files.deeds)
    ensures Lessened(keys, tally, r)
    ensures AllFound(files.origin, old(files.deeds), files.deeds, r.states)
    ensures files.quiet && AllStill(tally, old(files.states)) ==> r == tally
  {
    r := tally;
    for i := 0 to |tally.restored|
      invariant files.Valid() && Undone(files.deeds, old(files.deeds))
      invariant files.quiet ==> files.states == old(files.states) && files.deeds == old(files.deeds)
      invariant Lessened(keys, tally, r)
      invariant forall j | i <= j < |tally.restored| :: tally.restored[j] in r.restored
      invariant SomeFound(files.origin, old(files.deeds), files.deeds, tally.restored[..i], r.states)
      invariant files.quiet && AllStill(tally, old(files.states)) ==> r == tally
    {
      ghost var before := files.deeds;
      r := ConfirmOne(files, keys, tally, tally.restored[i], r);
      FoundMore(files.origin, old(files.deeds), before, files.deeds, tally.restored, i, r.states);
    }
    assert tally.restored[..|tally.restored|] == tally.restored;
    AllLooked(files.origin, old(files.deeds), files.deeds, tally, r);
  }

  method ConfirmOne(files: Files, ghost keys: seq<Path>, tally: Tally, p: Path, r: Tally) returns (r': Tally)
    requires files.Valid() && p in tally.states && p in r.restored && Lessened(keys, tally, r)
    modifies files
    ensures files.Valid() && Undone(files.deeds, old(files.deeds))
    ensures files.quiet ==> files.states == old(files.states) && files.deeds == old(files.deeds)
    ensures Lessened(keys, tally, r')
    ensures forall q | q in r.restored && q != p :: q in r'.restored
    ensures forall q | q in r'.states :: q in r.states && r'.states[q] == r.states[q]
    ensures p in r'.states ==> FoundLast(files.origin, old(files.deeds), files.deeds, p, r'.states[p])
    ensures files.quiet && p in files.states && files.states[p] == tally.states[p] && !tally.states[p].Skipped? ==>
              r' == r
  {
    files.Elsewhere();
    r' := r;
    if StatesEqual(Capture(files.states, p), tally.states[p], true) {
      FoundNow(files.origin, old(files.deeds), files.deeds, p, tally.states[p]);
    } else {
      SplitDrop(keys, r.restored, r.skipped, p);
      RemovedMembers(r.restored, p);
      r' := Tally(Removed(r.restored, p), r.states - {p}, AppendUnique(r.skipped, p));
    }
  }

  ghost predicate SomeFound(origin: Workspace, was: seq<Deed>, now: seq<Deed>, paths: seq<Path>, states: Workspace) {
    forall p | p in paths && p in states :: FoundLast(origin, was, now, p, states[p])
  }

  lemma FoundMore(origin: Workspace, was: seq<Deed>, before: seq<Deed>, now: seq<Deed>, paths: seq<Path>, i: nat,
                  states: Workspace)
    requires i < |paths| && was <= before && Undone(now, before)
    requires SomeFound(origin, was, before, paths[..i], states)
    requires paths[i] in states ==> FoundLast(origin, before, now, paths[i], states[paths[i]])
    ensures SomeFound(origin, was, now, paths[..i + 1], states)
  {
    assert paths[..i + 1] == paths[..i] + [paths[i]];
    forall p | p in paths[..i + 1] && p in states ensures FoundLast(origin, was, now, p, states[p]) {
      if p in paths[..i] {
        FoundLater(origin, was, before, now, p, states[p]);
      } else {
        FoundEarlier(origin, was, before, now, p, states[p]);
      }
    }
  }

  /** Found since a later moment is found since an earlier one. */
  lemma FoundEarlier(origin: Workspace, first: seq<Deed>, was: seq<Deed>, now: seq<Deed>, p: Path, state: FileState)
    requires |first| <= |was| && FoundLast(origin, was, now, p, state)
    ensures FoundLast(origin, first, now, p, state)
  {
    var k :| |was| <= k <= |now| && FoundAt(origin, now, k, p, state);
    assert FoundAt(origin, now, k, p, state);
  }

  lemma AllLooked(origin: Workspace, was: seq<Deed>, now: seq<Deed>, tally: Tally, r: Tally)
    requires SomeFound(origin, was, now, tally.restored, r.states)
    requires forall p | p in r.states :: p in tally.states
    requires forall p :: p in tally.states <==> p in tally.restored
    ensures AllFound(origin, was, now, r.states)
  {
  }

  ghost predicate AllFound(origin: Workspace, was: seq<Deed>, now: seq<Deed>, states: Workspace) {
    forall p | p in states :: FoundLast(origin, was, now, p, states[p])
  }

  lemma FoundBefore(origin: Workspace, first: seq<Deed>, was: seq<Deed>, now: seq<Deed>, states: Workspace)
    requires |first| <= |was| && AllFound(origin, was, now, states)
    ensures AllFound(origin, first, now, states)
  {
    forall p | p in states ensures FoundLast(origin, first, now, p, states[p]) {
      FoundEarlier(origin, first, was, now, p, states[p]);
    }
  }

  ghost predicate AllStill(tally: Tally, ws: Workspace) {
    forall p | p in tally.restored ::
      p in tally.states && !tally.states[p].Skipped? && p in ws && ws[p] == tally.states[p]
  }

  /** Paths whose chains may be used at all: an unknown warning spoils the whole range,
      a known one its own path. */
  method DropWarned(keys: seq<Path>, warned: seq<Path>) returns (usable: seq<Path>, skipped: seq<Path>)
    requires Distinct(keys)
    ensures Distinct(usable)
    ensures forall p | p in usable :: p in keys
    ensures forall p | p in keys :: p in usable <==> p !in skipped
    ensures forall p :: p in skipped <==> p in warned || (p in keys && UNKNOWN_PATH in warned)
    ensures warned == [] ==> skipped == []
  {
    usable, skipped := [], warned;
    for i := 0 to |keys|
      invariant Distinct(usable)
      invariant forall p | p in usable :: p in keys[..i]
      invariant forall p | p in keys[..i] :: p in usable <==> p !in skipped
      invariant forall p :: p in skipped <==> p in warned || (p in keys[..i] && UNKNOWN_PATH in warned)
      invariant warned == [] ==> skipped == []
    {
      assert keys[..i + 1] == keys[..i] + [keys[i]];
      assert keys[i] !in keys[..i];
      if UNKNOWN_PATH in warned {
        skipped := AppendUnique(skipped, keys[i]);
      } else if keys[i] !in skipped {
        usable := usable + [keys[i]];
      }
    }
    assert keys[..|keys|] == keys;
  }

  /** Planned and carried out in peace, each path has met its fate. */
  lemma QuietFates(keys: seq<Path>, chains: map<Path, seq<Change>>, plans: seq<Plan>, blobs: set<Digest>,
                   ws: Workspace, planned: Tally, now: Workspace, tally: Tally, p: Path)
    requires p in keys && QuietPlanned(keys, chains, ws, plans, planned)
    requires QuietDone(plans, blobs, ws, planned, now, tally)
    requires Split(keys, planned.restored, plans, planned.skipped)
    ensures KeyFate(p, chains, blobs, ws, now, tally)
  {
    assert Answered(p, chains[p], Capture(ws, p), plans, planned);
    match VerdictOf(p, chains[p], Capture(ws, p))
    case Skip =>
    case Already(_) =>
      assert p !in PlanPaths(plans);
    case Planned(pl) =>
      var i :| 0 <= i < |plans| && plans[i] == pl;
      assert PlanMet(plans[i], blobs, ws, now, tally);
  }

  /** The fate of one usable path. */
  ghost predicate KeyFate(p: Path, chains: map<Path, seq<Change>>, blobs: set<Digest>, ws: Workspace,
                          now: Workspace, tally: Tally)
  {
    p in chains && chains[p] != [] &&
    var f := FateOf(p, chains[p], true, Capture(ws, p), blobs);
    && (p in tally.restored <==> IsBack(f))
    && (p in ws ==> p in now && Meets(f, ws[p], chains[p][0].before, now[p]))
    && (IsBack(f) ==> p in ws && p in tally.states && tally.states[p] == now[p])
  }

  /** Every usable path met its fate and every other file is as it was. */
  ghost predicate KeysMet(keys: seq<Path>, chains: map<Path, seq<Change>>, blobs: set<Digest>, was: Workspace,
                          now: Workspace, tally: Tally)
  {
    && now.Keys == was.Keys
    && (forall p | p in keys :: KeyFate(p, chains, blobs, was, now, tally))
    && (forall p | p in was && p !in keys :: now[p] == was[p])
  }

  lemma QuietKeys(keys: seq<Path>, chains: map<Path, seq<Change>>, usable: map<Path, seq<Change>>, plans: seq<Plan>,
                  blobs: set<Digest>, ws: Workspace, planned: Tally, now: Workspace, tally: Tally)
    requires forall p | p in keys :: p in chains && p in usable && usable[p] == chains[p]
    requires QuietPlanned(keys, usable, ws, plans, planned)
    requires QuietDone(plans, blobs, ws, planned, now, tally)
    requires Split(keys, planned.restored, plans, planned.skipped)
    requires forall p | p in tally.restored :: p in keys
    ensures KeysMet(keys, chains, blobs, ws, now, tally) && AllStill(tally, now)
  {
    forall p | p in keys ensures KeyFate(p, chains, blobs, ws, now, tally) {
      QuietFates(keys, usable, plans, blobs, ws, planned, now, tally, p);
    }
    QuietStill(keys, chains, blobs, ws, now, tally);
  }

  /** In a quiet workspace nothing changes between the writes and the last look. */
  lemma QuietStill(keys: seq<Path>, chains: map<Path, seq<Change>>, blobs: set<Digest>, ws: Workspace,
                   now: Workspace, tally: Tally)
    requires forall p | p in keys :: KeyFate(p, chains, blobs, ws, now, tally)
    requires forall p | p in tally.restored :: p in keys
    requires now.Keys == ws.Keys
    ensures AllStill(tally, now)
  {
    forall p | p in tally.restored
      ensures p in tally.states && !tally.states[p].Skipped? && p in now && now[p] == tally.states[p]
    {
      assert KeyFate(p, chains, blobs, ws, now, tally);
    }
  }

  /** Plan, apply and confirm the paths whose chains may be used. */
  method RestoreUsable(files: Files, keys: seq<Path>, chains: map<Path, seq<Change>>, skipped: seq<Path>,
                       blobs: set<Digest>)
    returns (tally: Tally, writable: bool)
    requires files.Valid() && Distinct(keys)
    requires forall p | p in keys :: p in chains && chains[p] != [] && p !in skipped
    modifies files
    ensures files.Valid() && AllAllowed(files.origin, old(files.deeds), files.deeds, map p | p in keys :: chains[p])
    ensures files.quiet ==> OwnSince(old(files.deeds), files.deeds)
    ensures Split(keys, tally.restored, [], tally.skipped)
    ensures forall p | p in skipped :: p in tally.skipped
    ensures forall p :: p in tally.states <==> p in tally.restored
    ensures SeenAll(keys, chains, tally) && AllFound(files.origin, old(files.deeds), files.deeds, tally.states)
    ensures files.quiet ==>
              && writable && KeysMet(keys, chains, blobs, old(files.states), files.states, tally) == true
              && (forall p | p in tally.skipped :: p in skipped || p in keys)
  {
    ghost var ws0 := files.states;
    var usable := map p | p in keys :: chains[p];
    var plans, planned := PlanAll(files, keys, usable, skipped);
    ghost var between := files.deeds;
    var applied;
    applied, writable := ApplyAllPlans(files, keys, plans, usable, planned, true, blobs);
    AllowedSince(files.origin, old(files.deeds), between, files.deeds, usable);
    if files.quiet {
      QuietKeys(keys, chains, usable, plans, blobs, ws0, planned, files.states, applied);
    }
    ghost var deeds := files.deeds;
    tally := ConfirmRestored(files, keys, applied);
    AllowedStill(files.origin, old(files.deeds), deeds, files.deeds, usable);
    FoundBefore(files.origin, old(files.deeds), deeds, files.deeds, tally.states);
  }

  lemma AllowedSince(origin: Workspace, was: seq<Deed>, between: seq<Deed>, now: seq<Deed>,
                     chains: map<Path, seq<Change>>)
    requires Undone(between, was) && AllAllowed(origin, between, now, chains)
    ensures AllAllowed(origin, was, now, chains)
  {
  }

  lemma AllowedStill(origin: Workspace, was: seq<Deed>, now: seq<Deed>, later: seq<Deed>,
                     chains: map<Path, seq<Change>>)
    requires AllAllowed(origin, was, now, chains) && Undone(later, now)
    ensures AllAllowed(origin, was, later, chains)
  {
    forall i | |was| <= i < |later| && later[i].Own?
      ensures HonestAt(origin, later, i) && AllowedBy(later[i].write, chains)
    {
      assert later[i] == now[i] && later[..i] == now[..i];
      assert HonestAt(origin, now, i);
    }
  }

  /** Restore the recorded changes of some manifests.  Whatever others do meanwhile: what the
      workspace becomes is made of their writes and of this restore's, each of the latter allowed
      and on what was really there; and every touched path is accounted for.  Undisturbed: every
      file of the workspace meets its fate. */
  method RestoreWorkspace(files: Files, ms: seq<Manifest>, blobs: set<Digest>)
    returns (tally: Tally, clean: bool)
    requires files.Valid()
    modifies files
    ensures files.Valid() && old(files.deeds) <= files.deeds
    ensures var since := files.deeds[|old(files.deeds)|..];
            && files.states == Replayed(old(files.states), since)
            && Outcome(History(ms), Warnings(ms), old(files.states), since, tally)
            && (files.quiet ==> OnlyOwn(since))
    ensures clean ==> tally.skipped == [] && Warnings(ms) == []
    ensures files.quiet ==>
              && FatesMet(History(ms), Warnings(ms), old(files.states), blobs, tally, files.states)
              && (clean <==> tally.skipped == [])
              && (forall p | p in tally.skipped :: Warned(Warnings(ms), p) || Chain(History(ms), p) != [])
  {
    var keys, chains, warned, usable, skipped := Gather(ms);
    UsableReady(ms, keys, chains, warned, usable, skipped);
    NoneWarned(warned, Warnings(ms));
    var writable;
    tally, writable := RestoreUsable(files, usable, chains, skipped, blobs);
    clean := tally.skipped == [] && warned == [] && writable;
    AccountedFor(ms, keys, chains, warned, usable, skipped, tally);
    CasFromAllowed(files.origin, old(files.deeds), files.deeds, History(ms), Warnings(ms), usable, chains);
    LooksSince(files.origin, old(files.deeds), files.deeds, tally);
    if files.quiet {
      FatesFromKeys(ms, keys, chains, usable, blobs, old(files.states), files.states, tally);
      SkippedWhy(ms, keys, chains, warned, usable, skipped, tally);
    }
  }

  /** Chains and warnings of the selected manifests, and which paths may be restored at all. */
  ghost predicate Gathered(ms: seq<Manifest>, keys: seq<Path>, chains: map<Path, seq<Change>>, warned: seq<Path>,
                           usable: seq<Path>, skipped: seq<Path>)
  {
    && ChainsOf(History(ms), keys, chains)
    && (forall p :: p in warned <==> Warned(Warnings(ms), p))
    && Distinct(usable)
    && (forall p :: p in usable <==> p in keys && Usable(Warnings(ms), p))
    && (forall p :: p in skipped <==> p in warned || (p in keys && UNKNOWN_PATH in warned))
    && (warned == [] ==> skipped == [])
  }

  method Gather(ms: seq<Manifest>)
    returns (keys: seq<Path>, chains: map<Path, seq<Change>>, warned: seq<Path>, usable: seq<Path>, skipped: seq<Path>)
    ensures Gathered(ms, keys, chains, warned, usable, skipped) == true
  {
    warned := CollectWarnings(ms);
    keys, chains := CollectChains(ms);
    usable, skipped := DropWarned(keys, warned);
  }

  lemma UsableReady(ms: seq<Manifest>, keys: seq<Path>, chains: map<Path, seq<Change>>, warned: seq<Path>,
                    usable: seq<Path>, skipped: seq<Path>)
    requires Gathered(ms, keys, chains, warned, usable, skipped) == true
    ensures forall p | p in usable :: p in chains && chains[p] != [] && p !in skipped
    ensures forall p | p in usable :: chains[p] == Chain(History(ms), p) && Usable(Warnings(ms), p)
  {
  }

  /** Whatever is skipped was warned about or changed. */
  lemma SkippedWhy(ms: seq<Manifest>, keys: seq<Path>, chains: map<Path, seq<Change>>, warned: seq<Path>,
                   usable: seq<Path>, skipped: seq<Path>, tally: Tally)
    requires Gathered(ms, keys, chains, warned, usable, skipped) == true
    requires forall p | p in skipped :: p in tally.skipped
    requires forall p | p in tally.skipped :: p in skipped || p in usable
    ensures forall p | p in tally.skipped :: Warned(Warnings(ms), p) || Chain(History(ms), p) != []
    ensures tally.skipped == [] ==> warned == []
  {
    assert warned != [] ==> warned[0] in warned;
  }

  lemma NoneWarned(warned: seq<Path>, ws: seq<Warning>)
    requires forall p :: p in warned <==> Warned(ws, p)
    ensures warned == [] <==> ws == []
  {
    assert warned != [] ==> warned[0] in warned;
    assert ws != [] ==> Warned(ws, ws[0].path);
  }

  lemma AccountedFor(ms: seq<Manifest>, keys: seq<Path>, chains: map<Path, seq<Change>>, warned: seq<Path>,
                     usable: seq<Path>, skipped: seq<Path>, tally: Tally)
    requires Gathered(ms, keys, chains, warned, usable, skipped) == true
    requires Split(usable, tally.restored, [], tally.skipped)
    requires forall p | p in skipped :: p in tally.skipped
    requires forall p :: p in tally.states <==> p in tally.restored
    requires SeenAll(usable, chains, tally)
    ensures Accounted(History(ms), Warnings(ms), tally) == true
  {
    assert tally.restored != [] ==> tally.restored[0] in usable;
    forall p: Path | Chain(History(ms), p) != []
      ensures p in tally.restored <==> p !in tally.skipped
    {
      assert p in keys;
    }
    forall p | p in tally.restored ensures SeenBack(Chain(History(ms), p), tally.states[p]) {
      assert RestoredImage(p, chains, tally.states);
    }
  }

  lemma LooksSince(origin: Workspace, was: seq<Deed>, now: seq<Deed>, tally: Tally)
    requires was <= now && AllFound(origin, was, now, tally.states)
    requires forall p :: p in tally.states <==> p in tally.restored
    ensures LastLook(Replayed(origin, was), now[|was|..], tally) == true
  {
    forall p | p in tally.restored ensures FoundLast(Replayed(origin, was), [], now[|was|..], p, tally.states[p]) {
      FoundSuffix(origin, was, now, p, tally.states[p]);
    }
  }

  /** Seen from the start of this restore. */
  lemma CasFromAllowed(origin: Workspace, was: seq<Deed>, now: seq<Deed>, cs: seq<Change>, ws: seq<Warning>,
                       usable: seq<Path>, chains: map<Path, seq<Change>>)
    requires forall p | p in usable :: p in chains && chains[p] == Chain(cs, p) && Usable(ws, p)
    requires AllAllowed(origin, was, now, map p | p in usable :: chains[p])
    ensures var since := now[|was|..];
            && CasSafe(Replayed(origin, was), since, cs, ws) == true
            && Replayed(Replayed(origin, was), since) == Replayed(origin, now)
  {
    var since := now[|was|..];
    assert now == was + since;
    ReplayedConcat(origin, was, since);
    forall i | 0 <= i < |since| && since[i].Own?
      ensures HonestAt(Replayed(origin, was), since, i) && Allowed(since[i].write, cs, ws)
    {
      assert since[i] == now[|was| + i] && now[..|was| + i] == was + since[..i];
      ReplayedConcat(origin, was, since[..i]);
      assert HonestAt(origin, now, |was| + i);
    }
  }

  lemma FatesFromKeys(ms: seq<Manifest>, keys: seq<Path>, chains: map<Path, seq<Change>>, usable: seq<Path>,
                      blobs: set<Digest>, ws: Workspace, now: Workspace, tally: Tally)
    requires ChainsOf(History(ms), keys, chains)
    requires forall p :: p in usable <==> p in keys && Usable(Warnings(ms), p)
    requires forall p | p in tally.restored :: p in usable
    requires KeysMet(usable, chains, blobs, ws, now, tally)
    ensures FatesMet(History(ms), Warnings(ms), ws, blobs, tally, now) == true
  {
    forall p: Path ensures FateMet(p, History(ms), Warnings(ms), ws, blobs, tally, now) {
      if p in usable { assert KeyFate(p, chains, blobs, ws, now, tally); }
    }
  }
}
