/** The in-place search that refreshes predecessors after a restore, and its agreement
    with the recursive rebase. */
module RebaseLoops {
  import opened CheckpointData
  import opened Lineage
  import Sequences

  method FindChange(cs: seq<Change>, p: Path) returns (hit: int)
    ensures -1 <= hit < |cs| && (hit >= 0 ==> cs[hit].path == p)
    ensures forall i | hit < i < |cs| :: cs[i].path != p
    ensures hit >= 0 <==> Mentions(cs, p)
  {
    hit := |cs| - 1;
    while hit >= 0 && cs[hit].path != p
      invariant -1 <= hit < |cs|
      invariant forall i | hit < i < |cs| :: cs[i].path != p
    {
      hit := hit - 1;
    }
  }

  lemma {:induction false} RebaseChangesAt(cs: seq<Change>, p: Path, now: FileState, hit: nat)
    requires hit < |cs| && cs[hit].path == p && forall i | hit < i < |cs| :: cs[i].path != p
    ensures RebaseChanges(cs, p, now) == cs[hit := cs[hit].(after := now)]
  {
    var n := |cs| - 1;
    if hit < n {
      RebaseChangesAt(cs[..n], p, now, hit);
    }
  }

  method RebaseOperations(ops: seq<Operation>, p: Path, now: FileState) returns (r: seq<Operation>, found: bool)
    ensures r == RebaseOps(ops, p, now)
    ensures found <==> Mentions(OpChanges(ops), p)
    ensures !found ==> r == ops
  {
    var j := |ops|;
    while j > 0
      invariant 0 <= j <= |ops|
      invariant forall i | j <= i < |ops| :: !Mentions(ops[i].changes, p)
    {
      j := j - 1;
      var hit := FindChange(ops[j].changes, p);
      if hit >= 0 {
        RebaseChangesAt(ops[j].changes, p, now, hit);
        RebaseOpsAt(ops, p, now, j);
        var cs := ops[j].changes;
        return ops[j := ops[j].(changes := cs[hit := cs[hit].(after := now)])], true;
      }
    }
    RebaseOpsNone(ops, p, now);
    return ops, false;
  }

  lemma {:induction false} RebaseOpsAt(ops: seq<Operation>, p: Path, now: FileState, j: nat)
    requires j < |ops| && Mentions(ops[j].changes, p)
    requires forall i | j < i < |ops| :: !Mentions(ops[i].changes, p)
    ensures RebaseOps(ops, p, now) == ops[j := ops[j].(changes := RebaseChanges(ops[j].changes, p, now))]
    ensures Mentions(OpChanges(ops), p)
  {
    var n := |ops| - 1;
    MentionsConcat(OpChanges(ops[..n]), ops[n].changes, p);
    if j < n {
      RebaseOpsAt(ops[..n], p, now, j);
    }
  }

  lemma {:induction false} RebaseOpsNone(ops: seq<Operation>, p: Path, now: FileState)
    requires forall i | 0 <= i < |ops| :: !Mentions(ops[i].changes, p)
    ensures RebaseOps(ops, p, now) == ops && !Mentions(OpChanges(ops), p)
  {
    if ops != [] {
      var n := |ops| - 1;
      RebaseOpsNone(ops[..n], p, now);
      MentionsConcat(OpChanges(ops[..n]), ops[n].changes, p);
      Sequences.Snoc(ops);
    }
  }

  method RebaseManifests(ms: seq<Manifest>, p: Path, now: FileState) returns (r: seq<Manifest>, at: int)
    ensures r == Rebase(ms, p, now)
    ensures -1 <= at < |ms|
    ensures forall i | 0 <= i < |ms| && i != at :: r[i] == ms[i]
  {
    var k := |ms|;
    while k > 0
      invariant 0 <= k <= |ms|
      invariant forall i | k <= i < |ms| :: !Mentions(OpChanges(ms[i].operations), p)
    {
      k := k - 1;
      var ops, found := RebaseOperations(ms[k].operations, p, now);
      if found {
        RebaseAt(ms, p, now, k);
        return ms[k := ms[k].(operations := ops)], k;
      }
    }
    RebaseNone(ms, p, now);
    return ms, -1;
  }

  lemma {:induction false} RebaseAt(ms: seq<Manifest>, p: Path, now: FileState, k: nat)
    requires k < |ms| && Mentions(OpChanges(ms[k].operations), p)
    requires forall i | k < i < |ms| :: !Mentions(OpChanges(ms[i].operations), p)
    ensures Rebase(ms, p, now) == ms[k := ms[k].(operations := RebaseOps(ms[k].operations, p, now))]
  {
    var n := |ms| - 1;
    if k < n {
      RebaseAt(ms[..n], p, now, k);
    }
  }

  lemma {:induction false} RebaseNone(ms: seq<Manifest>, p: Path, now: FileState)
    requires forall i | 0 <= i < |ms| :: !Mentions(OpChanges(ms[i].operations), p)
    ensures Rebase(ms, p, now) == ms
  {
    if ms != [] {
      RebaseNone(ms[..|ms| - 1], p, now);
      Sequences.Snoc(ms);
    }
  }

  /** Refresh the terminal after-state of every restored path; report what was touched. */
  method RebasePredecessors(ms: seq<Manifest>, paths: seq<Path>, states: Workspace)
    returns (r: seq<Manifest>, changed: set<int>)
    requires forall p | p in paths :: p in states
    ensures r == RebaseAll(ms, paths, states)
    ensures forall i | 0 <= i < |ms| && i !in changed :: r[i] == ms[i]
  {
    r, changed := ms, {};
    for i := 0 to |paths|
      invariant r == RebaseAll(ms, paths[..i], states)
      invariant forall j | 0 <= j < |ms| && j !in changed :: r[j] == ms[j]
    {
      assert paths[..i + 1][..i] == paths[..i];
      var at;
      r, at := RebaseManifests(r, paths[i], states[paths[i]]);
      if at >= 0 {
        changed := changed + {at};
      }
    }
    assert paths[..|paths|] == paths;
  }
}
