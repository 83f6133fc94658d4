/** Chains of file states across checkpoints: flattening, rebasing, folding and
    the timeline invariant from which the undo theorem follows. */
module Lineage {
  import opened CheckpointData
  import Sequences

  // ----- flattening ---------------------------------------------------------

  function OpChanges(ops: seq<Operation>): seq<Change> {
    if ops == [] then [] else OpChanges(ops[..|ops| - 1]) + ops[|ops| - 1].changes
  }

  function History(ms: seq<Manifest>): seq<Change> {
    if ms == [] then [] else History(ms[..|ms| - 1]) + OpChanges(ms[|ms| - 1].operations)
  }

  function Warnings(ms: seq<Manifest>): seq<Warning> {
    if ms == [] then [] else Warnings(ms[..|ms| - 1]) + ms[|ms| - 1].warnings
  }

  function Chain(cs: seq<Change>, p: Path): seq<Change> {
    if cs == [] then []
    else
      var rest := Chain(cs[..|cs| - 1], p);
      if cs[|cs| - 1].path == p then rest + [cs[|cs| - 1]] else rest
  }

  lemma {:induction false} OpChangesConcat(a: seq<Operation>, b: seq<Operation>)
    ensures OpChanges(a + b) == OpChanges(a) + OpChanges(b)
  {
    if b == [] {
      assert a + b == a;
    } else {
      var front := b[..|b| - 1];
      Sequences.Front(a, b);
      OpChangesConcat(a, front);
      Sequences.Assoc(OpChanges(a), OpChanges(front), b[|b| - 1].changes);
    }
  }

  lemma {:induction false} HistoryConcat(a: seq<Manifest>, b: seq<Manifest>)
    ensures History(a + b) == History(a) + History(b)
    ensures Warnings(a + b) == Warnings(a) + Warnings(b)
  {
    if b == [] {
      assert a + b == a;
    } else {
      var front, last := b[..|b| - 1], b[|b| - 1];
      Sequences.Front(a, b);
      HistoryConcat(a, front);
      Sequences.Assoc(History(a), History(front), OpChanges(last.operations));
      Sequences.Assoc(Warnings(a), Warnings(front), last.warnings);
    }
  }

  lemma {:induction false} ChainConcat(a: seq<Change>, b: seq<Change>, p: Path)
    ensures Chain(a + b, p) == Chain(a, p) + Chain(b, p)
  {
    if b == [] {
      assert a + b == a;
    } else {
      var front, last := b[..|b| - 1], b[|b| - 1];
      Sequences.Front(a, b);
      ChainConcat(a, front, p);
      Sequences.Assoc(Chain(a, p), Chain(front, p), [last]);
    }
  }

  lemma ChainSnoc(cs: seq<Change>, c: Change, p: Path)
    ensures Chain(cs + [c], p) == if c.path == p then Chain(cs, p) + [c] else Chain(cs, p)
  {
    Sequences.Appended(cs, c);
  }

  /** A chain holds changes of its own path only, all of them recorded. */
  lemma {:induction false} ChainMembers(cs: seq<Change>, p: Path)
    ensures forall c :: c in Chain(cs, p) <==> c in cs && c.path == p
  {
    if cs != [] {
      ChainMembers(cs[..|cs| - 1], p);
      assert cs == cs[..|cs| - 1] + [cs[|cs| - 1]];
    }
  }

  // ----- rebasing predecessors ---------------------------------------------

  predicate Mentions(cs: seq<Change>, p: Path) {
    exists i | 0 <= i < |cs| :: cs[i].path == p
  }

  lemma {:induction false} MentionsChain(cs: seq<Change>, p: Path)
    ensures Mentions(cs, p) <==> Chain(cs, p) != []
  {
    ChainMembers(cs, p);
    if Mentions(cs, p) {
      var i :| 0 <= i < |cs| && cs[i].path == p;
      assert cs[i] in Chain(cs, p);
    }
    if Chain(cs, p) != [] {
      assert Chain(cs, p)[0] in Chain(cs, p);
    }
  }

  /** The last change of p gets the newly written state as its after-state. */
  function RebaseChanges(cs: seq<Change>, p: Path, now: FileState): (r: seq<Change>)
    ensures |r| == |cs|
  {
    if cs == [] then []
    else
      var n := |cs| - 1;
      if cs[n].path == p then cs[..n] + [cs[n].(after := now)]
      else RebaseChanges(cs[..n], p, now) + [cs[n]]
  }

  function RebaseOps(ops: seq<Operation>, p: Path, now: FileState): (r: seq<Operation>)
    ensures |r| == |ops|
  {
    if ops == [] then []
    else
      var n := |ops| - 1;
      if Mentions(ops[n].changes, p)
      then ops[..n] + [ops[n].(changes := RebaseChanges(ops[n].changes, p, now))]
      else RebaseOps(ops[..n], p, now) + [ops[n]]
  }

  function Rebase(ms: seq<Manifest>, p: Path, now: FileState): (r: seq<Manifest>)
    ensures |r| == |ms|
  {
    if ms == [] then []
    else
      var n := |ms| - 1;
      if Mentions(OpChanges(ms[n].operations), p)
      then ms[..n] + [ms[n].(operations := RebaseOps(ms[n].operations, p, now))]
      else Rebase(ms[..n], p, now) + [ms[n]]
  }

  /** Rebase every restored path; the paths are distinct. */
  function RebaseAll(ms: seq<Manifest>, paths: seq<Path>, states: Workspace): (r: seq<Manifest>)
    requires forall p | p in paths :: p in states
    ensures |r| == |ms|
  {
    if paths == [] then ms
    else
      var n := |paths| - 1;
      Rebase(RebaseAll(ms, paths[..n], states), paths[n], states[paths[n]])
  }

  lemma {:induction false} RebaseChangesSplit(a: seq<Change>, b: seq<Change>, p: Path, now: FileState)
    ensures RebaseChanges(a + b, p, now) ==
            if Mentions(b, p) then a + RebaseChanges(b, p, now) else RebaseChanges(a, p, now) + b
  {
    if b == [] {
      assert a + b == a;
    } else {
      var n := |b| - 1;
      assert (a + b)[..|a + b| - 1] == a + b[..n];
      if b[n].path == p {
      } else {
        RebaseChangesSplit(a, b[..n], p, now);
        assert Mentions(b, p) <==> Mentions(b[..n], p) by {
          if Mentions(b, p) {
            var i :| 0 <= i < |b| && b[i].path == p;
            assert b[..n][i].path == p;
          }
          if Mentions(b[..n], p) {
            var i :| 0 <= i < n && b[..n][i].path == p;
            assert b[i].path == p;
          }
        }
      }
    }
  }

  lemma {:induction false} RebaseOpsFlattens(ops: seq<Operation>, p: Path, now: FileState)
    ensures OpChanges(RebaseOps(ops, p, now)) == RebaseChanges(OpChanges(ops), p, now)
  {
    if ops != [] {
      var n := |ops| - 1;
      RebaseChangesSplit(OpChanges(ops[..n]), ops[n].changes, p, now);
      if Mentions(ops[n].changes, p) {
      } else {
        RebaseOpsFlattens(ops[..n], p, now);
        assert RebaseOps(ops, p, now)[..n] == RebaseOps(ops[..n], p, now);
      }
    }
  }

  lemma {:induction false} RebaseFlattens(ms: seq<Manifest>, p: Path, now: FileState)
    ensures History(Rebase(ms, p, now)) == RebaseChanges(History(ms), p, now)
    ensures Warnings(Rebase(ms, p, now)) == Warnings(ms)
  {
    if ms != [] {
      var n := |ms| - 1;
      RebaseChangesSplit(History(ms[..n]), OpChanges(ms[n].operations), p, now);
      if Mentions(OpChanges(ms[n].operations), p) {
        RebaseOpsFlattens(ms[n].operations, p, now);
      } else {
        RebaseFlattens(ms[..n], p, now);
        assert Rebase(ms, p, now)[..n] == Rebase(ms[..n], p, now);
      }
    }
  }

  /** A chain whose final after-state is replaced. */
  function Retarget(chain: seq<Change>, now: FileState): seq<Change> {
    if chain == [] then [] else chain[..|chain| - 1] + [chain[|chain| - 1].(after := now)]
  }

  /** Effect of a rebase on the chain of every path. */
  lemma {:induction false} RebaseChain(cs: seq<Change>, p: Path, now: FileState, q: Path)
    ensures Chain(RebaseChanges(cs, p, now), q) ==
            (if q == p then Retarget(Chain(cs, q), now) else Chain(cs, q))
  {
    if cs != [] {
      var n := |cs| - 1;
      var r := RebaseChanges(cs, p, now);
      if cs[n].path == p {
        assert r[..n] == cs[..n];
        assert r[n] == cs[n].(after := now);
      } else {
        RebaseChain(cs[..n], p, now, q);
        assert r[..n] == RebaseChanges(cs[..n], p, now);
      }
    }
  }

  lemma {:induction false} RebaseSplit(a: seq<Manifest>, b: seq<Manifest>, p: Path, now: FileState)
    ensures Rebase(a + b, p, now) ==
            if Mentions(History(b), p) then a + Rebase(b, p, now) else Rebase(a, p, now) + b
  {
    if b == [] {
      assert a + b == a;
    } else {
      var n := |b| - 1;
      assert (a + b)[..|a + b| - 1] == a + b[..n];
      assert Mentions(History(b), p) <==> Mentions(OpChanges(b[n].operations), p) || Mentions(History(b[..n]), p) by {
        MentionsConcat(History(b[..n]), OpChanges(b[n].operations), p);
      }
      if Mentions(OpChanges(b[n].operations), p) {
        RebaseSplitHere(a, b, p, now);
      } else {
        RebaseSplit(a, b[..n], p, now);
        RebaseSplitBefore(a, b, p, now);
      }
    }
  }

  lemma MentionsConcat(a: seq<Change>, b: seq<Change>, p: Path)
    ensures Mentions(a + b, p) <==> Mentions(a, p) || Mentions(b, p)
  {
    MentionsChain(a, p);
    MentionsChain(b, p);
    MentionsChain(a + b, p);
    ChainConcat(a, b, p);
  }

  lemma RebaseSplitHere(a: seq<Manifest>, b: seq<Manifest>, p: Path, now: FileState)
    requires b != [] && Mentions(OpChanges(b[|b| - 1].operations), p)
    ensures Rebase(a + b, p, now) == a + Rebase(b, p, now)
  {
    var n := |b| - 1;
    assert (a + b)[..|a + b| - 1] == a + b[..n];
    assert (a + b)[|a + b| - 1] == b[n];
  }

  lemma RebaseSplitBefore(a: seq<Manifest>, b: seq<Manifest>, p: Path, now: FileState)
    requires b != [] && !Mentions(OpChanges(b[|b| - 1].operations), p)
    ensures Rebase(a + b, p, now) == Rebase(a + b[..|b| - 1], p, now) + [b[|b| - 1]]
    ensures Rebase(b, p, now) == Rebase(b[..|b| - 1], p, now) + [b[|b| - 1]]
    ensures b == b[..|b| - 1] + [b[|b| - 1]]
  {
    var n := |b| - 1;
    assert (a + b)[..|a + b| - 1] == a + b[..n];
    assert (a + b)[|a + b| - 1] == b[n];
  }

  /** Chains of any suffix of the timeline after one rebase. */
  lemma RebaseSuffix(ms: seq<Manifest>, k: nat, p: Path, now: FileState, q: Path)
    requires k <= |ms|
    ensures Chain(History(Rebase(ms, p, now)[k..]), q) ==
            (if q == p then Retarget(Chain(History(ms[k..]), q), now) else Chain(History(ms[k..]), q))
  {
    var a, b := ms[..k], ms[k..];
    assert ms == a + b;
    RebaseSplit(a, b, p, now);
    MentionsChain(History(b), p);
    var r := Rebase(ms, p, now);
    if Mentions(History(b), p) {
      assert r[k..] == Rebase(b, p, now);
      RebaseFlattens(b, p, now);
      RebaseChain(History(b), p, now, q);
    } else {
      assert r[k..] == b;
    }
  }

  /** Rebasing every restored path: each path's chain in every suffix ends at its
      newly written state, all other chains are as they were. */
  lemma {:induction false} RebaseAllSuffix(ms: seq<Manifest>, k: nat, paths: seq<Path>, states: Workspace, q: Path)
    requires k <= |ms|
    requires forall p | p in paths :: p in states
    requires forall i, j | 0 <= i < j < |paths| :: paths[i] != paths[j]
    ensures Chain(History(RebaseAll(ms, paths, states)[k..]), q) ==
            (if q in paths then Retarget(Chain(History(ms[k..]), q), states[q]) else Chain(History(ms[k..]), q))
    ensures Warnings(RebaseAll(ms, paths, states)) == Warnings(ms)
  {
    if paths != [] {
      var n := |paths| - 1;
      var before := RebaseAll(ms, paths[..n], states);
      RebaseAllSuffix(ms, k, paths[..n], states, q);
      RebaseSuffix(before, k, paths[n], states[paths[n]], q);
      RebaseFlattens(before, paths[n], states[paths[n]]);
      assert paths == paths[..n] + [paths[n]];
    }
  }
}
