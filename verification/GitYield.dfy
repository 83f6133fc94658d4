/** The diff yield of a turn: what changed between two snapshots of per-file line counts
    (kernel/git_yield.py). */
module GitYield {
  import opened Collections

  type Path = string

  datatype FileStat = FileStat(path: Path, additions: int, deletions: int)

  datatype Snapshot = Snapshot(available: bool, files: seq<FileStat>)

  datatype Delta = Delta(files: nat, additions: int, deletions: int)

  predicate LastListed(files: seq<FileStat>, i: nat)
    requires i < |files|
  {
    forall j | i < j < |files| :: files[j].path != files[i].path
  }

  /** A path listed twice counts as it is listed last. */
  function ByPath(files: seq<FileStat>): (m: map<Path, FileStat>)
    ensures forall p | p in m :: m[p].path == p
  {
    if files == [] then map[] else ByPath(files[..|files| - 1])[files[|files| - 1].path := files[|files| - 1]]
  }

  lemma {:induction false} LastCounts(files: seq<FileStat>, p: Path)
    ensures p in ByPath(files) <==> exists i | 0 <= i < |files| :: files[i].path == p
    ensures forall i | 0 <= i < |files| && files[i].path == p && LastListed(files, i) :: ByPath(files)[p] == files[i]
  {
    if files != [] {
      var n := |files| - 1;
      LastCounts(files[..n], p);
      forall i | 0 <= i < |files| && files[i].path == p && LastListed(files, i) ensures ByPath(files)[p] == files[i] {
        if i < n {
          assert files[n].path != p;
          assert LastListed(files[..n], i) && files[..n][i] == files[i];
        }
      }
      assert forall i | 0 <= i < n :: files[..n][i] == files[i];
    }
  }

  function StatOf(m: map<Path, FileStat>, p: Path): FileStat {
    if p in m then m[p] else FileStat(p, 0, 0)
  }

  /** Listed in one only, or with different counts; a file listed with no lines differs from no file. */
  function Changed(a: map<Path, FileStat>, b: map<Path, FileStat>): set<Path> {
    set p | p in a.Keys + b.Keys && (p !in a || p !in b || a[p] != b[p])
  }

  function Excess(x: int): int { if x > 0 then x else 0 }

  /** Lines a file gained between two states of its diff: new additions, and deletions taken back. */
  function Gained(o: FileStat, n: FileStat): int {
    Excess(n.additions - o.additions) + Excess(o.deletions - n.deletions)
  }

  function GainAt(a: map<Path, FileStat>, b: map<Path, FileStat>, p: Path): int {
    Gained(StatOf(a, p), StatOf(b, p))
  }

  function Gains(a: map<Path, FileStat>, b: map<Path, FileStat>): Path -> int {
    p => GainAt(a, b, p)
  }

  /** The sum over a finite set, in any order. */
  ghost function Sum(s: set<Path>, f: Path -> int): int {
    if s == {} then 0 else var p :| p in s; f(p) + Sum(s - {p}, f)
  }

  lemma {:induction false} SumTake(s: set<Path>, f: Path -> int, p: Path)
    requires p in s
    ensures Sum(s, f) == f(p) + Sum(s - {p}, f)
  {
    var q :| q in s && Sum(s, f) == f(q) + Sum(s - {q}, f);
    if q != p {
      SumTake(s - {q}, f, p);
      SumTake(s - {p}, f, q);
      assert s - {q} - {p} == s - {p} - {q};
    }
  }

  method DeltaFrom(after: Snapshot, before: Snapshot) returns (delta: Option<Delta>)
    ensures delta == None <==> !after.available || !before.available
    ensures delta.Some? ==>
              var a, b := ByPath(before.files), ByPath(after.files);
              && delta.value.files == |Changed(a, b)|
              && delta.value.additions == Sum(Changed(a, b), Gains(a, b))
              && delta.value.deletions == Sum(Changed(a, b), Gains(b, a))
  {
    if !after.available || !before.available { return None; }
    var a, b := ByPath(before.files), ByPath(after.files);
    var paths := Changed(a, b);
    var additions, deletions := 0, 0;
    var rest := paths;
    while rest != {}
      invariant rest <= paths
      invariant additions + Sum(rest, Gains(a, b)) == Sum(paths, Gains(a, b))
      invariant deletions + Sum(rest, Gains(b, a)) == Sum(paths, Gains(b, a))
      decreases |rest|
    {
      var p :| p in rest;
      SumTake(rest, Gains(a, b), p);
      SumTake(rest, Gains(b, a), p);
      var o, n := StatOf(a, p), StatOf(b, p);
      var added, deleted := n.additions - o.additions, n.deletions - o.deletions;
      additions := additions + Excess(added) + Excess(-deleted);
      deletions := deletions + Excess(deleted) + Excess(-added);
      rest := rest - {p};
    }
    delta := Some(Delta(|paths|, additions, deletions));
  }

  /** The delta as a function of two snapshots. */
  ghost function Yield(a: map<Path, FileStat>, b: map<Path, FileStat>): Delta {
    Delta(|Changed(a, b)|, Sum(Changed(a, b), Gains(a, b)), Sum(Changed(a, b), Gains(b, a)))
  }

  // ----- sums ------------------------------------------------------------------------------------

  lemma {:induction false} SumSame(s: set<Path>, f: Path -> int, g: Path -> int)
    requires forall p | p in s :: f(p) == g(p)
    ensures Sum(s, f) == Sum(s, g)
  {
    if s != {} {
      var p :| p in s;
      SumTake(s, f, p);
      SumTake(s, g, p);
      SumSame(s - {p}, f, g);
    }
  }

  /** Elements that add nothing can be left out. */
  lemma {:induction false} SumSupport(s: set<Path>, t: set<Path>, f: Path -> int)
    requires s <= t && forall p | p in t - s :: f(p) == 0
    ensures Sum(t, f) == Sum(s, f)
  {
    if t != s {
      assert !(t <= s);
      var p :| p in t && p !in s;
      SumTake(t, f, p);
      assert s <= t - {p};
      SumSupport(s, t - {p}, f);
    }
  }

  lemma {:induction false} SumPlus(s: set<Path>, f: Path -> int, g: Path -> int, h: Path -> int)
    requires forall p | p in s :: h(p) == f(p) + g(p)
    ensures Sum(s, h) == Sum(s, f) + Sum(s, g)
  {
    if s != {} {
      var p :| p in s;
      SumTake(s, f, p);
      SumTake(s, g, p);
      SumTake(s, h, p);
      SumPlus(s - {p}, f, g, h);
    }
  }

  lemma {:induction false} SumLess(s: set<Path>, f: Path -> int, g: Path -> int)
    requires forall p | p in s :: f(p) <= g(p)
    ensures Sum(s, f) <= Sum(s, g)
  {
    if s != {} {
      var p :| p in s;
      SumTake(s, f, p);
      SumTake(s, g, p);
      SumLess(s - {p}, f, g);
    }
  }

  lemma GainsOutside(a: map<Path, FileStat>, b: map<Path, FileStat>, t: set<Path>)
    requires Changed(a, b) <= t
    ensures Sum(Changed(a, b), Gains(a, b)) == Sum(t, Gains(a, b))
    ensures Sum(Changed(a, b), Gains(b, a)) == Sum(t, Gains(b, a))
  {
    forall p | p in t - Changed(a, b) ensures Gains(a, b)(p) == 0 && Gains(b, a)(p) == 0 {
      assert StatOf(a, p) == StatOf(b, p);
    }
    SumSupport(Changed(a, b), t, Gains(a, b));
    SumSupport(Changed(a, b), t, Gains(b, a));
  }

  // ----- a churn measure ----------------------------------------------------------------------------

  /** Undoing a turn yields its reverse: additions and deletions change places. */
  lemma Reversed(a: map<Path, FileStat>, b: map<Path, FileStat>)
    ensures Yield(b, a) == Delta(Yield(a, b).files, Yield(a, b).deletions, Yield(a, b).additions)
  {
    assert Changed(a, b) == Changed(b, a);
  }

  function NetAt(m: map<Path, FileStat>, p: Path): int { StatOf(m, p).additions - StatOf(m, p).deletions }

  function Nets(m: map<Path, FileStat>): Path -> int { p => NetAt(m, p) }

  /** All lines a snapshot shows as added, less those it shows as deleted. */
  ghost function Net(m: map<Path, FileStat>): int { Sum(m.Keys, Nets(m)) }

  /** A turn's additions less its deletions are exactly the change of the net. */
  lemma NetChange(a: map<Path, FileStat>, b: map<Path, FileStat>)
    ensures Yield(a, b).additions - Yield(a, b).deletions == Net(b) - Net(a)
  {
    var t := a.Keys + b.Keys;
    GainsOutside(a, b, t);
    NetOutside(a, t);
    NetOutside(b, t);
    Balanced(a, b, t);
  }

  lemma NetOutside(m: map<Path, FileStat>, t: set<Path>)
    requires m.Keys <= t
    ensures Net(m) == Sum(t, Nets(m))
  {
    SumSupport(m.Keys, t, Nets(m));
  }

  lemma Balanced(a: map<Path, FileStat>, b: map<Path, FileStat>, t: set<Path>)
    ensures Sum(t, Nets(a)) + Sum(t, Gains(a, b)) == Sum(t, Nets(b)) + Sum(t, Gains(b, a))
  {
    var both: Path -> int := p => Nets(a)(p) + Gains(a, b)(p);
    SumPlus(t, Nets(a), Gains(a, b), both);
    var back: Path -> int := p => Nets(b)(p) + Gains(b, a)(p);
    SumPlus(t, Nets(b), Gains(b, a), back);
    forall p | p in t ensures both(p) == back(p) { PathBalanced(a, b, p); }
    SumSame(t, both, back);
  }

  lemma PathBalanced(a: map<Path, FileStat>, b: map<Path, FileStat>, p: Path)
    ensures NetAt(a, p) + GainAt(a, b, p) == NetAt(b, p) + GainAt(b, a, p)
  {
    FileBalanced(StatOf(a, p), StatOf(b, p));
  }

  lemma FileBalanced(o: FileStat, n: FileStat)
    ensures o.additions - o.deletions + Gained(o, n) == n.additions - n.deletions + Gained(n, o)
  {
  }

  function NetOf(d: Delta): int { d.additions - d.deletions }

  /** So it telescopes over any run of turns. */
  ghost function NetYield(snapshots: seq<map<Path, FileStat>>): int
    requires snapshots != []
  {
    if |snapshots| == 1 then 0
    else
      var n := |snapshots| - 1;
      NetYield(snapshots[..n]) + NetOf(Yield(snapshots[n - 1], snapshots[n]))
  }

  lemma {:induction false} Telescopes(snapshots: seq<map<Path, FileStat>>)
    requires snapshots != []
    ensures NetYield(snapshots) == Net(snapshots[|snapshots| - 1]) - Net(snapshots[0])
  {
    if |snapshots| > 1 {
      var n := |snapshots| - 1;
      Telescopes(snapshots[..n]);
      NetYieldStep(snapshots);
    }
  }

  lemma NetYieldStep(snapshots: seq<map<Path, FileStat>>)
    requires |snapshots| > 1
    ensures var n := |snapshots| - 1;
            NetYield(snapshots) == NetYield(snapshots[..n]) + Net(snapshots[n]) - Net(snapshots[n - 1])
  {
    NetChange(snapshots[|snapshots| - 2], snapshots[|snapshots| - 1]);
  }

  /** Going through any intermediate snapshot shows at least as many files and lines. */
  lemma Triangle(a: map<Path, FileStat>, b: map<Path, FileStat>, c: map<Path, FileStat>)
    ensures Yield(a, c).files <= Yield(a, b).files + Yield(b, c).files
    ensures Yield(a, c).additions <= Yield(a, b).additions + Yield(b, c).additions
    ensures Yield(a, c).deletions <= Yield(a, b).deletions + Yield(b, c).deletions
  {
    var t := a.Keys + b.Keys + c.Keys;
    assert Changed(a, c) <= Changed(a, b) + Changed(b, c);
    UnionSize(Changed(a, b), Changed(b, c), Changed(a, c));
    Through(a, b, c, t);
    Through(c, b, a, t);
    GainsOutside(a, b, t);
    GainsOutside(b, c, t);
    GainsOutside(a, c, t);
  }

  lemma Through(a: map<Path, FileStat>, b: map<Path, FileStat>, c: map<Path, FileStat>, t: set<Path>)
    ensures Sum(t, Gains(a, c)) <= Sum(t, Gains(a, b)) + Sum(t, Gains(b, c))
  {
    var both: Path -> int := p => Gains(a, b)(p) + Gains(b, c)(p);
    SumPlus(t, Gains(a, b), Gains(b, c), both);
    SumLess(t, Gains(a, c), both);
  }

  lemma UnionSize(s: set<Path>, t: set<Path>, u: set<Path>)
    requires u <= s + t
    ensures |u| <= |s| + |t|
  {
    assert s + t == s + (t - s);
    assert |s + (t - s)| == |s| + |t - s|;
    SubsetSize(u, s + t);
    SubsetSize(t - s, t);
  }

  lemma {:induction false} SubsetSize(u: set<Path>, v: set<Path>)
    requires u <= v
    ensures |u| <= |v|
  {
    assert v == u + (v - u);
    assert |u + (v - u)| == |u| + |v - u|;
  }

  /** No churn at all means no file changed its counts, and the other way round. */
  lemma NothingYielded(a: map<Path, FileStat>, b: map<Path, FileStat>)
    ensures Yield(a, b) == Delta(0, 0, 0) <==> a == b
  {
    if a == b {
      assert Changed(a, b) == {};
    } else {
      Differ(a, b);
    }
  }

  lemma Differ(a: map<Path, FileStat>, b: map<Path, FileStat>)
    requires a != b
    ensures |Changed(a, b)| > 0
  {
    var diff := Changed(a, b);
    if forall p | p in a :: p in b {
      if forall p | p in b :: p in a {
        assert a.Keys == b.Keys;
        var p :| p in a && a[p] != b[p];
        assert p in diff;
      } else {
        var p :| p in b && p !in a;
        assert p in diff;
      }
    } else {
      var p :| p in a && p !in b;
      assert p in diff;
    }
  }
}
