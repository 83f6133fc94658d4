/** Greedy subsequence matching and its score, on case-folded strings (kernel/fuzzy.py). */
module Fuzzy {
  import opened Collections

  const RUN_BONUS := 15
  const START_BONUS := 15
  const BOUNDARY_BONUS := 6

  predicate IsBreak(c: char) { c == '/' || c == '-' || c == '_' || c == ' ' || c == '.' }

  // ----- matching ------------------------------------------------------------------------------

  /** One way to find the needle's characters in the hay, in order. */
  predicate Embedding(needle: string, hay: string, xs: seq<nat>) {
    && |xs| == |needle|
    && (forall k | 0 <= k < |xs| :: xs[k] < |hay| && hay[xs[k]] == needle[k])
    && (forall k | 0 < k < |xs| :: xs[k - 1] < xs[k])
  }

  /** The first position of c from start on, or None. */
  function Find(hay: string, c: char, start: nat): (i: Option<nat>)
    requires start <= |hay|
    ensures i.Some? ==> start <= i.value < |hay| && hay[i.value] == c
    ensures forall j | start <= j < if i.Some? then i.value else |hay| :: hay[j] != c
    decreases |hay| - start
  {
    if start == |hay| then None else if hay[start] == c then Some(start) else Find(hay, c, start + 1)
  }

  /** Pointwise no later than any other embedding. */
  ghost predicate Leftmost(needle: string, hay: string, xs: seq<nat>) {
    forall ys | Embedding(needle, hay, ys) :: Pointwise(xs, ys)
  }

  predicate Pointwise(xs: seq<nat>, ys: seq<nat>) {
    |xs| == |ys| && forall k | 0 <= k < |xs| :: xs[k] <= ys[k]
  }

  /** Greedy search succeeds exactly when an embedding exists, and then finds the leftmost one. */
  method FuzzyIndices(needle: string, hay: string) returns (indices: Option<seq<nat>>)
    ensures indices.Some? ==> Embedding(needle, hay, indices.value) && Leftmost(needle, hay, indices.value)
    ensures indices == None ==> forall ys :: !Embedding(needle, hay, ys)
  {
    if needle == "" { return Some([]); }
    var out: seq<nat> := [];
    var start := 0;
    for i := 0 to |needle|
      invariant Embedding(needle[..i], hay, out) && Leftmost(needle[..i], hay, out)
      invariant start == if i == 0 then 0 else out[i - 1] + 1
    {
      var index := Find(hay, needle[i], start);
      if index == None {
        ghost var longer := needle[..i + 1];
        forall ys ensures !Embedding(longer, hay, ys) {
          if Embedding(longer, hay, ys) { Continues(needle, hay, i, out, ys, start); }
        }
        NoneContinues(needle, hay, i + 1);
        return None;
      }
      forall ys | Embedding(needle[..i + 1], hay, ys) ensures Pointwise(out + [index.value], ys) {
        Continues(needle, hay, i, out, ys, start);
      }
      out := out + [index.value];
      start := index.value + 1;
      assert needle[..i + 1][..i] == needle[..i];
    }
    assert needle[..|needle|] == needle;
    indices := Some(out);
  }

  lemma EmbeddingPrefix(needle: string, hay: string, xs: seq<nat>, n: nat)
    requires Embedding(needle, hay, xs) && n <= |needle|
    ensures Embedding(needle[..n], hay, xs[..n])
  {
  }

  lemma NoneContinues(needle: string, hay: string, n: nat)
    requires n <= |needle| && forall ys :: !Embedding(needle[..n], hay, ys)
    ensures forall ys :: !Embedding(needle, hay, ys)
  {
    forall ys ensures Embedding(needle, hay, ys) ==> Embedding(needle[..n], hay, ys[..if n <= |ys| then n else 0]) {
      if Embedding(needle, hay, ys) { EmbeddingPrefix(needle, hay, ys, n); }
    }
  }

  /** Any embedding of one more character puts it where the greedy search still looks. */
  lemma Continues(needle: string, hay: string, i: nat, out: seq<nat>, ys: seq<nat>, start: nat)
    requires i < |needle| && start <= |hay|
    requires Embedding(needle[..i], hay, out) && Leftmost(needle[..i], hay, out)
    requires start == if i == 0 then 0 else out[i - 1] + 1
    requires Embedding(needle[..i + 1], hay, ys)
    ensures Find(hay, needle[i], start).Some? && Pointwise(out + [Find(hay, needle[i], start).value], ys)
  {
    EmbeddingPrefix(needle[..i + 1], hay, ys, i);
    assert needle[..i + 1][..i] == needle[..i];
    assert Pointwise(out, ys[..i]);
    assert hay[ys[i]] == needle[i];
    if i > 0 { assert out[i - 1] <= ys[..i][i - 1] < ys[i]; }
    assert start <= ys[i];
  }

  /** So success means exactly that the needle is a subsequence. */
  lemma MatchesSubsequence(needle: string, hay: string)
    ensures Subsequence(needle, hay) <==> exists xs :: Embedding(needle, hay, xs)
  {
    if Subsequence(needle, hay) {
      var xs := Embed(needle, hay);
    }
    if exists xs :: Embedding(needle, hay, xs) {
      var xs :| Embedding(needle, hay, xs);
      Embedded(needle, hay, xs);
    }
  }

  lemma {:induction false} Embed(needle: string, hay: string) returns (xs: seq<nat>)
    requires Subsequence(needle, hay)
    ensures Embedding(needle, hay, xs)
    decreases |hay|
  {
    if needle == "" {
      xs := [];
    } else {
      var n, h := |needle| - 1, |hay| - 1;
      if needle[n] == hay[h] {
        xs := Embed(needle[..n], hay[..h]);
        xs := xs + [h];
      } else {
        xs := Embed(needle, hay[..h]);
      }
    }
  }

  lemma {:induction false} Embedded(needle: string, hay: string, xs: seq<nat>)
    requires Embedding(needle, hay, xs)
    ensures Subsequence(needle, hay)
    decreases |hay|
  {
    if needle != "" {
      assert xs[0] < |hay|;
      var n, h := |needle| - 1, |hay| - 1;
      Increasing(needle, hay, xs);
      if needle[n] == hay[h] {
        Embedded(needle[..n], hay[..h], xs[..n]);
      } else {
        Embedded(needle, hay[..h], xs);
      }
    }
  }

  /** An embedding's offsets before its last are before its last. */
  lemma {:induction false} Increasing(needle: string, hay: string, xs: seq<nat>)
    requires Embedding(needle, hay, xs) && xs != []
    ensures forall k | 0 <= k < |xs| - 1 :: xs[k] < xs[|xs| - 1]
    decreases |xs|
  {
    var n := |xs| - 1;
    if n > 0 {
      EmbeddingPrefix(needle, hay, xs, n);
      Increasing(needle[..n], hay, xs[..n]);
      assert forall k | 0 <= k < n - 1 :: xs[..n][k] < xs[..n][n - 1];
    }
  }

  // ----- scoring ---------------------------------------------------------------------------------

  /** Hits right after the one before. */
  function Adjacent(xs: seq<nat>): nat {
    if |xs| < 2 then 0
    else Adjacent(xs[..|xs| - 1]) + if xs[|xs| - 1] == xs[|xs| - 2] + 1 then 1 else 0
  }

  /** Hits right after a word break. */
  function AfterBreak(hay: string, xs: seq<nat>): nat
    requires forall k | 0 <= k < |xs| :: xs[k] < |hay|
  {
    if xs == [] then 0
    else
      var x := xs[|xs| - 1];
      AfterBreak(hay, xs[..|xs| - 1]) + if x > 0 && IsBreak(hay[x - 1]) then 1 else 0
  }

  /** The score without a loop: gaps add up to the spread of the hits. */
  function Score(hay: string, xs: seq<nat>): int
    requires forall k | 0 <= k < |xs| :: xs[k] < |hay|
  {
    if xs == [] then 0
    else
      (if xs[0] == 0 then START_BONUS else 0) + RUN_BONUS * Adjacent(xs) + BOUNDARY_BONUS * AfterBreak(hay, xs)
      - (xs[|xs| - 1] - xs[0] - (|xs| - 1))
  }

  /** One more hit: a run bonus or the gap, and the boundary bonus. */
  lemma ScoreStep(hay: string, xs: seq<nat>)
    requires |xs| > 1 && forall k | 0 <= k < |xs| :: xs[k] < |hay|
    ensures var n := |xs| - 1; var gap: int := xs[n] as int - xs[n - 1] - 1;
            Score(hay, xs) == Score(hay, xs[..n]) + (if gap == 0 then RUN_BONUS else -gap)
                              + if xs[n] > 0 && IsBreak(hay[xs[n] - 1]) then BOUNDARY_BONUS else 0
  {
    var n := |xs| - 1;
    assert xs[..n][n - 1] == xs[n - 1] && xs[..n][0] == xs[0];
  }

  lemma ScoreOne(hay: string, x: nat)
    requires x < |hay|
    ensures Score(hay, [x]) == (if x == 0 then START_BONUS else 0)
                               + if x > 0 && IsBreak(hay[x - 1]) then BOUNDARY_BONUS else 0
  {
    var xs: seq<nat> := [x];
    assert xs[..0] == [];
    assert AfterBreak(hay, xs) == AfterBreak(hay, []) + if x > 0 && IsBreak(hay[x - 1]) then 1 else 0;
  }

  method FuzzyScore(needle: string, hay: string, given: Option<seq<nat>>) returns (score: Option<int>)
    requires given.Some? ==> Embedding(needle, hay, given.value)
    ensures score == None <==> given == None && !exists xs :: Embedding(needle, hay, xs)
    ensures given.Some? ==> score == Some(Score(hay, given.value))
    ensures given == None && score.Some? ==>
              exists xs :: Embedding(needle, hay, xs) && Leftmost(needle, hay, xs) && score.value == Score(hay, xs)
  {
    var indices := given;
    if indices == None { indices := FuzzyIndices(needle, hay); }
    if indices == None { return None; }
    var s := ScoreHits(hay, indices.value);
    score := Some(s);
  }

  method ScoreHits(hay: string, xs: seq<nat>) returns (s: int)
    requires forall k | 0 <= k < |xs| :: xs[k] < |hay|
    ensures s == Score(hay, xs)
  {
    if xs == [] { return 0; }
    s := 0;
    if xs[0] == 0 { s := s + START_BONUS; }
    for pos := 0 to |xs|
      invariant s == if pos == 0 then (if xs[0] == 0 then START_BONUS else 0) else Score(hay, xs[..pos])
    {
      var index := xs[pos];
      assert xs[..pos + 1][..pos] == xs[..pos];
      if pos > 0 { ScoreStep(hay, xs[..pos + 1]); } else { ScoreOne(hay, index); assert xs[..1] == [index]; }
      if pos > 0 {
        var gap: int := index as int - xs[pos - 1] - 1;
        if gap == 0 {
          s := s + RUN_BONUS;
        } else {
          s := s - gap;
        }
      }
      if index > 0 && IsBreak(hay[index - 1]) { s := s + BOUNDARY_BONUS; }
    }
    assert xs[..|xs|] == xs;
  }

  // ----- how high a score can be -------------------------------------------------------------------

  /** The first hit cannot be both at the start and after a break, so n hits score at most 21n - 6. */
  lemma {:induction false} ScoreBound(needle: string, hay: string, xs: seq<nat>)
    requires Embedding(needle, hay, xs) && xs != []
    ensures Score(hay, xs) <= 21 * |xs| - 6
    decreases |xs|
  {
    var n := |xs| - 1;
    if n > 0 {
      EmbeddingPrefix(needle, hay, xs, n);
      ScoreBound(needle[..n], hay, xs[..n]);
      ScoreStep(hay, xs);
    } else {
      assert xs == [xs[0]];
      ScoreOne(hay, xs[0]);
    }
  }

  /** A last hit that comes later, with no bonus here or there, costs exactly the distance. */
  lemma LaterCosts(hay: string, xs: seq<nat>, x: nat, y: nat)
    requires xs != [] && xs[|xs| - 1] + 1 < x <= y < |hay| && forall k | 0 <= k < |xs| :: xs[k] < |hay|
    requires !IsBreak(hay[x - 1]) && !IsBreak(hay[y - 1])
    ensures Score(hay, xs + [x]) - Score(hay, xs + [y]) == y - x
  {
    ScoreStep(hay, xs + [x]);
    ScoreStep(hay, xs + [y]);
    assert (xs + [x])[..|xs|] == xs && (xs + [y])[..|xs|] == xs;
  }

  function Offsets(n: nat): (xs: seq<nat>)
    ensures |xs| == n && forall k | 0 <= k < n :: xs[k] == k
  {
    seq(n, k requires 0 <= k < n => k)
  }

  function Dashes(n: nat): (s: string)
    ensures |s| == n && forall k | 0 <= k < n :: s[k] == '-'
  {
    seq(n, _ => '-')
  }

  /** And a needle of word breaks found in itself reaches it. */
  lemma {:induction false} ScoreReached(n: nat, m: nat)
    requires 0 < n <= m
    ensures Embedding(Dashes(n), Dashes(m), Offsets(n))
    ensures Score(Dashes(m), Offsets(n)) == 21 * n - 6
  {
    if n > 1 {
      ScoreReached(n - 1, m);
      assert Offsets(n)[..n - 1] == Offsets(n - 1);
      ScoreStep(Dashes(m), Offsets(n));
    } else {
      assert Offsets(1) == [0];
      ScoreOne(Dashes(m), 0);
    }
  }
}
