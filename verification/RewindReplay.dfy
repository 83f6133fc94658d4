/** Replaying an append-only event log that contains rewind markers (kernel/events.py). */
module RewindReplay {
  import Sequences

  datatype Event = Marker(kept: int) | Prompt(text: string) | Other(text: string)

  /** The live turn ledger: events before the first prompt, then the turns. */
  datatype Ledger = Ledger(preamble: seq<Event>, turns: seq<seq<Event>>)

  const EMPTY := Ledger([], [])

  /** How many of n turns a marker keeps; its count is clamped both ways. */
  function Keep(kept: int, n: nat): (k: nat)
    ensures k <= n
  {
    if kept < 0 then 0 else if kept < n then kept else n
  }

  /** One live operation: a rewind, a prompt, or an event of the current turn. */
  function Step(l: Ledger, e: Event): Ledger {
    match e
    case Marker(kept) => l.(turns := l.turns[..Keep(kept, |l.turns|)])
    case Prompt(_) => l.(turns := l.turns + [[e]])
    case Other(_) => Appended(l, e)
  }

  function Appended(l: Ledger, e: Event): Ledger {
    if l.turns == [] then l.(preamble := l.preamble + [e])
    else l.(turns := l.turns[|l.turns| - 1 := l.turns[|l.turns| - 1] + [e]])
  }

  function Run(l: Ledger, log: seq<Event>): Ledger {
    if log == [] then l else Step(Run(l, log[..|log| - 1]), log[|log| - 1])
  }

  function Flat(turns: seq<seq<Event>>): seq<Event> {
    if turns == [] then [] else Flat(turns[..|turns| - 1]) + turns[|turns| - 1]
  }

  function Events(l: Ledger): seq<Event> { l.preamble + Flat(l.turns) }

  /** What the reader rebuilds: the events of the ledger the log's run ends with. */
  function Drop(log: seq<Event>): seq<Event> { Events(Run(EMPTY, log)) }

  /** current is the index of the turn being appended to, or -1 for the preamble. */
  method DropRewoundEvents(events: seq<Event>) returns (result: seq<Event>)
    ensures result == Drop(events)
  {
    var preamble: seq<Event> := [];
    var turns: seq<seq<Event>> := [];
    var current := -1;
    for i := 0 to |events|
      invariant Run(EMPTY, events[..i]) == Ledger(preamble, turns)
      invariant current == |turns| - 1
    {
      assert events[..i + 1][..i] == events[..i];
      match events[i]
      case Marker(kept) =>
        var keep := if kept < |turns| then kept else |turns|;
        keep := if 0 < keep then keep else 0;
        turns := turns[..keep];
        current := if turns != [] then |turns| - 1 else -1;
      case Prompt(_) =>
        turns := turns + [[events[i]]];
        current := |turns| - 1;
      case Other(_) =>
        if current < 0 {
          preamble := preamble + [events[i]];
        } else {
          turns := turns[current := turns[current] + [events[i]]];
        }
    }
    assert events[..|events|] == events;
    result := preamble;
    for i := 0 to |turns|
      invariant result == preamble + Flat(turns[..i])
    {
      assert turns[..i + 1][..i] == turns[..i];
      result := result + turns[i];
    }
    assert turns[..|turns|] == turns;
  }

  // ----- what a ledger looks like ------------------------------------------------------------

  predicate Others(s: seq<Event>) { forall i | 0 <= i < |s| :: s[i].Other? }

  predicate Turn(t: seq<Event>) { t != [] && t[0].Prompt? && Others(t[1..]) }

  predicate WellFormed(l: Ledger) {
    Others(l.preamble) && forall i | 0 <= i < |l.turns| :: Turn(l.turns[i])
  }

  lemma {:induction false} RunWellFormed(l: Ledger, log: seq<Event>)
    requires WellFormed(l)
    ensures WellFormed(Run(l, log))
  {
    if log != [] {
      var n := |log| - 1;
      RunWellFormed(l, log[..n]);
      var before := Run(l, log[..n]);
      if log[n].Other? && before.turns != [] {
        var t := before.turns[|before.turns| - 1];
        assert (t + [log[n]])[1..] == t[1..] + [log[n]];
      }
    }
  }

  lemma {:induction false} RunConcat(l: Ledger, xs: seq<Event>, ys: seq<Event>)
    ensures Run(l, xs + ys) == Run(Run(l, xs), ys)
  {
    if ys == [] {
      assert xs + ys == xs;
    } else {
      assert (xs + ys)[..|xs + ys| - 1] == xs + ys[..|ys| - 1];
      RunConcat(l, xs, ys[..|ys| - 1]);
    }
  }

  lemma {:induction false} RunOthers(l: Ledger, s: seq<Event>)
    requires Others(s)
    ensures Run(l, s) == if l.turns == [] then l.(preamble := l.preamble + s)
                         else l.(turns := l.turns[|l.turns| - 1 := l.turns[|l.turns| - 1] + s])
  {
    if s == [] {
      assert l.preamble + s == l.preamble;
      if l.turns != [] {
        assert l.turns[|l.turns| - 1] + s == l.turns[|l.turns| - 1];
      }
    } else {
      var n := |s| - 1;
      RunOthers(l, s[..n]);
      assert s[n].Other?;
      assert l.preamble + s[..n] + [s[n]] == l.preamble + s;
      if l.turns != [] {
        assert l.turns[|l.turns| - 1] + s[..n] + [s[n]] == l.turns[|l.turns| - 1] + s;
      }
    }
  }

  lemma RunTurn(l: Ledger, t: seq<Event>)
    requires Turn(t)
    ensures Run(l, t) == l.(turns := l.turns + [t])
  {
    assert t == [t[0]] + t[1..];
    RunConcat(l, [t[0]], t[1..]);
    assert [t[0]][..0] == [];
    assert Run(l, [t[0]]) == Step(l, t[0]);
    RunOthers(Step(l, t[0]), t[1..]);
    assert [t[0]] + t[1..] == t;
  }

  /** Replaying a ledger's own events gives that ledger back. */
  lemma {:induction false} RunEvents(l: Ledger)
    requires WellFormed(l)
    ensures Run(EMPTY, Events(l)) == l
    decreases |l.turns|
  {
    if l.turns == [] {
      RunOthers(EMPTY, l.preamble);
      assert EMPTY.preamble + l.preamble == l.preamble;
      assert Events(l) == l.preamble;
    } else {
      var n := |l.turns| - 1;
      var front := l.(turns := l.turns[..n]);
      RunEvents(front);
      EventsSnoc(l);
      RunConcat(EMPTY, Events(front), l.turns[n]);
      RunTurn(front, l.turns[n]);
      Sequences.Snoc(l.turns);
    }
  }

  lemma EventsSnoc(l: Ledger)
    requires l.turns != []
    ensures Events(l) == Events(l.(turns := l.turns[..|l.turns| - 1])) + l.turns[|l.turns| - 1]
  {
    var n := |l.turns| - 1;
    Sequences.Assoc(l.preamble, Flat(l.turns[..n]), l.turns[n]);
  }

  /** A log may be compacted at any point before it grows further. */
  lemma DropCompacts(xs: seq<Event>, ys: seq<Event>)
    ensures Drop(xs + ys) == Drop(Drop(xs) + ys)
  {
    RunWellFormed(EMPTY, xs);
    RunEvents(Run(EMPTY, xs));
    RunConcat(EMPTY, xs, ys);
    RunConcat(EMPTY, Drop(xs), ys);
  }

  lemma DropIdempotent(xs: seq<Event>)
    ensures Drop(Drop(xs)) == Drop(xs)
  {
    DropCompacts(xs, []);
    assert xs + [] == xs && Drop(xs) + [] == Drop(xs);
  }

  // ----- which events survive ----------------------------------------------------------------

  /** The number of live turns, counted without keeping any. */
  function Live(log: seq<Event>): nat {
    if log == [] then 0
    else
      var before := Live(log[..|log| - 1]);
      match log[|log| - 1]
      case Marker(kept) => Keep(kept, before)
      case Prompt(_) => before + 1
      case Other(_) => before
  }

  /** Later markers all keep the event's turn; turn 0 is the preamble. */
  predicate Survives(log: seq<Event>, i: nat)
    requires i < |log|
  {
    !log[i].Marker? && forall j | i < j < |log| && log[j].Marker? :: KeepsTurn(log[j].kept, Live(log[..i + 1]))
  }

  predicate KeepsTurn(kept: int, turn: nat) { turn == 0 || turn <= kept }

  /** The surviving events among the first n, each with the turn it belongs to. */
  function Survivors(log: seq<Event>, n: nat): seq<(Event, nat)>
    requires n <= |log|
  {
    if n == 0 then []
    else Survivors(log, n - 1) + if Survives(log, n - 1) then [(log[n - 1], Live(log[..n]))] else []
  }

  function Tag(s: seq<Event>, turn: nat): (r: seq<(Event, nat)>)
    ensures |r| == |s|
    ensures forall i | 0 <= i < |s| :: r[i] == (s[i], turn)
  {
    seq(|s|, i requires 0 <= i < |s| => (s[i], turn))
  }

  function TagTurns(turns: seq<seq<Event>>): seq<(Event, nat)> {
    if turns == [] then [] else TagTurns(turns[..|turns| - 1]) + Tag(turns[|turns| - 1], |turns|)
  }

  function Tagged(l: Ledger): seq<(Event, nat)> { Tag(l.preamble, 0) + TagTurns(l.turns) }

  function Kept(ts: seq<(Event, nat)>, kept: int): seq<(Event, nat)> {
    if ts == [] then []
    else Kept(ts[..|ts| - 1], kept) + if KeepsTurn(kept, ts[|ts| - 1].1) then [ts[|ts| - 1]] else []
  }

  lemma {:induction false} KeptConcat(a: seq<(Event, nat)>, b: seq<(Event, nat)>, kept: int)
    ensures Kept(a + b, kept) == Kept(a, kept) + Kept(b, kept)
  {
    if b == [] {
      assert a + b == a;
    } else {
      assert (a + b)[..|a + b| - 1] == a + b[..|b| - 1];
      KeptConcat(a, b[..|b| - 1], kept);
    }
  }

  lemma {:induction false} KeptTag(s: seq<Event>, turn: nat, kept: int)
    ensures Kept(Tag(s, turn), kept) == if KeepsTurn(kept, turn) then Tag(s, turn) else []
  {
    if s != [] {
      var n := |s| - 1;
      assert Tag(s, turn)[..n] == Tag(s[..n], turn);
      KeptTag(s[..n], turn, kept);
    }
  }

  /** Truncating the stack keeps exactly the events whose turn the marker keeps. */
  lemma {:induction false} TruncateKeeps(turns: seq<seq<Event>>, kept: int)
    ensures TagTurns(turns[..Keep(kept, |turns|)]) == Kept(TagTurns(turns), kept)
  {
    if turns != [] {
      var n := |turns| - 1;
      TruncateKeeps(turns[..n], kept);
      KeptConcat(TagTurns(turns[..n]), Tag(turns[n], |turns|), kept);
      KeptTag(turns[n], |turns|, kept);
      if Keep(kept, |turns|) == |turns| {
        assert turns[..|turns|] == turns && turns[..n][..n] == turns[..n];
      } else {
        assert turns[..n][..Keep(kept, n)] == turns[..Keep(kept, |turns|)];
      }
    }
  }

  lemma {:induction false} SurvivorsSnoc(log: seq<Event>, e: Event, n: nat)
    requires n <= |log|
    ensures Survivors(log + [e], n) == if e.Marker? then Kept(Survivors(log, n), e.kept) else Survivors(log, n)
  {
    if n > 0 {
      SurvivorsSnoc(log, e, n - 1);
      assert (log + [e])[..n] == log[..n];
      SurvivesSnoc(log, e, n - 1);
      var one := (log[n - 1], Live(log[..n]));
      var before := Survivors(log, n - 1);
      assert (log + [e])[n - 1] == log[n - 1];
      if Survives(log, n - 1) {
        assert Survivors(log, n) == before + [one];
        assert e.Marker? ==> Kept(before + [one], e.kept)
                             == Kept(before, e.kept) + if KeepsTurn(e.kept, one.1) then [one] else [] by {
          assert (before + [one])[..|before|] == before;
        }
      } else {
        assert Survivors(log, n) == before;
      }
    }
  }

  lemma SurvivesSnoc(log: seq<Event>, e: Event, i: nat)
    requires i < |log|
    ensures Survives(log + [e], i) <==>
            Survives(log, i) && (e.Marker? ==> KeepsTurn(e.kept, Live(log[..i + 1])))
  {
    var longer := log + [e];
    assert longer[..i + 1] == log[..i + 1];
    assert forall j | 0 <= j < |log| :: longer[j] == log[j];
    assert longer[|log|] == e;
  }

  lemma {:induction false} LedgerIsSurvivors(log: seq<Event>)
    ensures Tagged(Run(EMPTY, log)) == Survivors(log, |log|)
    ensures |Run(EMPTY, log).turns| == Live(log)
  {
    if log != [] {
      var n := |log| - 1;
      var front, e := log[..n], log[n];
      LedgerIsSurvivors(front);
      var l := Run(EMPTY, front);
      LastSurvives(front, e);
      Sequences.Snoc(log);
      if e.Marker? { TaggedMarker(l, e.kept); } else { TaggedStep(l, e); }
    }
  }

  /** The survivors after one more event. */
  lemma LastSurvives(front: seq<Event>, e: Event)
    ensures var n := |front|;
            Survivors(front + [e], n + 1) ==
            if e.Marker? then Kept(Survivors(front, n), e.kept)
            else Survivors(front, n) + [(e, Live(front + [e]))]
  {
    var n, log := |front|, front + [e];
    SurvivorsSnoc(front, e, n);
    NewestSurvives(front, e);
    var one := if e.Marker? then [] else [(e, Live(log))];
    assert Survivors(log, n + 1) == Survivors(log, n) + one;
    Sequences.EmptyRight(Survivors(log, n));
  }

  lemma NewestSurvives(front: seq<Event>, e: Event)
    ensures var n, log := |front|, front + [e];
            log[n] == e && log[..n + 1] == log && (Survives(log, n) <==> !e.Marker?)
  {
  }

  lemma TaggedMarker(l: Ledger, kept: int)
    ensures Tagged(Step(l, Marker(kept))) == Kept(Tagged(l), kept)
  {
    KeptConcat(Tag(l.preamble, 0), TagTurns(l.turns), kept);
    KeptTag(l.preamble, 0, kept);
    TruncateKeeps(l.turns, kept);
  }

  lemma TaggedStep(l: Ledger, e: Event)
    requires !e.Marker?
    ensures Tagged(Step(l, e)) == Tagged(l) + [(e, |Step(l, e).turns|)]
  {
    var after := Step(l, e);
    if e.Prompt? {
      assert after.turns[..|l.turns|] == l.turns;
      assert Tag([e], |l.turns| + 1) == [(e, |l.turns| + 1)];
    } else if l.turns == [] {
      assert Tag(l.preamble + [e], 0) == Tag(l.preamble, 0) + [(e, 0)];
    } else {
      var n := |l.turns| - 1;
      assert after.turns[..n] == l.turns[..n];
      assert Tag(l.turns[n] + [e], n + 1) == Tag(l.turns[n], n + 1) + [(e, n + 1)];
    }
  }

  function Untag(ts: seq<(Event, nat)>): (r: seq<Event>)
    ensures |r| == |ts|
    ensures forall i | 0 <= i < |ts| :: r[i] == ts[i].0
  {
    seq(|ts|, i requires 0 <= i < |ts| => ts[i].0)
  }

  lemma {:induction false} UntagTurns(turns: seq<seq<Event>>)
    ensures Untag(TagTurns(turns)) == Flat(turns)
  {
    if turns != [] {
      var n := |turns| - 1;
      UntagTurns(turns[..n]);
      assert Untag(TagTurns(turns)) == Untag(TagTurns(turns[..n])) + Untag(Tag(turns[n], |turns|));
      assert Untag(Tag(turns[n], |turns|)) == turns[n];
    }
  }

  /** The reader's result, without any stack: the log's events, in their order, whose turn
      every later marker keeps.  So no marker survives and nothing is added or reordered. */
  lemma DropIsSurvivors(log: seq<Event>)
    ensures Drop(log) == Untag(Survivors(log, |log|))
  {
    LedgerIsSurvivors(log);
    var l := Run(EMPTY, log);
    UntagTurns(l.turns);
    assert Untag(Tagged(l)) == Untag(Tag(l.preamble, 0)) + Untag(TagTurns(l.turns));
    assert Untag(Tag(l.preamble, 0)) == l.preamble;
  }

  // ----- nested rewinds ------------------------------------------------------------------------

  predicate Above(ys: seq<Event>, kept: int) {
    forall i | 0 <= i < |ys| && ys[i].Marker? :: ys[i].kept > kept
  }

  /** Turns up to b are out of reach of everything that keeps more than b. */
  lemma {:induction false} BelowUntouched(l: Ledger, ys: seq<Event>, b: nat)
    requires b < |l.turns| && Above(ys, b)
    ensures var after := Run(l, ys);
            b < |after.turns| && after.turns[..b] == l.turns[..b] && after.preamble == l.preamble
  {
    if ys != [] {
      var n := |ys| - 1;
      BelowUntouched(l, ys[..n], b);
      assert ys[n].Marker? ==> ys[n].kept > b;
      var before := Run(l, ys[..n]);
      assert Run(l, ys).turns[..b] == before.turns[..b];
    }
  }

  /** A rewind to b makes everything since an earlier, longer rewind irrelevant. */
  lemma NestedRewinds(xs: seq<Event>, a: int, ys: seq<Event>, b: nat)
    requires b < Keep(a, Live(xs)) && Above(ys, b)
    ensures Drop(xs + [Marker(a)] + ys + [Marker(b)]) == Drop(xs + [Marker(b)])
  {
    LedgerIsSurvivors(xs);
    var l := Run(EMPTY, xs);
    var zs := [Marker(a)] + ys;
    assert xs + [Marker(a)] + ys + [Marker(b)] == xs + zs + [Marker(b)];
    BelowUntouched(l, zs, b);
    RunConcat(EMPTY, xs, zs);
    assert (xs + zs + [Marker(b)])[..|xs + zs|] == xs + zs;
    assert (xs + [Marker(b)])[..|xs|] == xs;
  }
}
