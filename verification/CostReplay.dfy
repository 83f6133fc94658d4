/** Summing the cost of earlier provider responses from an event log, and the running session
    total (kernel/cost.py, kernel/events.py). */
module CostReplay {
  import opened Collections
  import Sequences

  /** One usage record; the provider may have reported its cost. */
  datatype Usage = Usage(input: int, output: int, cacheRead: int, cacheWrite: int,
                         reported: Option<real>, model: string)

  /** A pricing table's figure for a usage; None when the model is unknown. */
  type Table = Usage -> Option<real>

  /** A reported cost is authoritative over the table. */
  function CostOf(u: Usage, table: Table): Option<real> {
    if u.reported.Some? then u.reported else table(u)
  }

  /** One log line, as far as the replay looks at it. */
  datatype Line =
    | Unrelated                       // names neither kind, is of another kind, or is a malformed block
    | Garbled                         // names a kind but is no JSON object
    | Record(usage: Usage)
    | BadRecord
    | Block(total: int, index: int, carried: Option<Usage>)

  predicate Final(total: int, index: int) { total <= 0 || index == total - 1 }

  /** The usage a content block stands for: only the final block of a response has one. */
  function UsageFromBlock(b: Line): (u: Option<Usage>)
    requires b.Block?
    ensures u.Some? <==> b.carried.Some? && Final(b.total, b.index)
    ensures u.Some? ==> u == b.carried
  {
    if b.carried == None || (b.total > 0 && b.index != b.total - 1) then None else b.carried
  }

  // ----- the replay --------------------------------------------------------------------------------

  datatype State = State(total: Option<real>, pending: Option<Usage>)

  const START := State(None, None)

  function Add(total: Option<real>, u: Usage, table: Table): Option<real> {
    match CostOf(u, table)
    case None => total
    case Some(c) => Some((if total.Some? then total.value else 0.0) + c)
  }

  function Flushed(s: State, table: Table): State {
    if s.pending.Some? then State(Add(s.total, s.pending.value, table), None) else s
  }

  function Step(s: State, line: Line, table: Table): State {
    match line
    case Unrelated => Flushed(s, table)
    case Garbled => s
    case Record(u) => Flushed(s, table).(pending := Some(u))
    case BadRecord => Flushed(s, table)
    case Block(total, index, carried) =>
      if carried == None then Flushed(s, table)
      else
        var u := if s.pending.Some? then s.pending else UsageFromBlock(line);
        if Final(total, index) && u.Some? then State(Add(s.total, u.value, table), None)
        else s.(pending := None)
  }

  function Run(s: State, lines: seq<Line>, table: Table): State {
    if lines == [] then s else Step(Run(s, lines[..|lines| - 1], table), lines[|lines| - 1], table)
  }

  function Sum(lines: seq<Line>, table: Table): Option<real> { Flushed(Run(START, lines, table), table).total }

  /** The log file, or None when it is missing or unreadable. */
  method SumPriorCost(log: Option<seq<Line>>, table: Table) returns (total: Option<real>)
    ensures total == if log == None then None else Sum(log.value, table)
  {
    total := None;
    if log == None { return; }
    var lines := log.value;
    var pending: Option<Usage> := None;
    for i := 0 to |lines|
      invariant State(total, pending) == Run(START, lines[..i], table)
    {
      assert lines[..i + 1][..i] == lines[..i];
      match lines[i]
      case Unrelated =>
        if pending.Some? { total := Add(total, pending.value, table); pending := None; }
      case Garbled =>
      case Record(u) =>
        if pending.Some? { total := Add(total, pending.value, table); }
        pending := Some(u);
      case BadRecord =>
        if pending.Some? { total := Add(total, pending.value, table); }
        pending := None;
      case Block(n, index, carried) =>
        var final := n <= 0 || index == n - 1;
        if carried.Some? {
          var usage := if pending.Some? then pending else UsageFromBlock(lines[i]);
          if final && usage.Some? { total := Add(total, usage.value, table); }
        } else if pending.Some? {
          total := Add(total, pending.value, table);
        }
        pending := None;
    }
    assert lines[..|lines|] == lines;
    if pending.Some? { total := Add(total, pending.value, table); }
  }

  // ----- logs as the app's versions wrote them --------------------------------------------------------

  /** One content block, with the lines between it and what precedes it that are no usage data. */
  datatype Part = Part(noise: seq<Line>, carried: Option<Usage>)

  /** The historical shapes of one response: the same record before every block, a record before
      the final block only, usage on blocks only, or a record by itself. */
  datatype Response =
    | EveryBlock(usage: Usage, total: int, parts: seq<Part>)
    | FinalBlock(usage: Usage, total: int, parts: seq<Part>)
    | BlocksOnly(total: int, parts: seq<Part>)
    | Standalone(noise: seq<Line>, usage: Usage)

  predicate Noise(lines: seq<Line>) {
    forall i | 0 <= i < |lines| :: lines[i].Unrelated? || lines[i].Garbled? || lines[i].BadRecord?
  }

  /** A single block may leave its total out. */
  predicate Shaped(r: Response) {
    if r.Standalone? then Noise(r.noise)
    else
      && |r.parts| > 0 && (r.total == |r.parts| || (r.total <= 0 && |r.parts| == 1))
      && (forall i | 0 <= i < |r.parts| :: Noise(r.parts[i].noise))
      && (r.EveryBlock? ==> forall i | 0 <= i < |r.parts| :: r.parts[i].carried.Some?)
      && (r.BlocksOnly? ==> r.parts[|r.parts| - 1].carried.Some?)
  }

  /** Whether a record precedes the i-th block. */
  predicate Recorded(r: Response, i: int)
    requires !r.Standalone?
  {
    r.EveryBlock? || (r.FinalBlock? && i == |r.parts| - 1)
  }

  function PartLines(r: Response, i: nat): seq<Line>
    requires !r.Standalone? && i < |r.parts|
  {
    r.parts[i].noise
    + (if Recorded(r, i) then [Record(r.usage)] else [])
    + [Block(r.total, i, r.parts[i].carried)]
  }

  /** The lines of the blocks before the n-th. */
  function Lines(r: Response, n: nat): seq<Line>
    requires !r.Standalone? && n <= |r.parts|
  {
    if n == 0 then [] else Lines(r, n - 1) + PartLines(r, n - 1)
  }

  function Written(r: Response): seq<Line> {
    if r.Standalone? then r.noise + [Record(r.usage)] else Lines(r, |r.parts|)
  }

  function Log(rs: seq<Response>): seq<Line> {
    if rs == [] then [] else Log(rs[..|rs| - 1]) + Written(rs[|rs| - 1])
  }

  /** What the response should be charged for. */
  function Charge(r: Response): Usage
    requires Shaped(r)
  {
    if r.BlocksOnly? then r.parts[|r.parts| - 1].carried.value else r.usage
  }

  predicate Silent(lines: seq<Line>) { forall i | 0 <= i < |lines| :: lines[i].Garbled? }

  /** The response opens with a block that carries usage and has no record of its own before it,
      with nothing but garbled lines in front. */
  predicate OpensBare(r: Response)
    requires Shaped(r)
  {
    !r.Standalone? && !Recorded(r, 0) && r.parts[0].carried.Some? && Silent(r.parts[0].noise)
  }

  /** What is charged when the response follows a standalone record directly: a bare usage-bearing
      block takes that record for its own.  If it is its response's only block, the response's
      charge is replaced; if more blocks follow, the standalone record is dropped. */
  function Counted(rs: seq<Response>): (us: seq<Usage>)
    requires forall i | 0 <= i < |rs| :: Shaped(rs[i])
    ensures |us| <= |rs|
  {
    if rs == [] then []
    else
      var n := |rs| - 1;
      if n > 0 && rs[n - 1].Standalone? && OpensBare(rs[n]) then
        if |rs[n].parts| == 1 then Counted(rs[..n])
        else Counted(rs[..n - 1]) + [Charge(rs[n])]
      else Counted(rs[..n]) + [Charge(rs[n])]
  }

  function Charges(rs: seq<Response>): (us: seq<Usage>)
    requires forall i | 0 <= i < |rs| :: Shaped(rs[i])
    ensures |us| == |rs|
  {
    if rs == [] then [] else Charges(rs[..|rs| - 1]) + [Charge(rs[|rs| - 1])]
  }

  function Total(us: seq<Usage>, table: Table): Option<real> {
    if us == [] then None else Add(Total(us[..|us| - 1], table), us[|us| - 1], table)
  }

  // ----- what the replay does with them ------------------------------------------------------------------

  lemma {:induction false} RunConcat(s: State, a: seq<Line>, b: seq<Line>, table: Table)
    ensures Run(s, a + b, table) == Run(Run(s, a, table), b, table)
  {
    if b == [] {
      assert a + b == a;
    } else {
      Sequences.Front(a, b);
      RunConcat(s, a, b[..|b| - 1], table);
    }
  }

  lemma {:induction false} RunNoise(s: State, lines: seq<Line>, table: Table)
    requires Noise(lines)
    ensures Run(s, lines, table) == if Silent(lines) then s else Flushed(s, table)
  {
    if lines != [] {
      RunNoise(s, lines[..|lines| - 1], table);
    }
  }

  lemma RunOne(s: State, line: Line, table: Table)
    ensures Run(s, [line], table) == Step(s, line, table)
  {
    assert [line][..0] == [];
  }

  /** The lines of one block: noise, its record if it has one, the block. */
  lemma RunPart(s: State, r: Response, i: nat, table: Table)
    requires !r.Standalone? && i < |r.parts|
    ensures var block := Block(r.total, i, r.parts[i].carried);
            var quiet := Run(s, r.parts[i].noise, table);
            Run(s, PartLines(r, i), table) ==
            Step(if Recorded(r, i) then Step(quiet, Record(r.usage), table) else quiet, block, table)
  {
    var noise, block := r.parts[i].noise, Block(r.total, i, r.parts[i].carried);
    var record := if Recorded(r, i) then [Record(r.usage)] else [];
    RunConcat(s, noise + record, [block], table);
    RunConcat(s, noise, record, table);
    RunOne(Run(s, noise + record, table), block, table);
    if Recorded(r, i) { RunOne(Run(s, noise, table), Record(r.usage), table); }
  }

  /** With nothing pending, a block adds the charge if it is the last one, and nothing otherwise. */
  lemma RunPartAlone(s: State, r: Response, i: nat, table: Table)
    requires Shaped(r) && !r.Standalone? && i < |r.parts| && s.pending == None
    ensures Run(s, PartLines(r, i), table) ==
            if i == |r.parts| - 1 then State(Add(s.total, Charge(r), table), None) else s
  {
    RunPart(s, r, i, table);
    RunNoise(s, r.parts[i].noise, table);
    assert Flushed(s, table) == s;
    BlockAlone(s, r, i, table);
  }

  lemma BlockAlone(s: State, r: Response, i: nat, table: Table)
    requires Shaped(r) && !r.Standalone? && i < |r.parts| && s.pending == None
    ensures Step(if Recorded(r, i) then Step(s, Record(r.usage), table) else s,
                 Block(r.total, i, r.parts[i].carried), table)
            == if i == |r.parts| - 1 then State(Add(s.total, Charge(r), table), None) else s
  {
  }

  /** With nothing pending, the blocks before the last add nothing and the last adds the charge. */
  lemma {:induction false} RunBlocks(s: State, r: Response, from: nat, n: nat, table: Table)
    requires Shaped(r) && !r.Standalone? && from <= n <= |r.parts| && s.pending == None
    ensures Run(s, Between(r, from, n), table) ==
            if from < n == |r.parts| then State(Add(s.total, Charge(r), table), None) else s
  {
    if from < n {
      RunBlocks(s, r, from, n - 1, table);
      RunConcat(s, Between(r, from, n - 1), PartLines(r, n - 1), table);
      RunPartAlone(s, r, n - 1, table);
    }
  }

  function Between(r: Response, from: nat, n: nat): seq<Line>
    requires !r.Standalone? && from <= n <= |r.parts|
  {
    if from == n then [] else Between(r, from, n - 1) + PartLines(r, n - 1)
  }

  lemma {:induction false} LinesSplit(r: Response, n: nat)
    requires !r.Standalone? && 0 < n <= |r.parts|
    ensures Lines(r, n) == PartLines(r, 0) + Between(r, 1, n)
  {
    if n == 1 {
      assert Lines(r, 1) == [] + PartLines(r, 0);
    } else {
      LinesSplit(r, n - 1);
      Sequences.Assoc(PartLines(r, 0), Between(r, 1, n - 1), PartLines(r, n - 1));
    }
  }

  /** One whole response, whatever is pending before it. */
  lemma RunResponse(s: State, r: Response, table: Table)
    requires Shaped(r)
    ensures Run(s, Written(r), table) == Outcome(s, r, table)
  {
    if r.Standalone? {
      RunConcat(s, r.noise, [Record(r.usage)], table);
      RunNoise(s, r.noise, table);
      RunOne(Run(s, r.noise, table), Record(r.usage), table);
    } else {
      var first := Run(s, PartLines(r, 0), table);
      LinesSplit(r, |r.parts|);
      RunConcat(s, PartLines(r, 0), Between(r, 1, |r.parts|), table);
      FirstPart(s, r, table);
      RunBlocks(first, r, 1, |r.parts|, table);
    }
  }

  function Outcome(s: State, r: Response, table: Table): State
    requires Shaped(r)
  {
    if r.Standalone? then Flushed(s, table).(pending := Some(r.usage))
    else if s.pending.Some? && OpensBare(r) then
      if |r.parts| == 1 then Flushed(s, table) else State(Add(s.total, Charge(r), table), None)
    else State(Add(Flushed(s, table).total, Charge(r), table), None)
  }

  /** The first block. */
  lemma FirstPart(s: State, r: Response, table: Table)
    requires Shaped(r) && !r.Standalone?
    ensures Run(s, PartLines(r, 0), table) ==
            if s.pending.Some? && OpensBare(r) then
              if |r.parts| == 1 then Flushed(s, table) else s.(pending := None)
            else if |r.parts| == 1 then State(Add(Flushed(s, table).total, Charge(r), table), None)
            else Flushed(s, table)
  {
    RunPart(s, r, 0, table);
    RunNoise(s, r.parts[0].noise, table);
    var quiet := Run(s, r.parts[0].noise, table);
    if Recorded(r, 0) { FirstRecorded(quiet, r, table); } else { FirstBare(quiet, r, table); }
  }

  /** The first block after its own record. */
  lemma FirstRecorded(s: State, r: Response, table: Table)
    requires Shaped(r) && !r.Standalone? && Recorded(r, 0)
    ensures Step(Step(s, Record(r.usage), table), Block(r.total, 0, r.parts[0].carried), table) ==
            if |r.parts| == 1 then State(Add(Flushed(s, table).total, Charge(r), table), None) else Flushed(s, table)
  {
  }

  /** The first block with nothing of its own before it. */
  lemma FirstBare(s: State, r: Response, table: Table)
    requires Shaped(r) && !r.Standalone? && !Recorded(r, 0)
    ensures Step(s, Block(r.total, 0, r.parts[0].carried), table) ==
            if r.parts[0].carried == None then Flushed(s, table)
            else if |r.parts| > 1 then s.(pending := None)
            else if s.pending.Some? then Flushed(s, table)
            else State(Add(s.total, Charge(r), table), None)
  {
  }

  lemma {:induction false} CountedLast(rs: seq<Response>)
    requires rs != [] && forall i | 0 <= i < |rs| :: Shaped(rs[i])
    ensures rs[|rs| - 1].Standalone? ==> Counted(rs) == Counted(rs[..|rs| - 1]) + [rs[|rs| - 1].usage]
  {
  }

  /** The replay's state after these responses: all counted, a last standalone record still pending. */
  function Replayed(rs: seq<Response>, table: Table): State
    requires forall i | 0 <= i < |rs| :: Shaped(rs[i])
  {
    if rs != [] && rs[|rs| - 1].Standalone? then
      State(Total(Counted(rs[..|rs| - 1]), table), Some(rs[|rs| - 1].usage))
    else State(Total(Counted(rs), table), None)
  }

  lemma TotalLast(us: seq<Usage>, u: Usage, table: Table)
    ensures Total(us + [u], table) == Add(Total(us, table), u, table)
  {
    Sequences.Appended(us, u);
  }

  lemma ReplayedFlushed(rs: seq<Response>, table: Table)
    requires forall i | 0 <= i < |rs| :: Shaped(rs[i])
    ensures Flushed(Replayed(rs, table), table) == State(Total(Counted(rs), table), None)
  {
    if rs != [] && rs[|rs| - 1].Standalone? {
      CountedLast(rs);
      TotalLast(Counted(rs[..|rs| - 1]), rs[|rs| - 1].usage, table);
    }
  }

  lemma ReplayedStep(rs: seq<Response>, table: Table)
    requires rs != [] && forall i | 0 <= i < |rs| :: Shaped(rs[i])
    ensures Outcome(Replayed(rs[..|rs| - 1], table), rs[|rs| - 1], table) == Replayed(rs, table)
  {
    var n := |rs| - 1;
    var front, r := rs[..n], rs[n];
    ReplayedFlushed(front, table);
    if n > 0 && rs[n - 1].Standalone? && OpensBare(r) {
      SwallowedStep(rs, table);
    } else {
      TotalLast(Counted(front), Charge(r), table);
    }
  }

  lemma SwallowedStep(rs: seq<Response>, table: Table)
    requires |rs| > 1 && forall i | 0 <= i < |rs| :: Shaped(rs[i])
    requires rs[|rs| - 2].Standalone? && OpensBare(rs[|rs| - 1])
    ensures Outcome(Replayed(rs[..|rs| - 1], table), rs[|rs| - 1], table) == Replayed(rs, table)
  {
    var n := |rs| - 1;
    var front, r := rs[..n], rs[n];
    ReplayedFlushed(front, table);
    assert front[..n - 1] == rs[..n - 1];
    TotalLast(Counted(rs[..n - 1]), Charge(r), table);
  }

  /** For every concatenation of responses: the replay charges exactly the counted usages. */
  lemma {:induction false} ReplayCounts(rs: seq<Response>, table: Table)
    requires forall i | 0 <= i < |rs| :: Shaped(rs[i])
    ensures Run(START, Log(rs), table) == Replayed(rs, table)
    ensures Sum(Log(rs), table) == Total(Counted(rs), table)
  {
    ReplayedFlushed(rs, table);
    if rs != [] {
      ReplayCounts(rs[..|rs| - 1], table);
      ReplayLast(rs, table);
    }
  }

  lemma ReplayLast(rs: seq<Response>, table: Table)
    requires rs != [] && forall i | 0 <= i < |rs| :: Shaped(rs[i])
    requires Run(START, Log(rs[..|rs| - 1]), table) == Replayed(rs[..|rs| - 1], table)
    ensures Run(START, Log(rs), table) == Replayed(rs, table)
  {
    var front, r := rs[..|rs| - 1], rs[|rs| - 1];
    RunConcat(START, Log(front), Written(r), table);
    RunResponse(Replayed(front, table), r, table);
    ReplayedStep(rs, table);
  }

  // ----- when that is every response once ------------------------------------------------------------------

  function Value(t: Option<real>): real { if t.Some? then t.value else 0.0 }

  function Worth(u: Usage, table: Table): real { Value(CostOf(u, table)) }

  /** The cost the replay misses: per standalone record directly followed by a bare usage-bearing
      block, the charge of a single-block response, or else of the standalone record. */
  function Missed(rs: seq<Response>, table: Table): real
    requires forall i | 0 <= i < |rs| :: Shaped(rs[i])
  {
    if rs == [] then 0.0
    else
      var n := |rs| - 1;
      Missed(rs[..n], table)
      + if n > 0 && rs[n - 1].Standalone? && OpensBare(rs[n])
        then Worth(if |rs[n].parts| == 1 then Charge(rs[n]) else rs[n - 1].usage, table) else 0.0
  }

  /** There is a total unless nothing could be priced. */
  lemma {:induction false} NothingPriced(us: seq<Usage>, table: Table)
    ensures Total(us, table) == None <==> forall u | u in us :: u.reported == None && table(u) == None
  {
    if us != [] {
      NothingPriced(us[..|us| - 1], table);
      Sequences.Snoc(us);
    }
  }

  lemma TotalSnoc(us: seq<Usage>, u: Usage, table: Table)
    ensures Value(Total(us + [u], table)) == Value(Total(us, table)) + Worth(u, table)
  {
    Sequences.Appended(us, u);
  }

  /** Each response's cost is in the restored total once, except exactly for what is missed. */
  lemma {:induction false} ChargedOnce(rs: seq<Response>, table: Table)
    requires forall i | 0 <= i < |rs| :: Shaped(rs[i])
    ensures Value(Sum(Log(rs), table)) == Value(Total(Charges(rs), table)) - Missed(rs, table)
  {
    ReplayCounts(rs, table);
    CountedMissed(rs, table);
  }

  lemma {:induction false} CountedMissed(rs: seq<Response>, table: Table)
    requires forall i | 0 <= i < |rs| :: Shaped(rs[i])
    ensures Value(Total(Counted(rs), table)) == Value(Total(Charges(rs), table)) - Missed(rs, table)
  {
    if rs != [] {
      var n := |rs| - 1;
      CountedMissed(rs[..n], table);
      TotalSnoc(Charges(rs[..n]), Charge(rs[n]), table);
      CountedChange(rs, table);
    }
  }

  /** What the last response changes in the counted total. */
  lemma CountedChange(rs: seq<Response>, table: Table)
    requires rs != [] && forall i | 0 <= i < |rs| :: Shaped(rs[i])
    ensures var n := |rs| - 1;
            Value(Total(Counted(rs), table)) - Value(Total(Counted(rs[..n]), table)) ==
            Worth(Charge(rs[n]), table)
            - if n > 0 && rs[n - 1].Standalone? && OpensBare(rs[n])
              then Worth(if |rs[n].parts| == 1 then Charge(rs[n]) else rs[n - 1].usage, table) else 0.0
  {
    var n := |rs| - 1;
    TotalSnoc(Counted(rs[..n]), Charge(rs[n]), table);
    if n > 0 && rs[n - 1].Standalone? && OpensBare(rs[n]) && |rs[n].parts| != 1 {
      CountedStandalone(rs, table);
      TotalSnoc(Counted(rs[..n - 1]), Charge(rs[n]), table);
    }
  }

  lemma CountedStandalone(rs: seq<Response>, table: Table)
    requires |rs| > 1 && forall i | 0 <= i < |rs| :: Shaped(rs[i])
    requires rs[|rs| - 2].Standalone?
    ensures var n := |rs| - 1;
            Value(Total(Counted(rs[..n]), table))
            == Value(Total(Counted(rs[..n - 1]), table)) + Worth(rs[n - 1].usage, table)
  {
    var n := |rs| - 1;
    CountedLast(rs[..n]);
    assert rs[..n][..n - 1] == rs[..n - 1];
    TotalSnoc(Counted(rs[..n - 1]), rs[n - 1].usage, table);
  }

  predicate Swallows(rs: seq<Response>, i: nat)
    requires 0 < i < |rs| && Shaped(rs[i])
  {
    rs[i - 1].Standalone? && OpensBare(rs[i])
  }

  /** Every response is charged, once and in order, exactly when no standalone record is directly
      followed by a bare usage-bearing block. */
  lemma EachOnce(rs: seq<Response>, table: Table)
    requires forall i | 0 <= i < |rs| :: Shaped(rs[i])
    ensures Counted(rs) == Charges(rs) <==> forall i | 0 < i < |rs| :: !Swallows(rs, i)
    ensures Counted(rs) == Charges(rs) ==> Sum(Log(rs), table) == Total(Charges(rs), table)
  {
    ReplayCounts(rs, table);
    if i :| 0 < i < |rs| && Swallows(rs, i) {
      SwallowShortens(rs, i);
    } else {
      NoneSwallowed(rs);
    }
  }

  /** A swallowed record leaves fewer usages than responses. */
  lemma {:induction false} SwallowShortens(rs: seq<Response>, i: nat)
    requires forall j | 0 <= j < |rs| :: Shaped(rs[j])
    requires 0 < i < |rs| && Swallows(rs, i)
    ensures |Counted(rs)| < |rs|
  {
    var n := |rs| - 1;
    if i < n {
      SameSwallow(rs, n, i);
      SwallowShortens(rs[..n], i);
    }
  }

  lemma {:induction false} NoneSwallowed(rs: seq<Response>)
    requires forall i | 0 <= i < |rs| :: Shaped(rs[i])
    requires forall i | 0 < i < |rs| :: !Swallows(rs, i)
    ensures Counted(rs) == Charges(rs)
  {
    if rs != [] {
      var n := |rs| - 1;
      var front := rs[..n];
      forall i | 0 < i < |front| ensures !Swallows(front, i) { SameSwallow(rs, n, i); }
      NoneSwallowed(front);
      if n > 0 { NotSwallowed(rs, n); }
    }
  }

  lemma SameSwallow(rs: seq<Response>, n: nat, i: nat)
    requires 0 < i < n <= |rs| && Shaped(rs[i])
    ensures Swallows(rs[..n], i) == Swallows(rs, i)
  {
  }

  lemma NotSwallowed(rs: seq<Response>, n: nat)
    requires n == |rs| - 1 && n > 0 && forall i | 0 <= i < |rs| :: Shaped(rs[i])
    requires !Swallows(rs, n)
    ensures Counted(rs) == Counted(rs[..n]) + [Charge(rs[n])]
  {
  }

  // ----- the running total ---------------------------------------------------------------------------------

  /** Usage of the turn under way. */
  datatype Turn = Turn(cost: real, input: int, output: int, cacheRead: int, cacheWrite: int, unpriced: nat)

  const FRESH_TURN := Turn(0.0, 0, 0, 0, 0, 0)

  class CostTracker {
    const table: Table
    var unpriced: nat
    var sessionCost: real
    var turn: Turn

    constructor (table: Table)
      ensures this.table == table && sessionCost == 0.0 && unpriced == 0 && turn == FRESH_TURN
    {
      this.table := table;
      unpriced, sessionCost, turn := 0, 0.0, FRESH_TURN;
    }

    method Seed(prior: real)
      modifies `sessionCost
      ensures sessionCost == old(sessionCost) + if prior > 0.0 then prior else 0.0
    {
      if prior > 0.0 { sessionCost := sessionCost + prior; }
    }

    method StartTurn()
      modifies `turn
      ensures turn == FRESH_TURN
    {
      turn := FRESH_TURN;
    }

    method EndTurn() returns (finished: Turn)
      modifies `turn
      ensures finished == old(turn) && turn == FRESH_TURN
    {
      finished := turn;
      turn := FRESH_TURN;
    }

    /** An unpriceable record costs nothing but is counted. */
    method RecordUsage(usage: Usage) returns (cost: real)
      modifies this
      ensures cost == Worth(usage, table)
      ensures usage.reported.Some? ==> cost == usage.reported.value && unpriced == old(unpriced)
      ensures usage.reported == None && table(usage).Some? ==> cost == table(usage).value && unpriced == old(unpriced)
      ensures usage.reported == None && table(usage) == None ==> cost == 0.0 && unpriced == old(unpriced) + 1
      ensures sessionCost == old(sessionCost) + cost
      ensures turn.cost == old(turn).cost + cost
      ensures turn.input == old(turn).input + usage.input && turn.output == old(turn).output + usage.output
      ensures turn.cacheRead == old(turn).cacheRead + usage.cacheRead
      ensures turn.cacheWrite == old(turn).cacheWrite + usage.cacheWrite
      ensures var missing := if CostOf(usage, table) == None then 1 else 0;
              unpriced == old(unpriced) + missing && turn.unpriced == old(turn).unpriced + missing
    {
      var priced := CostOf(usage, table);
      cost := Value(priced);
      var missing := 0;
      if priced == None {
        unpriced := unpriced + 1;
        missing := 1;
      }
      sessionCost := sessionCost + cost;
      turn := Turn(turn.cost + cost, turn.input + usage.input, turn.output + usage.output,
                   turn.cacheRead + usage.cacheRead, turn.cacheWrite + usage.cacheWrite, turn.unpriced + missing);
    }
  }

  /** The live run: every response recorded as it ends. */
  method LiveSession(rs: seq<Response>, table: Table) returns (tracker: CostTracker)
    requires forall i | 0 <= i < |rs| :: Shaped(rs[i])
    ensures fresh(tracker) && tracker.table == table
    ensures tracker.sessionCost == Value(Total(Charges(rs), table))
  {
    tracker := new CostTracker(table);
    for i := 0 to |rs|
      invariant fresh(tracker) && tracker.table == table
      invariant tracker.sessionCost == Value(Total(Charges(rs[..i]), table))
    {
      assert rs[..i + 1][..i] == rs[..i];
      TotalSnoc(Charges(rs[..i]), Charge(rs[i]), table);
      var cost := tracker.RecordUsage(Charge(rs[i]));
    }
    assert rs[..|rs|] == rs;
  }

  function SumFiles(logs: seq<Option<seq<Line>>>, table: Table): Option<real> {
    if logs == [] then None
    else
      var before := SumFiles(logs[..|logs| - 1], table);
      var log := logs[|logs| - 1];
      var one := if log == None then None else Sum(log.value, table);
      if one == None then before else Some(Value(before) + one.value)
  }

  /** Seed a tracker with everything the log files hold, if that is more than nothing. */
  method RestoreSessionCost(tracker: CostTracker, logs: seq<Option<seq<Line>>>) returns (prior: Option<real>)
    modifies tracker
    ensures var sum := SumFiles(logs, tracker.table);
            prior == if sum.Some? && sum.value > 0.0 then sum else None
    ensures tracker.sessionCost == old(tracker.sessionCost) + Value(prior)
  {
    prior := None;
    for i := 0 to |logs|
      invariant prior == SumFiles(logs[..i], tracker.table)
      invariant unchanged(tracker)
    {
      assert logs[..i + 1][..i] == logs[..i];
      var total := SumPriorCost(logs[i], tracker.table);
      if total.Some? { prior := Some(Value(prior) + total.value); }
    }
    assert logs[..|logs|] == logs;
    if prior == None || prior.value <= 0.0 { return None; }
    tracker.Seed(prior.value);
  }

  /** A resumed session, with its history split over two files between any two responses, shows
      what the live one showed, less what the replay misses. */
  method ResumedSession(older: seq<Response>, newer: seq<Response>, table: Table) returns (tracker: CostTracker)
    requires forall i | 0 <= i < |older| :: Shaped(older[i])
    requires forall i | 0 <= i < |newer| :: Shaped(newer[i])
    ensures var live := Value(Total(Charges(older), table)) + Value(Total(Charges(newer), table));
            var seen := live - Missed(older, table) - Missed(newer, table);
            tracker.sessionCost == if seen > 0.0 then seen else 0.0
  {
    tracker := new CostTracker(table);
    ChargedOnce(older, table);
    ChargedOnce(newer, table);
    TwoFiles(Log(older), Log(newer), table);
    var prior := RestoreSessionCost(tracker, [Some(Log(older)), Some(Log(newer))]);
  }

  lemma TwoFiles(a: seq<Line>, b: seq<Line>, table: Table)
    ensures Value(SumFiles([Some(a), Some(b)], table)) == Value(Sum(a, table)) + Value(Sum(b, table))
  {
    var logs := [Some(a), Some(b)];
    assert logs[..1] == [Some(a)] && [Some(a)][..0] == [];
    assert SumFiles([], table) == None;
    assert Value(SumFiles([Some(a)], table)) == Value(Sum(a, table));
  }
}
