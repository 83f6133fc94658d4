/** Several processes claiming and acknowledging attention events in one durable file, under
    an exclusive-create lock marker (kernel/attention_store.py, kernel/file_lock.py). */
module AttentionStore {
  import opened Collections
  import Sequences

  type Id = string
  type Session = string
  type Pid = nat

  datatype Row = Row(session: Session, reason: string, event: Id, detail: string, created: int, acknowledged: bool)

  datatype File = File(byId: map<Id, Row>, current: map<Session, Id>)

  const NOTHING := File(map[], map[])

  datatype Op = Record(row: Row) | Acknowledge(session: Session)

  /** What a caller gets: the stored row and whether it inserted it; the row it acknowledged;
      or that persistence was unavailable. */
  datatype Answer = Claimed(row: Row, won: bool) | Settled(settled: Option<Row>) | Unavailable

  // ----- the operations, one at a time ---------------------------------------------------------

  /** The row the session's current event names, if it is stored. */
  function Current(f: File, s: Session): Option<Row> {
    if s in f.current && f.current[s] in f.byId then Some(f.byId[f.current[s]]) else None
  }

  function Apply(f: File, op: Op): (File, Answer) {
    match op
    case Record(row) =>
      if row.event in f.byId then (f, Claimed(f.byId[row.event], false))
      else (File(f.byId[row.event := row], f.current[row.session := row.event]), Claimed(row, true))
    case Acknowledge(s) =>
      var found := Current(f, s);
      if found == None || found.value.acknowledged then (f, Settled(None))
      else
        var row := found.value.(acknowledged := true);
        (f.(byId := f.byId[row.event := row]), Settled(Some(row)))
  }

  /** Whether the operation replaces the file. */
  predicate Writes(f: File, op: Op) {
    match op
    case Record(row) => row.event !in f.byId
    case Acknowledge(s) => Current(f, s).Some? && !Current(f, s).value.acknowledged
  }

  /** A load that fails for any reason reports an empty state; what is written then is based on that. */
  function Effect(f: File, op: Op, failed: bool): (File, Answer) {
    var base := if failed then NOTHING else f;
    var (after, answer) := Apply(base, op);
    (if Writes(base, op) then after else f, answer)
  }

  /** One call that took effect; failed tells whether its load had failed. */
  datatype Entry = Entry(pid: Pid, op: Op, failed: bool, answer: Answer)

  function Replay(f: File, history: seq<Entry>): File {
    if history == [] then f
    else
      var e := history[|history| - 1];
      Effect(Replay(f, history[..|history| - 1]), e.op, e.failed).0
  }

  /** Every caller's answer is the one it would get if the operations ran one after another. */
  predicate Sequential(f: File, history: seq<Entry>) {
    history == [] ||
    var n := |history| - 1;
    && Sequential(f, history[..n])
    && history[n].answer == Effect(Replay(f, history[..n]), history[n].op, history[n].failed).1
  }

  // ----- processes -----------------------------------------------------------------------------

  /** Where a process is in its call; the snapshot is what it loaded inside the critical section. */
  datatype Phase =
    | Idle
    | Wanting(op: Op)
    | Holding(op: Op)
    | Loaded(op: Op, snapshot: File, failed: bool)
    | Leaving(op: Op, answer: Answer)
    | Dead

  predicate Inside(ph: Phase) { ph.Holding? || ph.Loaded? || ph.Leaving? }

  datatype Step =
    | Call(pid: Pid, op: Op)
    | TryLock(pid: Pid)
    | GiveUp(pid: Pid)
    | Load(pid: Pid, fails: bool)
    | Mutate(pid: Pid, writes: bool)
    | Release(pid: Pid)
    | Die(pid: Pid)

  class Machine {
    var file: File
    var marker: Option<Pid>
    var phases: map<Pid, Phase>
    ghost var origin: File
    ghost var history: seq<Entry>

    function PhaseOf(p: Pid): Phase
      reads this
    {
      if p in phases then phases[p] else Idle
    }

    /** At most one process is inside, the marker is its own, and nobody has changed the file
        since it loaded it, if the load did not fail. */
    ghost predicate Valid()
      reads this
    {
      && (forall p: Pid | Inside(PhaseOf(p)) :: marker == Some(p))
      && (forall p: Pid | PhaseOf(p).Loaded? :: PhaseOf(p).snapshot == if PhaseOf(p).failed then NOTHING else file)
      && Sequential(origin, history)
      && Replay(origin, history) == file
    }

    constructor (file: File)
      ensures Valid() && this.file == file && origin == file && history == []
    {
      this.file, origin := file, file;
      marker, phases, history := None, map[], [];
    }

    /** Creating the marker succeeds only where there is none. */
    method TryLock(p: Pid) returns (acquired: bool)
      requires Valid() && PhaseOf(p).Wanting?
      modifies `marker, `phases
      ensures Valid()
      ensures acquired == (old(marker) == None)
      ensures acquired ==> marker == Some(p) && phases == old(phases)[p := Holding(old(PhaseOf(p)).op)]
      ensures !acquired ==> marker == old(marker) && phases == old(phases)
    {
      if marker != None { return false; }
      marker := Some(p);
      phases := phases[p := Holding(PhaseOf(p).op)];
      acquired := true;
    }

    /** Reload the durable state inside the critical section; any problem reads as an empty state. */
    method Load(p: Pid, fails: bool)
      requires Valid() && PhaseOf(p).Holding?
      modifies `phases
      ensures Valid()
      ensures phases == old(phases)[p := Loaded(old(PhaseOf(p)).op, if fails then NOTHING else file, fails)]
    {
      phases := phases[p := Loaded(PhaseOf(p).op, if fails then NOTHING else file, fails)];
    }

    /** Decide on the loaded state and replace the file; a failed write changes nothing. */
    method Mutate(p: Pid, writes: bool)
      requires Valid() && PhaseOf(p).Loaded?
      modifies `file, `phases, `history
      ensures Valid()
      ensures var op, failed := old(PhaseOf(p)).op, old(PhaseOf(p)).failed;
              var (after, answer) := Effect(old(file), op, failed);
              if writes || !Writes(if failed then NOTHING else old(file), op)
              then && file == after && history == old(history) + [Entry(p, op, failed, answer)]
                   && PhaseOf(p) == Leaving(op, answer)
              else file == old(file) && history == old(history) && PhaseOf(p) == Leaving(op, Unavailable)
    {
      var op, byId, current := PhaseOf(p).op, PhaseOf(p).snapshot.byId, PhaseOf(p).snapshot.current;
      ghost var failed := PhaseOf(p).failed;
      var answer: Answer;
      var changed := false;
      match op {
        case Record(row) =>
          if row.event in byId {
            answer := Claimed(byId[row.event], false);
          } else {
            byId := byId[row.event := row];
            current := current[row.session := row.event];
            answer := Claimed(row, true);
            changed := true;
          }
        case Acknowledge(s) =>
          if s !in current || current[s] !in byId || byId[current[s]].acknowledged {
            answer := Settled(None);
          } else {
            var row := byId[current[s]].(acknowledged := true);
            byId := byId[row.event := row];
            answer := Settled(Some(row));
            changed := true;
          }
      }
      if changed && !writes {
        phases := phases[p := Leaving(op, Unavailable)];
        return;
      }
      if changed { file := File(byId, current); }
      HistoryStep(origin, history, Entry(p, op, failed, answer));
      history := history + [Entry(p, op, failed, answer)];
      phases := phases[p := Leaving(op, answer)];
    }

    /** Removing the marker ends the critical section. */
    method Release(p: Pid)
      requires Valid() && PhaseOf(p).Leaving?
      modifies `marker, `phases
      ensures Valid() && marker == None && phases == old(phases)[p := Idle]
    {
      marker := None;
      phases := phases[p := Idle];
    }

    /** Any interleaving: processes call, lock or give up, load or fail to, write or fail to, release, or
        die anywhere.  Steps a process cannot take at that point do nothing. */
    method Run(schedule: seq<Step>)
      requires Valid()
      modifies `file, `marker, `phases, `history
      ensures Valid() && old(history) <= history
      ensures forall p: Pid, q: Pid | Inside(PhaseOf(p)) && Inside(PhaseOf(q)) :: p == q
    {
      for i := 0 to |schedule|
        invariant Valid() && old(history) <= history
      {
        var p := schedule[i].pid;
        match schedule[i]
        case Call(_, op) => if PhaseOf(p).Idle? { phases := phases[p := Wanting(op)]; }
        case TryLock(_) => if PhaseOf(p).Wanting? { var acquired := TryLock(p); }
        case GiveUp(_) => if PhaseOf(p).Wanting? { phases := phases[p := Idle]; }
        case Load(_, fails) => if PhaseOf(p).Holding? { Load(p, fails); }
        case Mutate(_, writes) => if PhaseOf(p).Loaded? { Mutate(p, writes); }
        case Release(_) => if PhaseOf(p).Leaving? { Release(p); }
        case Die(_) => phases := phases[p := Dead];
      }
    }
  }

  lemma HistoryStep(f: File, history: seq<Entry>, e: Entry)
    ensures Replay(f, history + [e]) == Effect(Replay(f, history), e.op, e.failed).0
    ensures Sequential(f, history + [e]) <==>
            Sequential(f, history) && e.answer == Effect(Replay(f, history), e.op, e.failed).1
  {
    assert (history + [e])[..|history|] == history;
  }

  // ----- what every such history guarantees ------------------------------------------------------

  /** Rows are stored under their own id, and a session's current event is a stored row of that session. */
  predicate WellStored(f: File) {
    && (forall e | e in f.byId :: f.byId[e].event == e)
    && (forall s | s in f.current :: f.current[s] in f.byId && f.byId[f.current[s]].session == s)
  }

  /** Later keeps every row, and no acknowledgement is taken back. */
  predicate Grown(earlier: File, later: File) {
    forall e | e in earlier.byId ::
      e in later.byId && later.byId[e] in {earlier.byId[e], earlier.byId[e].(acknowledged := true)}
  }

  /** No claim after a failed load met a stored row. */
  predicate Harmless(f: File, history: seq<Entry>) {
    history == [] ||
    var n := |history| - 1;
    && Harmless(f, history[..n])
    && (history[n].failed && history[n].op.Record? ==> Replay(f, history[..n]).byId == map[])
  }

  lemma {:induction false} RowsStay(f: File, history: seq<Entry>)
    requires WellStored(f) && Harmless(f, history)
    ensures WellStored(Replay(f, history)) && Grown(f, Replay(f, history))
  {
    if history != [] {
      var n := |history| - 1;
      RowsStay(f, history[..n]);
      EffectKeeps(Replay(f, history[..n]), history[n]);
    }
  }

  lemma EffectKeeps(f: File, e: Entry)
    requires WellStored(f) && (e.failed && e.op.Record? ==> f.byId == map[])
    ensures var g := Effect(f, e.op, e.failed).0; WellStored(g) && Grown(f, g)
  {
    if e.failed && e.op.Record? { assert f.current == map[]; }
  }

  /** The same between any two moments of a run. */
  lemma RowsStayBetween(f: File, history: seq<Entry>, k: nat)
    requires WellStored(f) && Harmless(f, history) && k <= |history|
    ensures Grown(Replay(f, history[..k]), Replay(f, history))
  {
    HarmlessSplit(f, history, k);
    RowsStay(f, history[..k]);
    ReplaySplit(f, history, k);
    RowsStay(Replay(f, history[..k]), history[k..]);
  }

  lemma {:induction false} ReplaySplit(f: File, history: seq<Entry>, k: nat)
    requires k <= |history|
    ensures Replay(f, history) == Replay(Replay(f, history[..k]), history[k..])
  {
    if k == |history| {
      assert history[..k] == history;
    } else {
      var n := |history| - 1;
      assert history[..n][..k] == history[..k] && history[..n][k..] == history[k..][..n - k];
      ReplaySplit(f, history[..n], k);
    }
  }

  lemma {:induction false} HarmlessSplit(f: File, history: seq<Entry>, k: nat)
    requires k <= |history|
    ensures Harmless(f, history) <==> Harmless(f, history[..k]) && Harmless(Replay(f, history[..k]), history[k..])
  {
    if k == |history| {
      assert history[..k] == history;
    } else {
      var n := |history| - 1;
      assert history[..n][..k] == history[..k] && history[..n][k..] == history[k..][..n - k];
      HarmlessSplit(f, history[..n], k);
      ReplaySplit(f, history[..n], k);
    }
  }

  predicate Wins(e: Entry, id: Id) { e.answer.Claimed? && e.answer.won && e.answer.row.event == id }

  /** At most one caller is ever told that it inserted an event, and nobody if it was stored before, as
      long as no claim after a failed load met a stored row. */
  lemma OneWinner(f: File, history: seq<Entry>, i: nat, j: nat, id: Id)
    requires WellStored(f) && Sequential(f, history) && Harmless(f, history)
    requires i < |history| && Wins(history[i], id)
    ensures id !in f.byId
    ensures j < |history| && Wins(history[j], id) ==> i == j
  {
    WinnerStores(f, history, i, id);
    if i != j && j < |history| && Wins(history[j], id) {
      WinnerStores(f, history, j, id);
      WinnerBlocks(f, history, if i < j then i else j, if i < j then j else i);
    }
  }

  /** A winner finds the event absent and leaves it stored. */
  lemma WinnerStores(f: File, history: seq<Entry>, i: nat, id: Id)
    requires WellStored(f) && Sequential(f, history) && Harmless(f, history)
    requires i < |history| && Wins(history[i], id)
    ensures id !in f.byId && id !in Replay(f, history[..i]).byId && id in Replay(f, history[..i + 1]).byId
  {
    var first := history[..i + 1];
    SequentialPrefix(f, history, i + 1);
    HarmlessSplit(f, history, i + 1);
    assert first[..i] == history[..i] && first[i] == history[i];
    RowsStay(f, history[..i]);
    WinnerInserts(Replay(f, history[..i]), history[i], id);
  }

  lemma WinnerInserts(f: File, e: Entry, id: Id)
    requires e.answer == Effect(f, e.op, e.failed).1 && (e.failed && e.op.Record? ==> f.byId == map[])
    requires Wins(e, id) && WellStored(f)
    ensures id !in f.byId && id in Effect(f, e.op, e.failed).0.byId
  {
  }

  lemma WinnerBlocks(f: File, history: seq<Entry>, i: nat, j: nat)
    requires WellStored(f) && Harmless(f, history) && i < j < |history|
    ensures Replay(f, history[..i + 1]).byId.Keys <= Replay(f, history[..j]).byId.Keys
  {
    assert history[..j][..i + 1] == history[..i + 1];
    HarmlessSplit(f, history, j);
    RowsStayBetween(f, history[..j], i + 1);
  }

  lemma {:induction false} SequentialPrefix(f: File, history: seq<Entry>, k: nat)
    requires Sequential(f, history) && k <= |history|
    ensures Sequential(f, history[..k])
  {
    if k == |history| {
      assert history[..k] == history;
    } else {
      assert history[..|history| - 1][..k] == history[..k];
      SequentialPrefix(f, history[..|history| - 1], k);
    }
  }

  // ----- what a claim and an acknowledgement bring about ------------------------------------------

  lemma OneStep(f: File, history: seq<Entry>, i: nat)
    requires WellStored(f) && Sequential(f, history) && Harmless(f, history) && i < |history|
    ensures var was, e := Replay(f, history[..i]), history[i];
            && WellStored(was) && (e.failed && e.op.Record? ==> was.byId == map[])
            && (Replay(f, history[..i + 1]), e.answer) == Effect(was, e.op, e.failed)
  {
    SequentialPrefix(f, history, i + 1);
    HarmlessSplit(f, history, i + 1);
    assert history[..i + 1][..i] == history[..i] && history[..i + 1][i] == history[i];
    RowsStay(f, history[..i]);
  }

  lemma GrownBetween(f: File, history: seq<Entry>, i: nat, j: nat)
    requires WellStored(f) && Harmless(f, history) && i <= j <= |history|
    ensures Grown(Replay(f, history[..i]), Replay(f, history[..j]))
  {
    HarmlessSplit(f, history, j);
    assert history[..j][..i] == history[..i];
    RowsStayBetween(f, history[..j], i);
  }

  /** Whoever claims an event is told of the row that stays stored from then on, and has won exactly if
      there was none; then it is the row as claimed. */
  lemma ClaimStays(f: File, history: seq<Entry>, i: nat, j: nat)
    requires WellStored(f) && Sequential(f, history) && Harmless(f, history)
    requires i < j <= |history| && history[i].op.Record?
    ensures history[i].answer.Claimed?
    ensures var id, now, told := history[i].op.row.event, Replay(f, history[..j]).byId, history[i].answer.row;
            && id in now && now[id] in {told, told.(acknowledged := true)}
            && (history[i].answer.won <==> id !in Replay(f, history[..i]).byId)
            && (history[i].answer.won ==> told == history[i].op.row)
  {
    OneStep(f, history, i);
    GrownBetween(f, history, i + 1, j);
  }

  /** An acknowledgement whose load succeeds marks the session's current event for good. */
  lemma AcknowledgedForGood(f: File, history: seq<Entry>, i: nat, j: nat, s: Session)
    requires WellStored(f) && Sequential(f, history) && Harmless(f, history)
    requires i < j <= |history| && history[i].op == Acknowledge(s) && !history[i].failed
    requires s in Replay(f, history[..i]).current
    ensures var was, now := Replay(f, history[..i]), Replay(f, history[..j]); var id := was.current[s];
            && id in now.byId && now.byId[id].acknowledged && id in was.byId
            && history[i].answer == Settled(if was.byId[id].acknowledged then None else Some(now.byId[id]))
  {
    OneStep(f, history, i);
    GrownBetween(f, history, i + 1, j);
  }

  /** No event counts as acknowledged unless it was stored or claimed so or a caller acknowledged it. */
  lemma {:induction false} AcknowledgedBySomebody(f: File, history: seq<Entry>, id: Id)
    requires WellStored(f) && Sequential(f, history) && Harmless(f, history)
    requires id in Replay(f, history).byId && Replay(f, history).byId[id].acknowledged
    ensures (id in f.byId && f.byId[id].acknowledged) || exists i | 0 <= i < |history| :: Acknowledges(history[i], id)
  {
    if history != [] {
      var n := |history| - 1;
      var was := Replay(f, history[..n]);
      OneStep(f, history, n);
      Sequences.Whole(history);
      if id in was.byId && was.byId[id].acknowledged {
        AcknowledgedBySomebody(f, history[..n], id);
        if i :| 0 <= i < n && Acknowledges(history[..n][i], id) { assert Acknowledges(history[i], id); }
      } else {
        assert Acknowledges(history[n], id);
      }
    }
  }

  /** The caller acknowledged the event, or brought it in as acknowledged. */
  predicate Acknowledges(e: Entry, id: Id) {
    match e.op
    case Record(row) => Wins(e, id) && row.acknowledged
    case Acknowledge(s) => e.answer.Settled? && e.answer.settled.Some? && e.answer.settled.value.event == id
  }

  /** The session's claims that won, in order. */
  function WonBy(history: seq<Entry>, s: Session): seq<Id> {
    if history == [] then []
    else
      var rest, e := WonBy(history[..|history| - 1], s), history[|history| - 1];
      if e.op.Record? && e.op.row.session == s && Wins(e, e.op.row.event) then rest + [e.op.row.event] else rest
  }

  /** A session's current event is the last one that was won for it. */
  lemma {:induction false} CurrentIsLatest(f: File, history: seq<Entry>, s: Session)
    requires WellStored(f) && Sequential(f, history) && Harmless(f, history)
    ensures var won, now := WonBy(history, s), Replay(f, history).current;
            if won == [] then (s in now <==> s in f.current) && (s in now ==> now[s] == f.current[s])
            else s in now && now[s] == won[|won| - 1]
  {
    if history != [] {
      var n := |history| - 1;
      OneStep(f, history, n);
      Sequences.Whole(history);
      CurrentIsLatest(f, history[..n], s);
      CurrentMoves(Replay(f, history[..n]), history[n], s);
    }
  }

  /** Only a claim of the session that wins moves its current event. */
  lemma CurrentMoves(was: File, e: Entry, s: Session)
    requires WellStored(was) && (e.failed && e.op.Record? ==> was.byId == map[])
    requires e.answer == Effect(was, e.op, e.failed).1
    ensures var now := Effect(was, e.op, e.failed).0.current;
            if e.op.Record? && e.op.row.session == s && Wins(e, e.op.row.event)
            then s in now && now[s] == e.op.row.event
            else (s in now <==> s in was.current) && (s in now ==> now[s] == was.current[s])
  {
  }

  // ----- where the guarantee ends ------------------------------------------------------------------

  /** Nobody wins an event that was stored before, and no two calls win the same one. */
  ghost predicate OneEach(f: File, history: seq<Entry>) {
    forall i, id: Id | 0 <= i < |history| && Wins(history[i], id) :: Once(f, history, i, id)
  }

  predicate Once(f: File, history: seq<Entry>, i: nat, id: Id) {
    id !in f.byId && forall j | 0 <= j < |history| && Wins(history[j], id) :: i == j
  }

  /** Calls whose loads succeed. */
  predicate Loading(more: seq<Entry>) { forall i | 0 <= i < |more| :: !more[i].failed }

  ghost predicate StaysOneEach(f: File, history: seq<Entry>, more: seq<Entry>) {
    Loading(more) && Sequential(f, history + more) ==> OneEach(f, history + more)
  }

  /** Whatever is claimed and acknowledged later, every event has at most one winner: exactly if no
      claim after a failed load met a stored row. */
  lemma FailedLoads(f: File, history: seq<Entry>)
    requires WellStored(f) && Sequential(f, history)
    ensures (forall more :: StaysOneEach(f, history, more)) <==> Harmless(f, history)
  {
    if Harmless(f, history) {
      forall more ensures StaysOneEach(f, history, more) {
        if Loading(more) && Sequential(f, history + more) {
          LoadingHarmless(f, history, more);
          AllOneEach(f, history + more);
        }
      }
    } else {
      var more := SecondWinner(f, history);
      assert !StaysOneEach(f, history, more);
    }
  }

  lemma AllOneEach(f: File, history: seq<Entry>)
    requires WellStored(f) && Sequential(f, history) && Harmless(f, history)
    ensures OneEach(f, history)
  {
    forall i, id: Id | 0 <= i < |history| && Wins(history[i], id) ensures Once(f, history, i, id) {
      OneWinner(f, history, i, i, id);
      forall j | 0 <= j < |history| && Wins(history[j], id) ensures i == j {
        OneWinner(f, history, i, j, id);
      }
    }
  }

  lemma {:induction false} LoadingHarmless(f: File, history: seq<Entry>, more: seq<Entry>)
    requires Harmless(f, history) && Loading(more)
    ensures Harmless(f, history + more)
  {
    if more == [] {
      assert history + more == history;
    } else {
      Sequences.Front(history, more);
      LoadingHarmless(f, history, more[..|more| - 1]);
    }
  }

  /** A stored event was stored before or has a winner. */
  lemma {:induction false} StoredIsWon(f: File, history: seq<Entry>, id: Id)
    requires Sequential(f, history) && id in Replay(f, history).byId && id !in f.byId
    requires forall e | e in f.byId :: f.byId[e].event == e
    ensures exists i :: 0 <= i < |history| && Wins(history[i], id)
  {
    var n := |history| - 1;
    StoredUnderOwn(f, history[..n]);
    if id in Replay(f, history[..n]).byId {
      StoredIsWon(f, history[..n], id);
      var i :| 0 <= i < n && Wins(history[..n][i], id);
      assert Wins(history[i], id);
    } else {
      assert Wins(history[n], id);
    }
  }

  lemma {:induction false} StoredUnderOwn(f: File, history: seq<Entry>)
    requires forall e | e in f.byId :: f.byId[e].event == e
    ensures forall e | e in Replay(f, history).byId :: Replay(f, history).byId[e].event == e
  {
    if history != [] {
      StoredUnderOwn(f, history[..|history| - 1]);
    }
  }

  /** Some claim after a failed load met a stored row. */
  lemma {:induction false} HarmAt(f: File, history: seq<Entry>) returns (k: nat)
    requires !Harmless(f, history)
    ensures k < |history| && history[k].failed && history[k].op.Record? && Replay(f, history[..k]).byId != map[]
  {
    var n := |history| - 1;
    if Harmless(f, history[..n]) {
      k := n;
    } else {
      k := HarmAt(f, history[..n]);
      assert history[..n][..k] == history[..k] && history[..n][k] == history[k];
    }
  }

  /** Two winners of an event, or one of an event stored before. */
  predicate WonTwice(f: File, history: seq<Entry>, id: Id) {
    exists j :: 0 <= j < |history| && Wins(history[j], id) &&
      (id in f.byId || exists i :: 0 <= i < j && Wins(history[i], id))
  }

  lemma TwiceIsNotOnce(f: File, history: seq<Entry>, id: Id)
    requires WonTwice(f, history, id)
    ensures !OneEach(f, history)
  {
    var j :| 0 <= j < |history| && Wins(history[j], id) &&
      (id in f.byId || exists i :: 0 <= i < j && Wins(history[i], id));
    assert !Once(f, history, j, id) by {
      if id !in f.byId {
        var i :| 0 <= i < j && Wins(history[i], id);
        assert i != j;
      }
    }
  }

  lemma WonBefore(f: File, history: seq<Entry>, k: nat, j: nat, id: Id)
    requires WellStored(f) && Sequential(f, history) && k <= j < |history|
    requires id in Replay(f, history[..k]).byId && Wins(history[j], id)
    ensures WonTwice(f, history, id)
  {
    if id !in f.byId {
      SequentialPrefix(f, history, k);
      StoredIsWon(f, history[..k], id);
      var i :| 0 <= i < k && Wins(history[..k][i], id);
      assert Wins(history[i], id);
    }
  }

  /** The row that is gone wins again when it is next claimed, now or later. */
  lemma SecondWinner(f: File, history: seq<Entry>) returns (more: seq<Entry>)
    requires WellStored(f) && Sequential(f, history) && !Harmless(f, history)
    ensures Loading(more) && Sequential(f, history + more) && !OneEach(f, history + more)
  {
    var k := HarmAt(f, history);
    var before := Replay(f, history[..k]);
    var row := history[k].op.row;
    SequentialPrefix(f, history, k + 1);
    assert history[..k + 1][..k] == history[..k] && history[..k + 1][k] == history[k];
    if row.event in before.byId {
      more := [];
      assert history + more == history;
      WonBefore(f, history, k, k, row.event);
      TwiceIsNotOnce(f, history, row.event);
    } else {
      var id :| id in before.byId;
      more := ClaimAgain(f, history, k, id);
    }
  }

  lemma ClaimAgain(f: File, history: seq<Entry>, k: nat, id: Id) returns (more: seq<Entry>)
    requires WellStored(f) && Sequential(f, history) && k < |history|
    requires id in Replay(f, history[..k]).byId && id !in Replay(f, history[..k + 1]).byId
    ensures Loading(more) && Sequential(f, history + more) && !OneEach(f, history + more)
  {
    if id in Replay(f, history).byId {
      more := [];
      assert history + more == history;
      var j := WonLater(f, history, k + 1, id);
      WonBefore(f, history, k, j, id);
      TwiceIsNotOnce(f, history, id);
    } else {
      var row := Row("", "", id, "", 0, false);
      var e := Entry(0, Record(row), false, Claimed(row, true));
      more := [e];
      HistoryStep(f, history, e);
      assert (history + more)[..k] == history[..k] && (history + more)[|history|] == e;
      WonBefore(f, history + more, k, |history|, id);
      TwiceIsNotOnce(f, history + more, id);
    }
  }

  /** An event missing at one moment and stored at the end has a winner in between. */
  lemma WonLater(f: File, history: seq<Entry>, k: nat, id: Id) returns (j: nat)
    requires WellStored(f) && Sequential(f, history) && k <= |history|
    requires id !in Replay(f, history[..k]).byId && id in Replay(f, history).byId
    ensures k <= j < |history| && Wins(history[j], id)
  {
    var middle := Replay(f, history[..k]);
    SequentialSplit(f, history, k);
    ReplaySplit(f, history, k);
    StoredUnderOwn(f, history[..k]);
    StoredIsWon(middle, history[k..], id);
    var i :| 0 <= i < |history| - k && Wins(history[k..][i], id);
    j := k + i;
  }

  lemma {:induction false} SequentialSplit(f: File, history: seq<Entry>, k: nat)
    requires Sequential(f, history) && k <= |history|
    ensures Sequential(Replay(f, history[..k]), history[k..])
  {
    if k < |history| {
      var n := |history| - 1;
      assert history[..n][..k] == history[..k] && history[..n][k..] == history[k..][..n - k];
      SequentialSplit(f, history[..n], k);
      ReplaySplit(f, history[..n], k);
    }
  }

  /** A claim after a failed load keeps the stored rows exactly when the only row there was, if any, is
      the one it writes again; and it keeps what the sessions' current events were exactly when no other
      session had one, and this one's was the same event. */
  lemma FailedLoad(f: File, row: Row)
    ensures Effect(f, Record(row), true).1 == Claimed(row, true)
    ensures Grown(f, Effect(f, Record(row), true).0) <==>
            forall e | e in f.byId :: e == row.event && row in {f.byId[e], f.byId[e].(acknowledged := true)}
    ensures KeepsCurrent(f, Effect(f, Record(row), true).0) <==>
            forall s | s in f.current :: s == row.session && f.current[s] == row.event
  {
    var g := Effect(f, Record(row), true).0;
    assert g.byId == map[row.event := row] && g.current == map[row.session := row.event];
  }

  predicate KeepsCurrent(earlier: File, later: File) {
    forall s | s in earlier.current :: s in later.current && later.current[s] == earlier.current[s]
  }

  /** Two sessions, one stored event: claiming another event after a failed load loses the first. */
  lemma FailedLoadExample()
    ensures var first := Row("s", "done", "s/1", "", 1, false); var second := Row("t", "done", "t/1", "", 2, false);
            var f := Apply(NOTHING, Record(first)).0;
            var g := Effect(f, Record(second), true).0;
            first.event !in g.byId && "s" !in g.current
  {
  }
}
