/** Delivering attention records to a push service: hook handlers fill two lanes, one worker
    task empties them (kernel/attention_push.py). */
module AttentionPush {
  import opened Collections
  import Sequences

  type Id = string

  datatype Delivery = Publish(event: Id, title: string, body: string) | Clear(event: Id)

  const QUEUE_LIMIT := 128

  // ----- what happened, and the lanes it implies ----------------------------------------------

  datatype Note =
    | Accepted(publish: Delivery)
    | Acked(event: Id)
    | Started(delivery: Delivery)
    | Ended(delivery: Delivery)

  /** Bounded first-in first-out publishes, and clears that never wait behind them. */
  datatype Lanes = Lanes(publishes: seq<Delivery>, clears: seq<Id>, flight: seq<Delivery>)

  function Without(ps: seq<Delivery>, e: Id): seq<Delivery> {
    if ps == [] then []
    else Without(ps[..|ps| - 1], e) + if ps[|ps| - 1].event == e then [] else [ps[|ps| - 1]]
  }

  function After(l: Lanes, n: Note): Lanes {
    match n
    case Accepted(p) => l.(publishes := l.publishes + [p])
    case Acked(e) =>
      l.(publishes := Without(l.publishes, e), clears := if e in l.clears then l.clears else l.clears + [e])
    case Started(Publish(e, t, b)) =>
      l.(publishes := if l.publishes == [] then [] else l.publishes[1..], flight := [n.delivery])
    case Started(Clear(e)) => l.(clears := if l.clears == [] then [] else l.clears[1..], flight := [n.delivery])
    case Ended(_) => l.(flight := [])
  }

  function Replay(trace: seq<Note>): Lanes {
    if trace == [] then Lanes([], [], []) else After(Replay(trace[..|trace| - 1]), trace[|trace| - 1])
  }

  /** The events acknowledged so far. */
  function AckedIn(trace: seq<Note>): set<Id> {
    if trace == [] then {}
    else AckedIn(trace[..|trace| - 1]) + if trace[|trace| - 1].Acked? then {trace[|trace| - 1].event} else {}
  }

  /** One delivery at a time; clears first; each lane in order; nothing accepted over the limit
      or after its acknowledgement. */
  predicate Allowed(l: Lanes, trace: seq<Note>, n: Note) {
    match n
    case Accepted(p) => p.Publish? && |l.publishes| < QUEUE_LIMIT && p.event !in AckedIn(trace)
    case Acked(_) => true
    case Started(d) =>
      l.flight == [] && if d.Clear? then l.clears != [] && l.clears[0] == d.event
                        else l.clears == [] && l.publishes != [] && l.publishes[0] == d
    case Ended(d) => l.flight == [d]
  }

  predicate Legal(trace: seq<Note>) {
    trace == [] ||
    var front := trace[..|trace| - 1];
    Legal(front) && Allowed(Replay(front), front, trace[|trace| - 1])
  }

  // ----- the destination -----------------------------------------------------------------------

  /** Where the worker task is suspended. */
  datatype Worker = NotStarted | Scheduled | Waiting | Delivering(delivery: Delivery)

  function NoteOf(d: Delivery): Note { if d.Clear? then Acked(d.event) else Accepted(d) }

  function Flight(w: Worker): seq<Delivery> { if w.Delivering? then [w.delivery] else [] }

  datatype Action = Record(event: Id, title: string, body: string) | Acknowledge(event: Id) | Resume

  class Destination {
    const ready: bool
    var pending: seq<Delivery>
    var pendingClears: seq<Id>
    var queuedClears: set<Id>
    var cleared: set<Id>
    var wakeup: bool
    var drained: bool
    var inflight: bool
    var worker: Worker
    ghost var trace: seq<Note>

    /** Holds whenever no handler and no worker code is running. */
    ghost predicate Valid()
      reads this
    {
      && Traced(trace, Lanes(pending, pendingClears, Flight(worker)), cleared)
      && queuedClears == Elements(pendingClears)
      && Distinct(pendingClears)
      && |pending| <= QUEUE_LIMIT
      && inflight == worker.Delivering?
      && (wakeup <==> pending != [] || pendingClears != [])
      && (drained <==> pending == [] && pendingClears == [] && !inflight)
      && (worker.NotStarted? ==> drained)
    }

    constructor (ready: bool)
      ensures Valid() && trace == [] && this.ready == ready
    {
      this.ready := ready;
      pending, pendingClears, queuedClears, cleared := [], [], {}, {};
      wakeup, drained, inflight, worker := false, true, false, NotStarted;
      trace := [];
    }

    /** Accept one delivery into its lane; the worker runs later. */
    method Enqueue(delivery: Delivery) returns (accepted: bool)
      requires Valid()
      modifies this
      ensures Valid()
      ensures accepted ==
              (ready && (delivery.Clear? || (delivery.event !in old(cleared) && |old(pending)| < QUEUE_LIMIT)))
      ensures trace == if accepted then old(trace) + [NoteOf(delivery)] else old(trace)
    {
      if !ready { return false; }
      if delivery.Clear? {
        AcceptClear(delivery.event);
      } else {
        if delivery.event in cleared { return false; }
        if |pending| >= QUEUE_LIMIT { return false; }
        AcceptPublish(delivery);
      }
      drained := false;
      wakeup := true;
      if worker.NotStarted? { worker := Scheduled; }
      accepted := true;
    }

    method AcceptPublish(delivery: Delivery)
      requires Valid() && delivery.Publish? && delivery.event !in cleared && |pending| < QUEUE_LIMIT
      modifies `pending, `trace
      ensures Traced(trace, Lanes(pending, pendingClears, Flight(worker)), cleared)
      ensures trace == old(trace) + [Accepted(delivery)] && pending == old(pending) + [delivery]
    {
      AcceptStep(trace, Lanes(pending, pendingClears, Flight(worker)), cleared, delivery);
      pending := pending + [delivery];
      trace := trace + [Accepted(delivery)];
    }

    /** A clear is terminal: it supersedes queued publishes and joins its own coalesced lane. */
    method AcceptClear(e: Id)
      requires Valid()
      modifies `cleared, `pending, `pendingClears, `queuedClears, `trace
      ensures Traced(trace, Lanes(pending, pendingClears, Flight(worker)), cleared)
      ensures trace == old(trace) + [Acked(e)]
      ensures queuedClears == Elements(pendingClears) && Distinct(pendingClears)
      ensures |pending| <= QUEUE_LIMIT && pendingClears != []
    {
      AckStep(trace, Lanes(pending, pendingClears, Flight(worker)), cleared, e);
      WithoutSize(pending, e);
      if e !in pendingClears { ClearQueued(pendingClears, e); }
      cleared := cleared + {e};
      pending := Superseded(pending, e);
      if e !in queuedClears {
        pendingClears := pendingClears + [e];
        queuedClears := queuedClears + {e};
      }
      trace := trace + [Acked(e)];
    }

    static method Superseded(pending: seq<Delivery>, e: Id) returns (kept: seq<Delivery>)
      ensures kept == Without(pending, e)
    {
      kept := [];
      for i := 0 to |pending|
        invariant kept == Without(pending[..i], e)
      {
        assert pending[..i + 1][..i] == pending[..i];
        if pending[i].event != e { kept := kept + [pending[i]]; }
      }
      assert pending[..|pending|] == pending;
    }

    /** Run the worker from where it is suspended to its next suspension.  A suspended wait only
        resumes when the event is set; a delivery resumes when the send has ended, well or badly. */
    method ResumeWorker()
      requires Valid()
      modifies this
      ensures Valid() && old(trace) <= trace
      ensures |pending| + |pendingClears| <= |old(pending)| + |old(pendingClears)|
      ensures !old(drained) ==>
                2 * (|pending| + |pendingClears|) + (if inflight then 1 else 0)
                < 2 * (|old(pending)| + |old(pendingClears)|) + (if old(inflight) then 1 else 0)
      ensures old(drained) ==> drained && trace == old(trace)
    {
      if worker.NotStarted? { return; }
      if worker.Delivering? { FinishDelivery(); }
      if !wakeup {
        worker := Waiting;
        return;
      }
      // The event is set, so a lane is not empty: the outer loop never turns without a delivery.
      StartDelivery();
    }

    /** The end of a delivery, whether it succeeded or raised. */
    method FinishDelivery()
      requires Valid() && worker.Delivering?
      modifies this
      ensures Valid() && !inflight && worker == Waiting && unchanged(this`pending, this`pendingClears, this`wakeup)
      ensures trace == old(trace) + [Ended(old(worker).delivery)]
    {
      EndStep(trace, Lanes(pending, pendingClears, Flight(worker)), cleared);
      trace := trace + [Ended(worker.delivery)];
      inflight := false;
      worker := Waiting;
      if pendingClears == [] && pending == [] { drained := true; }
    }

    /** Take the next delivery, clears first, and start it. */
    method StartDelivery()
      requires Valid() && wakeup && !inflight && !worker.NotStarted?
      modifies this
      ensures Valid() && inflight && worker.Delivering?
      ensures |pending| + |pendingClears| == |old(pending)| + |old(pendingClears)| - 1
      ensures trace == old(trace) + [Started(worker.delivery)]
      ensures if old(pendingClears) != []
              then worker.delivery == Clear(old(pendingClears)[0]) && pending == old(pending)
              else old(pending) != [] && worker.delivery == old(pending)[0] && pendingClears == []
    {
      var delivery := TakeNext();
      trace := trace + [Started(delivery)];
      if pendingClears == [] && pending == [] { wakeup := false; }
      inflight := true;
      worker := Delivering(delivery);
    }

    method TakeNext() returns (delivery: Delivery)
      requires Valid() && wakeup && !inflight
      modifies `pending, `pendingClears, `queuedClears
      ensures Traced(trace + [Started(delivery)], Lanes(pending, pendingClears, [delivery]), cleared)
      ensures queuedClears == Elements(pendingClears) && Distinct(pendingClears) && |pending| <= QUEUE_LIMIT
      ensures |pending| + |pendingClears| == |old(pending)| + |old(pendingClears)| - 1
      ensures if old(pendingClears) != [] then delivery == Clear(old(pendingClears)[0]) && pending == old(pending)
              else old(pending) != [] && delivery == old(pending)[0] && pendingClears == []
    {
      if pendingClears != [] {
        ClearStep(trace, Lanes(pending, pendingClears, []), cleared);
        HeadGone(pendingClears);
        delivery := Clear(pendingClears[0]);
        pendingClears := pendingClears[1..];
        queuedClears := queuedClears - {delivery.event};
      } else {
        PublishStep(trace, Lanes(pending, pendingClears, []), cleared);
        delivery := pending[0];
        pending := pending[1..];
      }
    }

    /** Any interleaving of handlers and worker steps. */
    method Run(actions: seq<Action>)
      requires Valid()
      modifies this
      ensures Valid() && old(trace) <= trace
    {
      for i := 0 to |actions|
        invariant Valid() && old(trace) <= trace
      {
        match actions[i]
        case Record(e, t, b) => if e != "" { var accepted := Enqueue(Publish(e, t, b)); }
        case Acknowledge(e) => if e != "" { var accepted := Enqueue(Clear(e)); }
        case Resume => ResumeWorker();
      }
    }

    /** Left alone, the worker empties both lanes: nothing is lost in a suspended wait. */
    method Drain()
      requires Valid()
      modifies this
      ensures Valid() && old(trace) <= trace
      ensures drained && pending == [] && pendingClears == [] && !inflight
      ensures forall e | e in AckedIn(trace) :: StartedIn(trace, Clear(e))
      ensures forall d: Delivery | d.event !in AckedIn(trace) ::
                multiset(Publishes(trace, true))[d] == multiset(Publishes(trace, false))[d]
    {
      while !drained
        invariant Valid() && old(trace) <= trace
        decreases 2 * (|pending| + |pendingClears|) + if inflight then 1 else 0
      {
        ResumeWorker();
      }
      forall d: Delivery | d.event !in AckedIn(trace)
        ensures multiset(Publishes(trace, true))[d] == multiset(Publishes(trace, false))[d]
      {
        NothingDropped(trace, d);
      }
      forall e | e in AckedIn(trace) ensures StartedIn(trace, Clear(e)) {
        var i := AckedAt(trace, e);
        ClearsAttempted(trace, i);
      }
    }
  }

  predicate StartedIn(trace: seq<Note>, d: Delivery) {
    exists i | 0 <= i < |trace| :: trace[i] == Started(d)
  }

  ghost predicate Traced(trace: seq<Note>, l: Lanes, cleared: set<Id>) {
    Legal(trace) && Replay(trace) == l && cleared == AckedIn(trace)
  }

  lemma AcceptStep(trace: seq<Note>, l: Lanes, cleared: set<Id>, p: Delivery)
    requires Traced(trace, l, cleared) && Allowed(l, trace, Accepted(p))
    ensures Traced(trace + [Accepted(p)], Lanes(l.publishes + [p], l.clears, l.flight), cleared)
  {
    Extended(trace, Accepted(p));
  }

  lemma AckStep(trace: seq<Note>, l: Lanes, cleared: set<Id>, e: Id)
    requires Traced(trace, l, cleared)
    ensures Traced(trace + [Acked(e)],
                   Lanes(Without(l.publishes, e), if e in l.clears then l.clears else l.clears + [e], l.flight),
                   cleared + {e})
  {
    Extended(trace, Acked(e));
  }

  lemma ClearStep(trace: seq<Note>, l: Lanes, cleared: set<Id>)
    requires Traced(trace, l, cleared) && l.clears != [] && l.flight == []
    ensures var d := Clear(l.clears[0]);
            Traced(trace + [Started(d)], Lanes(l.publishes, l.clears[1..], [d]), cleared)
  {
    Extended(trace, Started(Clear(l.clears[0])));
  }

  lemma PublishStep(trace: seq<Note>, l: Lanes, cleared: set<Id>)
    requires Traced(trace, l, cleared) && l.clears == [] && l.publishes != [] && l.flight == []
    ensures var d := l.publishes[0];
            d.Publish? && Traced(trace + [Started(d)], Lanes(l.publishes[1..], [], [d]), cleared)
  {
    PublishesOnly(trace);
    assert l.publishes[0] in Replay(trace).publishes;
    Extended(trace, Started(l.publishes[0]));
  }

  lemma EndStep(trace: seq<Note>, l: Lanes, cleared: set<Id>)
    requires Traced(trace, l, cleared) && l.flight != []
    ensures Traced(trace + [Ended(l.flight[0])], Lanes(l.publishes, l.clears, []), cleared)
  {
    FlightOne(trace);
    Extended(trace, Ended(l.flight[0]));
  }

  lemma {:induction false} FlightOne(trace: seq<Note>)
    ensures |Replay(trace).flight| <= 1
  {
    if trace != [] { FlightOne(trace[..|trace| - 1]); }
  }

  lemma ClearQueued(s: seq<Id>, e: Id)
    requires Distinct(s) && e !in s
    ensures Distinct(s + [e]) && Elements(s + [e]) == Elements(s) + {e}
  {
  }

  lemma {:induction false} WithoutSize(ps: seq<Delivery>, e: Id)
    ensures |Without(ps, e)| <= |ps|
  {
    if ps != [] { WithoutSize(ps[..|ps| - 1], e); }
  }

  lemma HeadGone(s: seq<Id>)
    requires s != [] && Distinct(s)
    ensures Distinct(s[1..]) && Elements(s[1..]) == Elements(s) - {s[0]}
  {
    assert s == [s[0]] + s[1..];
    assert forall i | 0 <= i < |s[1..]| :: s[1..][i] == s[i + 1];
  }

  lemma Extended(trace: seq<Note>, n: Note)
    ensures Replay(trace + [n]) == After(Replay(trace), n)
    ensures Legal(trace + [n]) <==> Legal(trace) && Allowed(Replay(trace), trace, n)
    ensures AckedIn(trace + [n]) == AckedIn(trace) + if n.Acked? then {n.event} else {}
  {
    assert (trace + [n])[..|trace|] == trace;
  }

  function Elements(s: seq<Id>): set<Id> { set e | e in s }

  lemma {:induction false} AckedAt(trace: seq<Note>, e: Id) returns (i: nat)
    requires e in AckedIn(trace)
    ensures i < |trace| && trace[i] == Acked(e)
  {
    if trace[|trace| - 1] == Acked(e) {
      i := |trace| - 1;
    } else {
      i := AckedAt(trace[..|trace| - 1], e);
    }
  }

  lemma {:induction false} AtAcked(trace: seq<Note>, i: nat)
    requires i < |trace| && trace[i].Acked?
    ensures trace[i].event in AckedIn(trace)
  {
    if i < |trace| - 1 { AtAcked(trace[..|trace| - 1], i); }
  }

  lemma {:induction false} WithoutMembers(ps: seq<Delivery>, e: Id)
    ensures forall d :: d in Without(ps, e) <==> d in ps && d.event != e
  {
    if ps != [] {
      WithoutMembers(ps[..|ps| - 1], e);
      assert ps == ps[..|ps| - 1] + [ps[|ps| - 1]];
    }
  }

  lemma {:induction false} PublishesOnly(trace: seq<Note>)
    requires Legal(trace)
    ensures forall d | d in Replay(trace).publishes :: d.Publish?
  {
    if trace != [] {
      var n := |trace| - 1;
      PublishesOnly(trace[..n]);
      if trace[n].Acked? { WithoutMembers(Replay(trace[..n]).publishes, trace[n].event); }
    }
  }

  // ----- what legal histories cannot do ----------------------------------------------------------

  /** Nothing of an acknowledged event is waiting to be published. */
  lemma {:induction false} AckedNotPending(trace: seq<Note>, e: Id)
    requires Legal(trace) && e in AckedIn(trace)
    ensures forall d | d in Replay(trace).publishes :: d.event != e
  {
    var n := |trace| - 1;
    var front := trace[..n];
    var l := Replay(front);
    if trace[n] == Acked(e) {
      WithoutMembers(l.publishes, e);
    } else {
      AckedNotPending(front, e);
      if trace[n].Acked? { WithoutMembers(l.publishes, trace[n].event); }
    }
  }

  /** No publish of an event starts after its acknowledgement was accepted. */
  lemma NoLatePublish(trace: seq<Note>, i: nat, j: nat)
    requires Legal(trace) && i < j < |trace|
    requires trace[i].Acked? && trace[j].Started? && trace[j].delivery.Publish?
    ensures trace[j].delivery.event != trace[i].event
  {
    LegalPrefix(trace, j + 1);
    var upTo := trace[..j + 1];
    assert upTo[..j] == trace[..j] && upTo[j] == trace[j];
    AtAcked(trace[..j], i);
    AckedNotPending(trace[..j], trace[i].event);
    assert trace[j].delivery in Replay(trace[..j]).publishes;
  }

  lemma {:induction false} LegalPrefix(trace: seq<Note>, k: nat)
    requires Legal(trace) && k <= |trace|
    ensures Legal(trace[..k])
  {
    if k == |trace| {
      assert trace[..k] == trace;
    } else {
      assert trace[..|trace| - 1][..k] == trace[..k];
      LegalPrefix(trace[..|trace| - 1], k);
    }
  }

  /** Every accepted acknowledgement is still queued, or its clear was started afterwards. */
  lemma {:induction false} ClearsAttempted(trace: seq<Note>, i: nat)
    requires Legal(trace) && i < |trace| && trace[i].Acked?
    ensures trace[i].event in Replay(trace).clears
            || exists j | i < j < |trace| :: trace[j] == Started(Clear(trace[i].event))
  {
    var n := |trace| - 1;
    var e := trace[i].event;
    if i < n {
      var front := trace[..n];
      ClearsAttempted(front, i);
      if e in Replay(front).clears {
        if e !in Replay(trace).clears { assert trace[n] == Started(Clear(e)); }
      } else {
        var j :| i < j < n && front[j] == Started(Clear(front[i].event));
        assert trace[j] == Started(Clear(e));
      }
    }
  }

  function Publishes(trace: seq<Note>, started: bool): seq<Delivery> {
    if trace == [] then []
    else
      var n := trace[|trace| - 1];
      Publishes(trace[..|trace| - 1], started)
      + if started then (if n.Started? && n.delivery.Publish? then [n.delivery] else [])
        else if n.Accepted? then [n.publish] else []
  }

  /** Unless its event was acknowledged, every accepted publish is queued or was started, as often as it
      was accepted. */
  lemma {:induction false} NothingDropped(trace: seq<Note>, d: Delivery)
    requires Legal(trace) && d.event !in AckedIn(trace)
    ensures multiset(Publishes(trace, true))[d] + multiset(Replay(trace).publishes)[d]
            == multiset(Publishes(trace, false))[d]
  {
    if trace != [] {
      var n := |trace| - 1;
      var l := Replay(trace[..n]);
      NothingDropped(trace[..n], d);
      match trace[n]
      case Accepted(p) =>
        OneLast(Publishes(trace[..n], false), p, d);
        OneLast(l.publishes, p, d);
      case Acked(e) => OthersWaiting(l.publishes, e, d);
      case Started(s) =>
        if s.Publish? {
          OneLast(Publishes(trace[..n], true), s, d);
          OneFirst(l.publishes, d);
        }
      case Ended(_) =>
    }
  }

  lemma OneLast(ps: seq<Delivery>, p: Delivery, d: Delivery)
    ensures multiset(ps + [p])[d] == multiset(ps)[d] + if p == d then 1 else 0
  {
  }

  lemma OneFirst(ps: seq<Delivery>, d: Delivery)
    requires ps != []
    ensures multiset(ps)[d] == multiset(ps[1..])[d] + if ps[0] == d then 1 else 0
  {
    assert ps == [ps[0]] + ps[1..];
  }

  lemma {:induction false} OthersWaiting(ps: seq<Delivery>, e: Id, d: Delivery)
    requires d.event != e
    ensures multiset(Without(ps, e))[d] == multiset(ps)[d]
  {
    if ps != [] {
      OthersWaiting(ps[..|ps| - 1], e, d);
      Sequences.Snoc(ps);
    }
  }

  /** Publishes start in the order they were accepted, each acceptance at most once. */
  lemma {:induction false} PublishesInOrder(trace: seq<Note>)
    requires Legal(trace)
    ensures Subsequence(Publishes(trace, true) + Replay(trace).publishes, Publishes(trace, false))
  {
    if trace != [] {
      var n := |trace| - 1;
      var front, note := trace[..n], trace[n];
      PublishesInOrder(front);
      assert forall x: seq<Delivery> {:trigger x + []} :: x + [] == x;
      var started, lane, accepted := Publishes(front, true), Replay(front).publishes, Publishes(front, false);
      match note
      case Accepted(p) => OneMore(started, lane, p, accepted);
      case Acked(e) => WithoutSub(started, lane, e, accepted);
      case Started(d) => if d.Publish? { HeadMoves(started, lane); }
      case Ended(_) =>
    }
  }

  lemma OneMore(a: seq<Delivery>, b: seq<Delivery>, d: Delivery, t: seq<Delivery>)
    requires Subsequence(a + b, t)
    ensures Subsequence(a + (b + [d]), t + [d])
  {
    var s := a + (b + [d]);
    assert s[..|s| - 1] == a + b && (t + [d])[..|t|] == t;
  }

  lemma HeadMoves(a: seq<Delivery>, b: seq<Delivery>)
    requires b != []
    ensures (a + [b[0]]) + b[1..] == a + b
  {
  }

  lemma {:induction false} WithoutSub(a: seq<Delivery>, ps: seq<Delivery>, e: Id, t: seq<Delivery>)
    requires Subsequence(a + ps, t)
    ensures Subsequence(a + Without(ps, e), t)
    decreases |ps| + |t|
  {
    if ps != [] {
      var n, front := |ps| - 1, t[..|t| - 1];
      Sequences.Front(a, ps);
      if ps[n] == t[|t| - 1] {
        WithoutSub(a, ps[..n], e, front);
        var w := a + Without(ps[..n], e);
        if ps[n].event == e {
          Sequences.EmptyRight(Without(ps[..n], e));
          SubsequenceLonger(w, t);
        } else {
          Sequences.Assoc(a, Without(ps[..n], e), [ps[n]]);
          SubsequenceBoth(w, ps[n], t);
        }
      } else {
        WithoutSub(a, ps, e, front);
        SubsequenceLonger(a + Without(ps, e), t);
      }
    }
  }

  lemma SubsequenceBoth(s: seq<Delivery>, d: Delivery, t: seq<Delivery>)
    requires t != [] && d == t[|t| - 1] && Subsequence(s, t[..|t| - 1])
    ensures Subsequence(s + [d], t)
  {
    Sequences.Appended(s, d);
  }

  lemma {:induction false} SubsequenceLonger(s: seq<Delivery>, t: seq<Delivery>)
    requires t != [] && Subsequence(s, t[..|t| - 1])
    ensures Subsequence(s, t)
    decreases |t|, 0
  {
    if s != [] && s[|s| - 1] == t[|t| - 1] {
      SubsequenceDrop(s, t[..|t| - 1]);
    }
  }

  lemma {:induction false} SubsequenceDrop(s: seq<Delivery>, t: seq<Delivery>)
    requires s != [] && Subsequence(s, t)
    ensures Subsequence(s[..|s| - 1], t)
    decreases |t|, 1
  {
    var front := t[..|t| - 1];
    if s[|s| - 1] == t[|t| - 1] {
      SubsequenceLonger(s[..|s| - 1], t);
    } else {
      SubsequenceDrop(s, front);
      SubsequenceLonger(s[..|s| - 1], t);
    }
  }
}
