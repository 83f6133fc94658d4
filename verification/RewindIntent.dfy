/** The staged conversation rewind of a session store: durable steps with a process exit
    possible after each one, and appends that may stop at any character
    (kernel/persistence.py). */
module RewindIntent {
  import opened Collections
  import opened JsonLines
  import Sequences

  datatype Role = User | Assistant | Tool | System | Developer
  datatype Message = Message(role: Role, content: string)

  datatype Metadata = Metadata(session: string, created: Option<string>, turns: nat,
                               incremental: bool, reconciled: bool, others: map<string, string>)

  /** The intent file: a staged rewind, or the record that it was cancelled. */
  datatype Intent =
    | Staged(session: string, marker: string, messages: seq<Message>, ready: bool)
    | Cancelled(session: string)

  /** One reconciliation: no intent, done with it, an exception, or the process gone. */
  datatype Outcome = NoIntent | Settled | Raised | Exited

  /** What is on disk. */
  datatype Disk = Disk(transcript: seq<Message>, backup: seq<Message>, metadata: Metadata,
                       log: string, intent: Option<Intent>)

  const MARKER_KIND := "rewind_marker"

  /** Prompts the provider rebuilds are never persisted. */
  function Conversation(ms: seq<Message>): seq<Message> {
    if ms == [] then []
    else Conversation(ms[..|ms| - 1])
         + if ms[|ms| - 1].role in {System, Developer} then [] else [ms[|ms| - 1]]
  }

  function UserTurns(ms: seq<Message>): nat {
    if ms == [] then 0 else UserTurns(ms[..|ms| - 1]) + if ms[|ms| - 1].role == User then 1 else 0
  }

  lemma {:induction false} ConversationIdempotent(ms: seq<Message>)
    ensures Conversation(Conversation(ms)) == Conversation(ms)
  {
    if ms != [] {
      var rest, m := Conversation(ms[..|ms| - 1]), ms[|ms| - 1];
      ConversationIdempotent(ms[..|ms| - 1]);
      if m.role in {System, Developer} {
        assert Conversation(ms) == rest;
      } else {
        assert (rest + [m])[..|rest|] == rest;
      }
    }
  }

  predicate Prompt(m: Message) { m.role.System? || m.role.Developer? }

  /** In order, everything but the prompts, as often as it was said. */
  ghost predicate WithoutPrompts(kept: seq<Message>, ms: seq<Message>) {
    && Subsequence(kept, ms)
    && forall m :: multiset(kept)[m] == if Prompt(m) then 0 else multiset(ms)[m]
  }

  lemma {:induction false} OnlyPromptsGo(ms: seq<Message>)
    ensures WithoutPrompts(Conversation(ms), ms)
  {
    if ms != [] {
      var n := |ms| - 1;
      OnlyPromptsGo(ms[..n]);
      Sequences.Snoc(ms);
      KeptMore(Conversation(ms[..n]), ms[..n], ms[n], Conversation(ms));
    }
  }

  lemma KeptMore(kept: seq<Message>, ms: seq<Message>, m: Message, more: seq<Message>)
    requires WithoutPrompts(kept, ms) && more == kept + if Prompt(m) then [] else [m]
    ensures WithoutPrompts(more, ms + [m])
  {
    if Prompt(m) {
      Sequences.EmptyRight(kept);
      assert m !in multiset(kept);
      SkipLast(kept, ms, m);
    } else {
      TakeLast(kept, ms, m);
    }
  }

  lemma SkipLast(kept: seq<Message>, ms: seq<Message>, m: Message)
    requires Subsequence(kept, ms) && m !in kept
    ensures Subsequence(kept, ms + [m])
  {
    Sequences.Appended(ms, m);
  }

  lemma TakeLast(kept: seq<Message>, ms: seq<Message>, m: Message)
    requires Subsequence(kept, ms)
    ensures Subsequence(kept + [m], ms + [m])
  {
    Sequences.Appended(ms, m);
    Sequences.Appended(kept, m);
  }

  /** Whatever is staged without prompts is persisted as it is, and only that. */
  lemma AsStaged(ms: seq<Message>)
    ensures Conversation(ms) == ms <==> forall m | m in ms :: !Prompt(m)
  {
    OnlyPromptsGo(ms);
    if Conversation(ms) == ms {
      forall m | m in ms ensures !Prompt(m) { assert multiset(ms)[m] > 0; }
    }
    if forall m | m in ms :: !Prompt(m) { NothingGoes(ms); }
  }

  lemma {:induction false} NothingGoes(ms: seq<Message>)
    requires forall m | m in ms :: !Prompt(m)
    ensures Conversation(ms) == ms
  {
    if ms != [] {
      NothingGoes(ms[..|ms| - 1]);
      Sequences.Snoc(ms);
      assert !Prompt(ms[|ms| - 1]);
    }
  }

  /** Positions at which the user spoke. */
  function UserAt(ms: seq<Message>): set<int> { set k | 0 <= k < |ms| && ms[k].role.User? }

  lemma {:induction false} TurnsCounted(ms: seq<Message>)
    ensures UserTurns(ms) == |UserAt(ms)|
  {
    if ms != [] {
      var n := |ms| - 1;
      TurnsCounted(ms[..n]);
      assert UserAt(ms) == UserAt(ms[..n]) + if ms[n].role.User? then {n} else {};
    }
  }

  predicate HasId(r: Reader, events: seq<string>, id: Option<string>) {
    exists i | 0 <= i < |events| :: r.id(events[i]) == id
  }

  function Count(r: Reader, events: seq<string>, id: Option<string>): nat {
    if events == [] then 0
    else Count(r, events[..|events| - 1], id) + if r.id(events[|events| - 1]) == id then 1 else 0
  }

  lemma {:induction false} CountPositive(r: Reader, events: seq<string>, id: Option<string>)
    ensures Count(r, events, id) > 0 <==> HasId(r, events, id)
  {
    if events != [] {
      var n := |events| - 1;
      CountPositive(r, events[..n], id);
      forall i | 0 <= i < n ensures r.id(events[..n][i]) == r.id(events[i]) {}
      assert HasId(r, events, id) <==> HasId(r, events[..n], id) || r.id(events[n]) == id;
    }
  }

  /** A marker json.dumps wrote, which the reader takes back if its kind is a string. */
  predicate Dumped(r: Reader, line: string) {
    OneLine(line) && (r.kind(line).Some? ==> r.accepts(line))
  }

  /** The intent may be applied: armed, not cancelled, of this session, with a proper marker. */
  predicate Applicable(r: Reader, session: string, intent: Option<Intent>) {
    && intent.Some? && intent.value.Staged? && intent.value.ready && intent.value.session == session
    && r.kind(intent.value.marker) == Some(MARKER_KIND)
    && r.id(intent.value.marker).Some? && r.id(intent.value.marker).value != ""
  }

  // ----- a rewind under way -------------------------------------------------------------------

  /** legacy is the older log file, read before the current one. */
  function Events(r: Reader, legacy: string, d: Disk): seq<string> {
    ReadAll(r, legacy) + ReadAll(r, d.log)
  }

  /** The log with the marker read once more, unless its id was there before. */
  function Marked(r: Reader, events: seq<string>, marker: string): seq<string> {
    if HasId(r, events, r.id(marker)) then events else events + [marker]
  }

  /** Everything else the metadata holds stays, the date of creation included. */
  predicate SameSession(was: Metadata, now: Metadata) {
    now.others == was.others && (was.created.Some? ==> now.created == was.created)
  }

  /** now is reached from origin by any number of unfinished reconciliations. */
  ghost predicate Underway(r: Reader, legacy: string, origin: Disk, now: Disk)
    requires origin.intent.Some? && origin.intent.value.Staged?
  {
    var i := origin.intent.value;
    && now.intent == origin.intent && SameSession(origin.metadata, now.metadata)
    && (now.transcript == origin.transcript || now.transcript == Conversation(i.messages))
    && origin.log <= now.log
    && (Events(r, legacy, now) == Events(r, legacy, origin)
        || Events(r, legacy, now) == Marked(r, Events(r, legacy, origin), i.marker))
  }

  /** The rewind happened, once. */
  ghost predicate Rewound(r: Reader, legacy: string, origin: Disk, now: Disk)
    requires origin.intent.Some? && origin.intent.value.Staged?
  {
    var i := origin.intent.value;
    && now.intent == None
    && now.transcript == Conversation(i.messages) && WithoutPrompts(now.transcript, i.messages) == true
    && now.metadata.turns == |UserAt(i.messages)| && now.metadata.reconciled && now.metadata.incremental
    && now.metadata.session == i.session && now.metadata.created.Some? && SameSession(origin.metadata, now.metadata)
    && origin.log <= now.log
    && Events(r, legacy, now) == Marked(r, Events(r, legacy, origin), i.marker)
  }

  /** What the completed rewind means for readers: the marker's id is read exactly once if it
      was not read twice before, and every earlier record is still read, in order. */
  lemma ExactlyOnce(r: Reader, legacy: string, origin: Disk, now: Disk)
    requires origin.intent.Some? && origin.intent.value.Staged?
    requires Rewound(r, legacy, origin, now)
    requires Count(r, Events(r, legacy, origin), r.id(origin.intent.value.marker)) <= 1
    ensures Count(r, Events(r, legacy, now), r.id(origin.intent.value.marker)) == 1
    ensures Events(r, legacy, origin) <= Events(r, legacy, now)
  {
    var marker := origin.intent.value.marker;
    var before := Events(r, legacy, origin);
    CountPositive(r, before, r.id(marker));
    assert (before + [marker])[..|before|] == before;
  }

  /** A power loss may bring the removed intent back; the rewind is then under way again. */
  lemma UnlinkLost(r: Reader, legacy: string, origin: Disk, now: Disk)
    requires origin.intent.Some? && origin.intent.value.Staged?
    requires Rewound(r, legacy, origin, now)
    ensures Underway(r, legacy, origin, now.(intent := origin.intent))
  {
    assert Events(r, legacy, now.(intent := origin.intent)) == Events(r, legacy, now);
  }

  lemma NotMarkedYet(r: Reader, before: seq<string>, was: seq<string>, marker: string)
    requires was == before || was == Marked(r, before, marker)
    requires !HasId(r, was, r.id(marker))
    ensures was == before && Marked(r, before, marker) == before + [marker]
  {
    var longer := before + [marker];
    assert longer[|before|] == marker;
    assert HasId(r, longer, r.id(marker));
  }

  /** Appending any amount of the marker's line keeps the rewind under way. */
  lemma AppendKeeps(r: Reader, legacy: string, origin: Disk, was: Disk, now: Disk)
    requires origin.intent.Some? && origin.intent.value.Staged?
    requires Underway(r, legacy, origin, was) && now == was.(log := now.log)
    requires !HasId(r, Events(r, legacy, was), r.id(origin.intent.value.marker))
    requires was.log <= now.log
    requires ReadAll(r, now.log) == ReadAll(r, was.log)
             || ReadAll(r, now.log) == ReadAll(r, was.log) + [origin.intent.value.marker]
    ensures Underway(r, legacy, origin, now)
    ensures ReadAll(r, now.log) == ReadAll(r, was.log) + [origin.intent.value.marker] ==>
              Events(r, legacy, now) == Marked(r, Events(r, legacy, origin), origin.intent.value.marker)
  {
    var marker := origin.intent.value.marker;
    NotMarkedYet(r, Events(r, legacy, origin), Events(r, legacy, was), marker);
    Sequences.Assoc(ReadAll(r, legacy), ReadAll(r, was.log), [marker]);
  }

  // ----- the store ----------------------------------------------------------------------------

  class SessionStore {
    const reader: Reader
    const session: string
    const legacy: string
    var transcript: seq<Message>
    var backup: seq<Message>
    var metadata: Metadata
    var log: string
    var intent: Option<Intent>
    var interrupted: bool
    var failed: bool

    function Here(): Disk
      reads this
    {
      Disk(transcript, backup, metadata, log, intent)
    }

    ghost predicate Valid()
      reads this
    {
      && Strict(reader)
      && (intent.Some? && intent.value.Staged? ==> Dumped(reader, intent.value.marker))
      && (intent.Some? && intent.value.Staged? ==>
            Conversation(intent.value.messages) == intent.value.messages)
    }

    constructor (reader: Reader, session: string, legacy: string, disk: Disk)
      ensures this.reader == reader && this.session == session && this.legacy == legacy && Here() == disk
    {
      this.reader, this.session, this.legacy := reader, session, legacy;
      transcript, backup, metadata := disk.transcript, disk.backup, disk.metadata;
      log, intent := disk.log, disk.intent;
      interrupted, failed := false, false;
    }

    /** Stage a rewind; the file is replaced in one step. */
    method BeginRewindIntent(marker: string, messages: seq<Message>, ready: bool)
      requires Valid() && Dumped(reader, marker)
      modifies this`intent
      ensures Valid()
      ensures intent == Some(Staged(session, marker, Conversation(messages), ready))
      ensures WithoutPrompts(intent.value.messages, messages)
    {
      OnlyPromptsGo(messages);
      var safe: seq<Message> := [];
      for i := 0 to |messages|
        invariant safe == Conversation(messages[..i])
      {
        assert messages[..i + 1][..i] == messages[..i];
        if messages[i].role !in {System, Developer} {
          safe := safe + [messages[i]];
        }
      }
      assert messages[..|messages|] == messages;
      ConversationIdempotent(messages);
      intent := Some(Staged(session, marker, safe, ready));
    }

    /** Only a staged intent of this session that was not cancelled can be armed. */
    method ArmRewindIntent() returns (ok: bool)
      requires Valid()
      modifies this`intent
      ensures Valid()
      ensures ok == (old(intent).Some? && old(intent).value.Staged? && old(intent).value.session == session)
      ensures intent == if ok then Some(old(intent).value.(ready := true)) else old(intent)
    {
      if intent == None || intent.value.session != session { return false; }
      if intent.value.Cancelled? { return false; }
      intent := Some(intent.value.(ready := true));
      ok := true;
    }

    /** The cancellation is durable before the file goes; an exit or a failed unlink leaves it. */
    method CancelRewindIntent()
      requires Valid()
      modifies this`intent
      ensures Valid()
      ensures intent == None || intent == Some(Cancelled(session))
    {
      if intent == None { return; }
      intent := Some(Cancelled(session));
      if * { return; }
      intent := None;
    }

    /** The OS takes any number of characters at a time; the process may be gone after each write. */
    method WriteAll(payload: string, steady: bool) returns (done: bool)
      modifies this`log
      ensures done ==> log == old(log) + payload
      ensures steady ==> done
      ensures exists k :: 0 <= k <= |payload| && log == old(log) + payload[..k]
    {
      var remaining, k := payload, 0;
      assert payload[..0] == [];
      while remaining != ""
        invariant 0 <= k <= |payload| && remaining == payload[k..] && log == old(log) + payload[..k]
        decreases |remaining|
      {
        if !steady { if * { return false; } }
        var written :| 1 <= written <= |remaining|;
        log := log + remaining[..written];
        assert payload[..k] + payload[k..][..written] == payload[..k + written];
        remaining, k := remaining[written..], k + written;
      }
      done := true;
      assert payload[..k] == payload;
    }

    /** Durably append one record on a line of its own.  However it ends, the records already
        readable are read as before, followed by the new one or not. */
    method AppendEventCritical(line: string, steady: bool) returns (done: bool)
      requires Strict(reader) && reader.accepts(line) && OneLine(line)
      modifies this`log
      ensures old(log) <= log
      ensures ReadAll(reader, log) == ReadAll(reader, old(log))
              || ReadAll(reader, log) == ReadAll(reader, old(log)) + [line]
      ensures done ==> ReadAll(reader, log) == ReadAll(reader, old(log)) + [line]
      ensures done ==> Last(log) == ""
      ensures steady ==> done
    {
      if log != "" && log[|log| - 1] != '\n' {
        done := EndTornLine(steady);
        if !done { return; }
      }
      done := AppendLine(line, steady);
    }

    /** Keep an interrupted last line apart from what follows. */
    method EndTornLine(steady: bool) returns (done: bool)
      modifies this`log
      ensures old(log) <= log && ReadAll(reader, log) == ReadAll(reader, old(log))
      ensures done ==> Last(log) == ""
      ensures steady ==> done
    {
      ghost var torn := log;
      done := WriteAll("\n", steady);
      EolKeeps(reader, torn);
      ghost var k :| 0 <= k <= 1 && log == torn + "\n"[..k];
      assert k == 0 ==> torn + "\n"[..k] == torn;
      assert k == 1 ==> torn + "\n"[..k] == torn + "\n";
    }

    /** The record and its newline, after a finished line. */
    method AppendLine(line: string, steady: bool) returns (done: bool)
      requires Strict(reader) && reader.accepts(line) && OneLine(line) && Last(log) == ""
      modifies this`log
      ensures old(log) <= log
      ensures ReadAll(reader, log) == ReadAll(reader, old(log))
              || ReadAll(reader, log) == ReadAll(reader, old(log)) + [line]
      ensures done ==> ReadAll(reader, log) == ReadAll(reader, old(log)) + [line] && Last(log) == ""
      ensures steady ==> done
    {
      ghost var base := log;
      done := WriteAll(line + "\n", steady);
      ghost var k :| 0 <= k <= |line| + 1 && log == base + (line + "\n")[..k];
      PayloadTorn(reader, base, line, k);
      PayloadWhole(reader, base, line);
      if !steady { if * { done := false; } }
    }

    /** Transcript then metadata, each replaced atomically after a copy of the old one. */
    method Save(messages: seq<Message>, data: Metadata, steady: bool) returns (done: bool)
      modifies this`transcript, this`backup, this`metadata
      ensures transcript == old(transcript) || transcript == Conversation(messages)
      ensures metadata == old(metadata) || metadata == data
      ensures backup == old(backup) || backup == old(transcript)
      ensures done ==> transcript == Conversation(messages) && metadata == data
      ensures done ==> WithoutPrompts(transcript, messages) == true
      ensures done ==> backup == old(transcript)
      ensures steady ==> done
    {
      OnlyPromptsGo(messages);
      var lines: seq<Message> := [];
      for i := 0 to |messages|
        invariant lines == Conversation(messages[..i])
      {
        assert messages[..i + 1][..i] == messages[..i];
        if messages[i].role !in {System, Developer} {
          lines := lines + [messages[i]];
        }
      }
      assert messages[..|messages|] == messages;
      backup := transcript;
      if !steady { if * { return false; } }
      transcript := lines;
      if !steady { if * { return false; } }
      metadata := data;
      done := true;
    }

    /** Finish a staged rewind.  Unless steady, the process may go at any point, or a write may
        raise: both are Exited here.  origin is the disk the first attempt found. */
    method ReconcileRewindIntent(ghost origin: Disk, now: string, steady: bool) returns (outcome: Outcome)
      requires Valid()
      requires Applicable(reader, session, intent) ==>
                 origin.intent == intent && Underway(reader, legacy, origin, Here())
      modifies this
      ensures Valid()
      ensures outcome == NoIntent <==> old(intent) == None
      ensures steady ==> outcome != Exited
      ensures !Applicable(reader, session, old(intent)) ==>
                Here() == old(Here()).(intent := if outcome.Settled? then None else old(intent))
      ensures !Applicable(reader, session, old(intent)) && outcome.Settled? ==>
                old(intent).value.Cancelled? || !old(intent).value.ready
      ensures outcome == NoIntent ==> Here() == old(Here())
      ensures Applicable(reader, session, old(intent)) ==> outcome in {Settled, Exited}
      ensures Applicable(reader, session, old(intent)) && outcome.Exited? ==>
                Underway(reader, legacy, origin, Here())
      ensures Applicable(reader, session, old(intent)) && outcome.Settled? ==>
                Rewound(reader, legacy, origin, Here())
      ensures outcome.Settled? && old(intent).value.Staged? && !old(intent).value.ready ==> interrupted
    {
      if intent == None { return NoIntent; }
      var raw := intent.value;
      if raw.session != session { return Raised; }
      if raw.Cancelled? {
        if !steady { if * { return Exited; } }
        intent := None;
        return Settled;
      }
      if !raw.ready {
        if !steady { if * { return Exited; } }
        intent := None;
        interrupted := true;
        return Settled;
      }
      var id := reader.id(raw.marker);
      if reader.kind(raw.marker) != Some(MARKER_KIND) || id == None || id.value == "" { return Raised; }

      outcome := CompleteArmed(origin, now, steady);
    }

    /** The armed half: save the conversation, make sure the marker is in the log, then drop the intent. */
    method CompleteArmed(ghost origin: Disk, now: string, steady: bool) returns (outcome: Outcome)
      requires Valid() && Applicable(reader, session, intent)
      requires origin.intent == intent && Underway(reader, legacy, origin, Here())
      modifies this
      ensures Valid()
      ensures outcome in {Settled, Exited} && (steady ==> outcome.Settled?)
      ensures outcome.Exited? ==> Underway(reader, legacy, origin, Here())
      ensures outcome.Settled? ==> Rewound(reader, legacy, origin, Here())
    {
      var raw := intent.value;
      var created := if metadata.created == None then Some(now) else metadata.created;
      var data := Metadata(session, created, UserTurns(raw.messages), true, true, metadata.others);
      TurnsCounted(raw.messages);
      var saved := Save(raw.messages, data, steady);
      if !saved { return Exited; }
      if !steady { if * { return Exited; } }
      var marked := EnsureMarker(origin, steady);
      if !marked { return Exited; }
      if !steady { if * { return Exited; } }
      intent := None;
      failed := false;
      outcome := Settled;
    }

    /** Append the marker unless its id is read already; the re-read after the append finds it. */
    method EnsureMarker(ghost origin: Disk, steady: bool) returns (done: bool)
      requires Valid() && Applicable(reader, session, intent)
      requires origin.intent == intent && Underway(reader, legacy, origin, Here())
      modifies this`log
      ensures steady ==> done
      ensures Underway(reader, legacy, origin, Here())
      ensures done ==>
                Events(reader, legacy, Here()) == Marked(reader, Events(reader, legacy, origin), intent.value.marker)
      ensures done ==> HasId(reader, Events(reader, legacy, Here()), reader.id(intent.value.marker))
    {
      var marker := intent.value.marker;
      var id := reader.id(marker);
      done := HasId(reader, ReadAll(reader, legacy) + ReadAll(reader, log), id);
      if !done {
        ghost var before := Here();
        done := AppendEventCritical(marker, steady);
        AppendKeeps(reader, legacy, origin, before, Here());
        LastHasId(reader, ReadAll(reader, legacy), ReadAll(reader, before.log), marker);
      }
    }

    /** Opening the session again after every exit: after any number of attempts cut short at
        any points, one that is left alone completes the rewind, once. */
    method Restarts(attempts: nat, now: string)
      requires Valid() && Applicable(reader, session, intent)
      modifies this
      ensures Valid()
      ensures Rewound(reader, legacy, old(Here()), Here())
    {
      ghost var origin := Here();
      var settled := false;
      for i := 0 to attempts
        invariant Valid()
        invariant !settled ==> Underway(reader, legacy, origin, Here())
        invariant settled ==> Rewound(reader, legacy, origin, Here())
      {
        var outcome := ReconcileRewindIntent(origin, now, false);
        settled := settled || outcome.Settled?;
      }
      var last := ReconcileRewindIntent(origin, now, true);
    }

    /** An intent that is never armed, or is cancelled before the session is opened again, is never
        applied: whatever else is staged, armed, cancelled and reconciled, with exits anywhere, no
        conversation and no log changes. */
    method Abandoned(commands: seq<Command>, now: string)
      requires Valid()
      requires forall i | 0 <= i < |commands| && commands[i].Stage? :: Dumped(reader, commands[i].marker)
      requires Harmless(commands, StandingOf(intent))
      modifies this
      ensures Valid()
      ensures Here() == old(Here()).(intent := intent)
    {
      ghost var standing := StandingOf(intent);
      assert commands[0..] == commands;
      for i := 0 to |commands|
        invariant Valid()
        invariant Here() == old(Here()).(intent := intent)
        invariant Harmless(commands[i..], standing) && AtMost(intent, standing)
      {
        assert commands[i..][0] == commands[i] && commands[i..][1..] == commands[i + 1..];
        match commands[i] {
          case Stage(marker, messages, ready) =>
            BeginRewindIntent(marker, messages, ready);
          case Arm =>
            var ok := ArmRewindIntent();
          case Cancel =>
            CancelRewindIntent();
          case Restart =>
            var outcome := ReconcileRewindIntent(Here(), now, false);
        }
        standing := Advance(standing, commands[i]);
      }
    }
  }

  datatype Command = Stage(marker: string, messages: seq<Message>, ready: bool) | Arm | Cancel | Restart

  /** How far a rewind has come: nothing to apply, staged and waiting for its other half, or armed. */
  datatype Standing = Nothing | Waiting | Live

  function StandingOf(intent: Option<Intent>): Standing {
    if intent == None || intent.value.Cancelled? then Nothing else if intent.value.ready then Live else Waiting
  }

  function Advance(st: Standing, c: Command): Standing {
    match c
    case Stage(_, _, ready) => if ready then Live else Waiting
    case Arm => if st.Nothing? then Nothing else Live
    case Cancel => Nothing
    case Restart => st
  }

  /** The session is never opened again while a rewind is armed. */
  predicate Harmless(commands: seq<Command>, st: Standing) {
    commands == [] || ((commands[0].Restart? ==> !st.Live?) && Harmless(commands[1..], Advance(st, commands[0])))
  }

  /** A rewind staged without its other half and never armed is harmless. */
  lemma {:induction false} NeverArmed(commands: seq<Command>, st: Standing)
    requires !st.Live?
    requires forall i | 0 <= i < |commands| :: !commands[i].Arm? && (commands[i].Stage? ==> !commands[i].ready)
    ensures Harmless(commands, st)
  {
    if commands != [] {
      assert !commands[0].Arm?;
      NeverArmed(commands[1..], Advance(st, commands[0]));
    }
  }

  /** Whatever was staged and armed since the session was opened, a cancellation ends it: what
      follows is as harmless as if nothing had been staged. */
  lemma {:induction false} CancelledInTime(during: seq<Command>, rest: seq<Command>, st: Standing)
    requires forall i | 0 <= i < |during| :: !during[i].Restart?
    ensures Harmless(during + [Cancel] + rest, st) <==> Harmless(rest, Nothing)
  {
    if during == [] {
      assert during + [Cancel] + rest == [Cancel] + rest;
      assert ([Cancel] + rest)[1..] == rest;
    } else {
      assert !during[0].Restart?;
      assert (during + [Cancel] + rest)[1..] == during[1..] + [Cancel] + rest;
      CancelledInTime(during[1..], rest, Advance(st, during[0]));
    }
  }

  predicate AtMost(intent: Option<Intent>, st: Standing) {
    && (st.Nothing? ==> StandingOf(intent).Nothing?)
    && (st.Waiting? ==> !StandingOf(intent).Live?)
  }

  lemma LastHasId(r: Reader, a: seq<string>, b: seq<string>, marker: string)
    ensures HasId(r, a + (b + [marker]), r.id(marker))
  {
    var events := a + (b + [marker]);
    assert events[|events| - 1] == marker;
  }

  /** Any part of the payload that reached the file. */
  lemma PayloadTorn(r: Reader, base: string, line: string, k: nat)
    requires Strict(r) && r.accepts(line) && OneLine(line) && Last(base) == "" && k <= |line| + 1
    ensures var now := ReadAll(r, base + (line + "\n")[..k]);
            now == ReadAll(r, base) || now == ReadAll(r, base) + [line]
  {
    if k <= |line| {
      assert (line + "\n")[..k] == line[..k];
      TornAppend(r, base, line, k);
      Sequences.EmptyRight(ReadAll(r, base));
    } else {
      assert (line + "\n")[..k] == line + "\n";
      PayloadWhole(r, base, line);
    }
  }

  lemma PayloadWhole(r: Reader, base: string, line: string)
    requires Strict(r) && r.accepts(line) && OneLine(line) && Last(base) == ""
    ensures ReadAll(r, base + (line + "\n")) == ReadAll(r, base) + [line]
    ensures Last(base + (line + "\n")) == ""
  {
    Sequences.Whole(line);
    TornAppend(r, base, line, |line|);
    EolKeeps(r, base + line);
    Sequences.Assoc(base, line, "\n");
  }
}
