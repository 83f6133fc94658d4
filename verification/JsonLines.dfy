/** The text of an append-only log of JSON objects, one to a line, as its readers see it
    (kernel/persistence.py).  A record is identified with the text of its line. */
module JsonLines {
  import opened Collections

  // ----- the bracket structure of a JSON text, sections 2 to 7 of RFC 8259 -------------------

  /** One character of a string: plain, or a backslash and what it escapes. */
  datatype Piece = Plain(c: char) | Escape(c: char)

  /** A quoted string, a bracketed group, or a stretch of literals, separators and white space.
      Every JSON value is made of these; so is much that is no JSON value. */
  datatype Node = Gap(text: string) | Quoted(pieces: seq<Piece>) | Group(open: char, body: Body, close: char)
  datatype Body = Nil | Cons(head: Node, tail: Body)

  predicate Opens(c: char) { c == '{' || c == '[' }
  predicate Closes(c: char) { c == '}' || c == ']' }
  predicate Structural(c: char) { c == '"' || Opens(c) || Closes(c) }

  predicate PieceOk(p: Piece) { p.Plain? ==> p.c != '"' && p.c != '\\' }

  predicate NodeOk(n: Node) {
    match n
    case Gap(text) => forall i | 0 <= i < |text| :: !Structural(text[i])
    case Quoted(pieces) => forall i | 0 <= i < |pieces| :: PieceOk(pieces[i])
    case Group(open, body, close) => Opens(open) && Closes(close) && BodyOk(body)
  }

  predicate BodyOk(b: Body) { b.Cons? ==> NodeOk(b.head) && BodyOk(b.tail) }

  function PiecesText(ps: seq<Piece>): string {
    if ps == [] then ""
    else (if ps[0].Plain? then [ps[0].c] else ['\\', ps[0].c]) + PiecesText(ps[1..])
  }

  function NodeText(n: Node): string {
    match n
    case Gap(text) => text
    case Quoted(pieces) => "\"" + PiecesText(pieces) + "\""
    case Group(open, body, close) => [open] + BodyText(body) + [close]
  }

  function BodyText(b: Body): string {
    if b.Nil? then "" else NodeText(b.head) + BodyText(b.tail)
  }

  /** Necessary for a text to be a JSON object. */
  ghost predicate IsObject(s: string) {
    exists b :: BodyOk(b) && s == NodeText(Group('{', b, '}'))
  }

  // ----- reading such a text left to right ---------------------------------------------------

  datatype Scan = Scan(depth: int, quoted: bool, escaped: bool)

  function Next(st: Scan, c: char): Scan {
    if st.quoted then
      if st.escaped then st.(escaped := false)
      else if c == '\\' then st.(escaped := true)
      else if c == '"' then st.(quoted := false)
      else st
    else if c == '"' then st.(quoted := true)
    else if Opens(c) then st.(depth := st.depth + 1)
    else if Closes(c) then st.(depth := st.depth - 1)
    else st
  }

  function Over(st: Scan, s: string): Scan
    decreases |s|
  {
    if s == "" then st else Over(Next(st, s[0]), s[1..])
  }

  /** No prefix leaves fewer than d groups open. */
  predicate Within(st: Scan, s: string, d: int)
    decreases |s|
  {
    st.depth >= d && (s == "" || Within(Next(st, s[0]), s[1..], d))
  }

  lemma {:induction false} OverConcat(st: Scan, a: string, b: string, d: int)
    ensures Over(st, a + b) == Over(Over(st, a), b)
    ensures Within(st, a, d) && Within(Over(st, a), b, d) ==> Within(st, a + b, d)
    decreases |a|
  {
    if a == "" {
      assert a + b == b;
    } else {
      assert (a + b)[1..] == a[1..] + b;
      OverConcat(Next(st, a[0]), a[1..], b, d);
    }
  }

  lemma {:induction false} WithinPrefix(st: Scan, s: string, d: int, i: nat)
    requires Within(st, s, d) && i <= |s|
    ensures Over(st, s[..i]).depth >= d
    decreases |s|
  {
    if i > 0 {
      assert s[..i][1..] == s[1..][..i - 1];
      WithinPrefix(Next(st, s[0]), s[1..], d, i - 1);
    }
  }

  lemma {:induction false} GapStays(st: Scan, s: string)
    requires !st.quoted && forall i | 0 <= i < |s| :: !Structural(s[i])
    ensures Over(st, s) == st && Within(st, s, st.depth)
  {
    if s != "" {
      assert !Structural(s[0]);
      assert forall i | 0 <= i < |s[1..]| :: s[1..][i] == s[i + 1];
      GapStays(st, s[1..]);
    }
  }

  lemma {:induction false} PiecesStay(st: Scan, ps: seq<Piece>)
    requires st.quoted && !st.escaped && forall i | 0 <= i < |ps| :: PieceOk(ps[i])
    ensures Over(st, PiecesText(ps)) == st && Within(st, PiecesText(ps), st.depth)
  {
    if ps != [] {
      var first := if ps[0].Plain? then [ps[0].c] else ['\\', ps[0].c];
      assert PieceOk(ps[0]);
      PiecesStay(st, ps[1..]);
      if ps[0].Escape? {
        assert first[1..] == [ps[0].c];
        assert Over(Next(st, '\\'), [ps[0].c]) == st;
      }
      assert Over(st, first) == st && Within(st, first, st.depth);
      OverConcat(st, first, PiecesText(ps[1..]), st.depth);
    }
  }

  /** A value closes whatever it opens and never reaches below where it started. */
  lemma {:induction false} NodeBalanced(st: Scan, n: Node)
    requires NodeOk(n) && !st.quoted && !st.escaped
    ensures Over(st, NodeText(n)) == st && Within(st, NodeText(n), st.depth)
    decreases n
  {
    match n
    case Gap(text) => GapStays(st, text);
    case Quoted(pieces) =>
      var inside := st.(quoted := true);
      PiecesStay(inside, pieces);
      assert Over(inside, "\"") == st && Over(st, "\"") == inside;
      OverConcat(inside, PiecesText(pieces), "\"", st.depth);
      OverConcat(st, "\"", PiecesText(pieces) + "\"", st.depth);
      assert NodeText(n) == "\"" + (PiecesText(pieces) + "\"");
    case Group(open, body, close) =>
      var inside := st.(depth := st.depth + 1);
      BodyBalanced(inside, body);
      WithinLower(inside, BodyText(body), inside.depth, st.depth);
      assert Over(inside, [close]) == st && Within(inside, [close], st.depth);
      OverConcat(inside, BodyText(body), [close], st.depth);
      assert Over(st, [open]) == inside;
      OverConcat(st, [open], BodyText(body) + [close], st.depth);
      assert NodeText(n) == [open] + (BodyText(body) + [close]);
  }

  lemma {:induction false} BodyBalanced(st: Scan, b: Body)
    requires BodyOk(b) && !st.quoted && !st.escaped
    ensures Over(st, BodyText(b)) == st && Within(st, BodyText(b), st.depth)
    decreases b
  {
    if b.Cons? {
      NodeBalanced(st, b.head);
      BodyBalanced(st, b.tail);
      OverConcat(st, NodeText(b.head), BodyText(b.tail), st.depth);
    }
  }

  lemma {:induction false} WithinLower(st: Scan, s: string, d: int, e: int)
    requires Within(st, s, d) && e <= d
    ensures Within(st, s, e)
    decreases |s|
  {
    if s != "" {
      WithinLower(Next(st, s[0]), s[1..], d, e);
    }
  }

  /** An object is open until its last character. */
  lemma ObjectDepth(whole: string, part: string)
    requires IsObject(whole) && "" < part < whole
    ensures Over(Scan(0, false, false), part).depth >= 1
  {
    var b :| BodyOk(b) && whole == NodeText(Group('{', b, '}'));
    var inside := Scan(1, false, false);
    BodyBalanced(inside, b);
    WithinPrefix(inside, BodyText(b), 1, |part| - 1);
    assert part == whole[..|part|];
    assert part[1..] == BodyText(b)[..|part| - 1];
  }

  /** Section 4 of RFC 8259: a proper prefix of an object is never an object. */
  lemma NoObjectInside(whole: string, part: string)
    requires IsObject(whole) && part < whole
    ensures !IsObject(part)
  {
    if IsObject(part) {
      var b :| BodyOk(b) && part == NodeText(Group('{', b, '}'));
      NodeBalanced(Scan(0, false, false), Group('{', b, '}'));
      ObjectEnds(part);
      ObjectDepth(whole, part);
    }
  }

  lemma ObjectEnds(s: string)
    requires IsObject(s)
    ensures |s| >= 2 && s[0] == '{' && s[|s| - 1] == '}'
  {
    var b :| BodyOk(b) && s == NodeText(Group('{', b, '}'));
    assert s == ['{'] + BodyText(b) + ['}'];
  }

  // ----- lines -------------------------------------------------------------------------------

  predicate IsEol(c: char) { c == '\n' || c == '\r' }

  predicate OneLine(s: string) { forall i | 0 <= i < |s| :: !IsEol(s[i]) }

  /** What Python's str.strip removes. */
  predicate IsSpace(c: char) {
    || '\t' <= c <= '\r' || '\U{1C}' <= c <= ' ' || c == '\U{85}' || c == '\U{A0}' || c == '\U{1680}'
    || '\U{2000}' <= c <= '\U{200A}' || c == '\U{2028}' || c == '\U{2029}' || c == '\U{202F}'
    || c == '\U{205F}' || c == '\U{3000}'
  }

  function TrimLeft(s: string): string {
    if s != "" && IsSpace(s[0]) then TrimLeft(s[1..]) else s
  }

  function TrimRight(s: string): string {
    if s != "" && IsSpace(s[|s| - 1]) then TrimRight(s[..|s| - 1]) else s
  }

  function Strip(s: string): string { TrimRight(TrimLeft(s)) }

  /** The JSON reader: which stripped lines are objects with a string kind, and two of their fields. */
  datatype Reader = Reader(accepts: string -> bool, kind: string -> Option<string>, id: string -> Option<string>)

  ghost predicate Strict(r: Reader) {
    forall s | r.accepts(s) :: IsObject(s)
  }

  function ReadLine(r: Reader, line: string): seq<string> {
    var t := Strip(line);
    if t != "" && r.accepts(t) then [t] else []
  }

  /** The unfinished last line. */
  function Last(s: string): string {
    if s == "" then ""
    else if IsEol(s[|s| - 1]) then ""
    else Last(s[..|s| - 1]) + [s[|s| - 1]]
  }

  /** The records on finished lines. */
  function Closed(r: Reader, s: string): seq<string> {
    if s == "" then []
    else if IsEol(s[|s| - 1]) then Closed(r, s[..|s| - 1]) + ReadLine(r, Last(s[..|s| - 1]))
    else Closed(r, s[..|s| - 1])
  }

  /** Every record of the file, oldest first; the last line need not be finished. */
  function ReadAll(r: Reader, s: string): seq<string>
  {
    Closed(r, s) + ReadLine(r, Last(s))
  }

  // ----- appending ---------------------------------------------------------------------------

  lemma EolKeeps(r: Reader, s: string)
    ensures ReadAll(r, s + "\n") == ReadAll(r, s)
    ensures Last(s + "\n") == ""
  {
    assert (s + "\n")[..|s|] == s;
  }

  lemma {:induction false} LastAppend(r: Reader, s: string, t: string)
    requires OneLine(t)
    ensures Last(s + t) == Last(s) + t && Closed(r, s + t) == Closed(r, s)
  {
    if t == "" {
      assert s + t == s;
    } else {
      var n := |t| - 1;
      assert (s + t)[..|s| + n] == s + t[..n];
      assert (s + t)[|s| + n] == t[n];
      LastAppend(r, s, t[..n]);
      assert !IsEol(t[n]);
      assert Last(s) + t[..n] + [t[n]] == Last(s) + t;
    }
  }

  lemma {:induction false} TrimRightShorter(s: string)
    ensures TrimRight(s) <= s
  {
    if s != "" && IsSpace(s[|s| - 1]) {
      TrimRightShorter(s[..|s| - 1]);
    }
  }

  /** Whatever part of a record's line reached the file: all of it reads as the record, less
      reads as nothing. */
  lemma TornLine(r: Reader, line: string, k: nat)
    requires Strict(r) && r.accepts(line) && k <= |line|
    ensures ReadLine(r, line[..k]) == if k == |line| then [line] else []
  {
    ObjectEnds(line);
    if k == |line| {
      assert line[..k] == line;
    } else if k > 0 {
      assert TrimLeft(line[..k]) == line[..k];
      TrimRightShorter(line[..k]);
      NoObjectInside(line, Strip(line[..k]));
    }
  }

  /** A tear of an appended record, where the file was empty or ended its last line. */
  lemma TornAppend(r: Reader, s: string, line: string, k: nat)
    requires Strict(r) && r.accepts(line) && OneLine(line)
    requires Last(s) == ""
    requires k <= |line|
    ensures ReadAll(r, s + line[..k]) == ReadAll(r, s) + if k == |line| then [line] else []
  {
    var t := line[..k];
    LastAppend(r, s, t);
    TornLine(r, line, k);
    assert Last(s) + t == t;
  }

  // ----- the best-effort append, which does not isolate an unfinished line ----------------------

  predicate Blank(s: string) { TrimLeft(s) == "" }

  lemma {:induction false} TrimJoined(a: string, e: string)
    requires IsObject(e)
    ensures Strip(a + e) == TrimLeft(a) + e
  {
    ObjectEnds(e);
    if a != "" && IsSpace(a[0]) {
      assert (a + e)[1..] == a[1..] + e;
      TrimJoined(a[1..], e);
    } else if a == "" {
      assert a + e == e;
    } else {
      assert (a + e)[|a + e| - 1] == '}';
    }
  }

  /** The records before it and the appended one all read back exactly when the file's
      unfinished line is blank. */
  lemma PlainAppend(r: Reader, s: string, e: string)
    requires Strict(r) && r.accepts(e) && OneLine(e)
    ensures ReadAll(r, s + e + "\n") == ReadAll(r, s) + [e] <==> Blank(Last(s))
  {
    AppendedLine(r, s, e);
    JoinedLine(r, Last(s), e);
    AfterClosed(Closed(r, s), ReadLine(r, Last(s) + e), ReadLine(r, Last(s)), e);
  }

  lemma AppendedLine(r: Reader, s: string, e: string)
    requires OneLine(e)
    ensures ReadAll(r, s + e + "\n") == Closed(r, s) + ReadLine(r, Last(s) + e)
  {
    EolKeeps(r, s + e);
    LastAppend(r, s, e);
  }

  lemma JoinedLine(r: Reader, last: string, e: string)
    requires Strict(r) && r.accepts(e)
    ensures ReadLine(r, last + e) == ReadLine(r, last) + [e] <==> Blank(last)
  {
    ObjectEnds(e);
    TrimJoined(last, e);
    if Blank(last) {
      assert TrimLeft(last) + e == e;
    } else {
      assert |TrimLeft(last) + e| > |e|;
      assert |ReadLine(r, last + e)| <= 1;
      if |ReadLine(r, last + e)| == 1 { assert ReadLine(r, last + e)[0] != e; }
      if ReadLine(r, last) == [] { assert ReadLine(r, last) + [e] == [e]; }
    }
  }

  lemma AfterClosed(a: seq<string>, b: seq<string>, c: seq<string>, e: string)
    ensures a + b == a + c + [e] <==> b == c + [e]
  {
    assert (a + b)[|a|..] == b && (a + c + [e])[|a|..] == c + [e];
  }

  /** A record whose line was torn right before its end reads as present, until the next
      plain append: then neither of the two is read any more. */
  lemma TornNewlineLoses(r: Reader, s: string, line: string, e: string)
    requires Strict(r) && r.accepts(e) && OneLine(e) && r.accepts(line) && OneLine(line)
    requires Last(s) == ""
    ensures ReadAll(r, s + line) == ReadAll(r, s) + [line]
    ensures ReadAll(r, s + line + e + "\n") == ReadAll(r, s)
  {
    TornAppend(r, s, line, |line|);
    assert line[..|line|] == line;
    EolKeeps(r, s + line + e);
    LastAppend(r, s, line);
    LastAppend(r, s + line, e);
    assert Last(s + line) == line;
    TwoOnALine(r, line, e);
  }

  lemma TwoOnALine(r: Reader, line: string, e: string)
    requires Strict(r) && r.accepts(e) && r.accepts(line)
    ensures ReadLine(r, line + e) == []
  {
    ObjectEnds(line);
    ObjectEnds(e);
    TrimJoined(line, e);
    if r.accepts(line + e) {
      NoObjectInside(line + e, line);
    }
  }
}
