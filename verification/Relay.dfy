/** The relay's capture of workflow output (apps/relay-cli/src/relay-fixture.ts): lines cut out of
    chunks, the global numbering, and the file capture-run.ts reads back. */
module Relay {
  import opened Bytes
  import Manifest
  import R = Reducer

  // -------------------------------------------------------------------------
  // Lines
  // -------------------------------------------------------------------------

  /** String.prototype.trim: white space and line terminators of ECMAScript, sections 12.2 and 12.3. */
  predicate IsSpace(c: char) {
    || '\t' <= c <= '\r' || c == ' ' || c == '\U{A0}' || c == '\U{FEFF}' || c == '\U{2028}' || c == '\U{2029}'
    || c == '\U{1680}' || '\U{2000}' <= c <= '\U{200A}' || c == '\U{202F}' || c == '\U{205F}' || c == '\U{3000}'
  }

  /** By code point. */
  lemma SpaceIs(c: char)
    ensures IsSpace(c) <==>
            9 <= c as int <= 13 || c as int in {32, 160, 5760, 8232, 8233, 8239, 8287, 12288, 65279}
            || 8192 <= c as int <= 8202
  {
  }

  function TrimStart(s: string): string { if s != "" && IsSpace(s[0]) then TrimStart(s[1..]) else s }

  function TrimEnd(s: string): string { if s != "" && IsSpace(s[|s| - 1]) then TrimEnd(s[..|s| - 1]) else s }

  function Trim(s: string): string { TrimEnd(TrimStart(s)) }

  /** indexOf("\n"), or the length. */
  function Newline(s: string): (n: nat)
    ensures n <= |s| && (n < |s| ==> s[n] == '\n') && '\n' !in s[..n]
  {
    if s == "" || s[0] == '\n' then 0 else 1 + Newline(s[1..])
  }

  /** The newline-terminated lines of a text. */
  function Lines(text: string): seq<string>
    decreases |text|
  {
    var n := Newline(text);
    if n == |text| then [] else [text[..n]] + Lines(text[n + 1..])
  }

  /** What follows the last newline. */
  function Tail(text: string): string
    decreases |text|
  {
    var n := Newline(text);
    if n == |text| then text else Tail(text[n + 1..])
  }

  type Parser = string -> Option<R.RunEvent>

  /** A line that is not blank and parses is an event; the others are not. */
  function EventOf(parse: Parser, line: string): seq<R.RunEvent>
  {
    if Trim(line) == "" then [] else match parse(Trim(line)) case Some(e) => [e] case None => []
  }

  function EventsOf(parse: Parser, lines: seq<string>): seq<R.RunEvent>
  {
    if lines == [] then [] else EventOf(parse, lines[0]) + EventsOf(parse, lines[1..])
  }

  predicate IsEvent(parse: Parser, line: string) { Trim(line) != "" && parse(Trim(line)).Some? }

  /** These are the lines from the given one on that are events, in order. */
  predicate Picked(parse: Parser, lines: seq<string>, from: nat, ks: seq<nat>) {
    && (forall j | 0 <= j < |ks| :: from <= ks[j] < |lines| && IsEvent(parse, lines[ks[j]]))
    && (forall k | from <= k < |lines| && IsEvent(parse, lines[k]) :: k in ks)
    && (forall i, j | 0 <= i < j < |ks| :: ks[i] < ks[j])
  }

  /** The events of some lines are what those of them parse to, trimmed, that are not blank and do parse,
      in their order. */
  lemma {:induction false} EventsAre(parse: Parser, lines: seq<string>, from: nat) returns (ks: seq<nat>)
    requires from <= |lines|
    ensures Picked(parse, lines, from, ks) && Parsed(parse, lines, ks, EventsOf(parse, lines[from..]))
    decreases |lines| - from
  {
    hide IsEvent, Trim, EventsOf, Picked, Parsed;
    EventHead(parse, lines[from..]);
    if from == |lines| {
      ks := [];
      NonePicked(parse, lines);
    } else {
      ks := EventsAre(parse, lines, from + 1);
      assert lines[from..][1..] == lines[from + 1..] && lines[from..][0] == lines[from];
      PickNext(parse, lines, from, ks, EventsOf(parse, lines[from + 1..]));
      if IsEvent(parse, lines[from]) { ks := [from] + ks; }
    }
  }

  predicate Parsed(parse: Parser, lines: seq<string>, ks: seq<nat>, events: seq<R.RunEvent>) {
    && |events| == |ks|
    && forall j | 0 <= j < |ks| :: ks[j] < |lines| && parse(Trim(lines[ks[j]])) == Some(events[j])
  }

  lemma NonePicked(parse: Parser, lines: seq<string>)
    ensures Picked(parse, lines, |lines|, []) && Parsed(parse, lines, [], [])
  {
  }

  lemma PickNext(parse: Parser, lines: seq<string>, from: nat, ks: seq<nat>, events: seq<R.RunEvent>)
    requires from < |lines| && Picked(parse, lines, from + 1, ks) && Parsed(parse, lines, ks, events)
    ensures if IsEvent(parse, lines[from])
            then Picked(parse, lines, from, [from] + ks)
                 && Parsed(parse, lines, [from] + ks, [parse(Trim(lines[from])).value] + events)
            else Picked(parse, lines, from, ks)
  {
    hide Trim;
  }

  lemma EventHead(parse: Parser, lines: seq<string>)
    ensures EventsOf(parse, lines) ==
            if lines == [] then []
            else if IsEvent(parse, lines[0]) then [parse(Trim(lines[0])).value] + EventsOf(parse, lines[1..])
            else EventsOf(parse, lines[1..])
  {
  }

  /** Trimming cuts white space off both ends and nothing else. */
  lemma {:induction false} TrimSays(s: string) returns (i: nat, j: nat)
    ensures i <= j <= |s| && Trim(s) == s[i..j] && (forall k | 0 <= k < i || j <= k < |s| :: IsSpace(s[k]))
    ensures i < j ==> !IsSpace(s[i]) && !IsSpace(s[j - 1])
  {
    i := TrimsStart(s);
    var n := TrimsEnd(s[i..]);
    j := i + n;
    forall k | j <= k < |s| ensures IsSpace(s[k]) { assert s[k] == s[i..][k - i]; }
    assert i < j ==> s[i..][n - 1] == s[j - 1];
  }

  lemma {:induction false} TrimsStart(s: string) returns (i: nat)
    ensures i <= |s| && TrimStart(s) == s[i..] && (forall k | 0 <= k < i :: IsSpace(s[k]))
    ensures i < |s| ==> !IsSpace(s[i])
  {
    i := 0;
    if s != "" && IsSpace(s[0]) {
      var later := TrimsStart(s[1..]);
      i := later + 1;
      forall k | 0 <= k < i ensures IsSpace(s[k]) { if k > 0 { assert s[k] == s[1..][k - 1]; } }
    }
  }

  lemma {:induction false} TrimsEnd(s: string) returns (j: nat)
    ensures j <= |s| && TrimEnd(s) == s[..j] && (forall k | j <= k < |s| :: IsSpace(s[k]))
    ensures j > 0 ==> !IsSpace(s[j - 1])
  {
    j := |s|;
    if s != "" && IsSpace(s[|s| - 1]) {
      j := TrimsEnd(s[..|s| - 1]);
    }
  }

  function Text(chunks: seq<string>): string {
    if chunks == [] then "" else Text(chunks[..|chunks| - 1]) + chunks[|chunks| - 1]
  }

  /** The text is what the chunks join to. */
  lemma {:induction false} TextJoins(a: seq<string>, b: seq<string>, chunk: string)
    ensures Text(a + b) == Text(a) + Text(b) && Text([chunk]) == chunk
  {
    assert [chunk][..0] == [];
    if b == [] {
      assert a + b == a;
    } else {
      var n := |b| - 1;
      assert (a + b)[..|a + b| - 1] == a + b[..n];
      TextJoins(a, b[..n], chunk);
    }
  }

  lemma {:induction false} EventsAppend(parse: Parser, a: seq<string>, b: seq<string>)
    ensures EventsOf(parse, a + b) == EventsOf(parse, a) + EventsOf(parse, b)
  {
    if a == [] {
      assert a + b == b;
    } else {
      assert (a + b)[1..] == a[1..] + b;
      EventsAppend(parse, a[1..], b);
    }
  }

  lemma NewlineIn(s: string, t: string)
    ensures Newline(s) < |s| ==> Newline(s + t) == Newline(s)
    ensures Newline(s) == |s| ==> Newline(s + t) == |s| + Newline(t)
    decreases |s|
  {
    if s == "" {
      assert s + t == t;
    } else if s[0] != '\n' {
      assert (s + t)[1..] == s[1..] + t;
      NewlineIn(s[1..], t);
    }
  }

  /** Later text adds its lines to the tail of what came before. */
  lemma {:induction false} LinesAppend(s: string, t: string)
    ensures Lines(s + t) == Lines(s) + Lines(Tail(s) + t)
    ensures Tail(s + t) == Tail(Tail(s) + t)
    decreases |s|
  {
    hide Newline;
    var n := Newline(s);
    NewlineIn(s, t);
    if n < |s| {
      assert (s + t)[..n] == s[..n] && (s + t)[n + 1..] == s[n + 1..] + t;
      LinesAppend(s[n + 1..], t);
    }
  }

  lemma {:induction false} TailHasNoLine(s: string)
    ensures Lines(Tail(s)) == [] && Tail(Tail(s)) == Tail(s)
    decreases |s|
  {
    var n := Newline(s);
    if n < |s| { TailHasNoLine(s[n + 1..]); }
  }

  /** The handler's inner loop: takes complete lines off the buffer. */
  method TakeLines(parse: Parser, text: string) returns (events: seq<R.RunEvent>, buffer: string)
    ensures events == EventsOf(parse, Lines(text)) && buffer == Tail(text)
  {
    hide Lines, Tail, EventsOf, Trim, Newline;
    events, buffer := [], text;
    var nl := Newline(buffer);
    while nl < |buffer|
      invariant nl == Newline(buffer)
      invariant events + EventsOf(parse, Lines(buffer)) == EventsOf(parse, Lines(text))
      invariant Tail(buffer) == Tail(text)
      decreases |buffer|
    {
      var line := Trim(buffer[..nl]);
      FirstLine(parse, buffer);
      if line != "" {
        var parsed := parse(line);
        if parsed.Some? { events := events + [parsed.value]; }
      }
      buffer := buffer[nl + 1..];
      nl := Newline(buffer);
    }
    NoLineLeft(parse, buffer);
  }

  lemma FirstLine(parse: Parser, text: string)
    requires Newline(text) < |text|
    ensures var n := Newline(text);
            && EventsOf(parse, Lines(text)) == EventOf(parse, text[..n]) + EventsOf(parse, Lines(text[n + 1..]))
            && Tail(text) == Tail(text[n + 1..])
  {
    hide EventOf, Lines, Tail;
    LinesStep(text);
    var n := Newline(text);
    assert ([text[..n]] + Lines(text[n + 1..]))[1..] == Lines(text[n + 1..]);
  }

  lemma LinesStep(text: string)
    requires Newline(text) < |text|
    ensures var n := Newline(text);
            Lines(text) == [text[..n]] + Lines(text[n + 1..]) && Tail(text) == Tail(text[n + 1..])
  {
    hide Newline;
  }

  lemma NoLineLeft(parse: Parser, text: string)
    requires Newline(text) == |text|
    ensures EventsOf(parse, Lines(text)) == [] && Tail(text) == text
  {
  }

  /** However the output was cut into chunks, the events are those of the lines of the whole text; an
      unterminated last line is never read. */
  method RunWorkflow(parse: Parser, chunks: seq<string>) returns (events: seq<R.RunEvent>)
    ensures events == EventsOf(parse, Lines(Text(chunks)))
  {
    hide Lines, Tail, EventOf;
    events := [];
    var buffer := "";
    EmptyText(parse);
    for i := 0 to |chunks|
      invariant events == EventsOf(parse, Lines(Text(chunks[..i]))) && buffer == Tail(Text(chunks[..i]))
    {
      ghost var soFar := Text(chunks[..i]);
      assert chunks[..i + 1][..i] == chunks[..i];
      assert Text(chunks[..i + 1]) == soFar + chunks[i];
      LinesAppend(soFar, chunks[i]);
      buffer := buffer + chunks[i];
      EventsAppend(parse, Lines(soFar), Lines(buffer));
      var taken;
      taken, buffer := TakeLines(parse, buffer);
      events := events + taken;
    }
    assert chunks[..|chunks|] == chunks;
  }

  lemma EmptyText(parse: Parser)
    ensures EventsOf(parse, Lines("")) == [] && Tail("") == ""
  {
  }

  // -------------------------------------------------------------------------
  // Numbering
  // -------------------------------------------------------------------------

  function Renumbered(events: seq<R.RunEvent>): seq<R.RunEvent>
  {
    seq(|events|, i requires 0 <= i < |events| => events[i].(seq_ := i))
  }

  /** main's accumulation over the workflows and all.map((e, seq) => ({ ...e, seq })). */
  method Relayed(parse: Parser, outputs: seq<seq<string>>) returns (all: seq<R.RunEvent>)
    ensures |outputs| == 0 ==> all == []
    ensures all == Renumbered(Collected(parse, outputs))
    ensures Manifest.SeqRises(all)
  {
    all := [];
    for i := 0 to |outputs|
      invariant all == Collected(parse, outputs[..i])
    {
      var events := RunWorkflow(parse, outputs[i]);
      assert outputs[..i + 1][..i] == outputs[..i];
      all := all + events;
    }
    assert outputs[..|outputs|] == outputs;
    all := seq(|all|, i requires 0 <= i < |all| => all[i].(seq_ := i));
  }

  function Collected(parse: Parser, outputs: seq<seq<string>>): seq<R.RunEvent>
  {
    if outputs == [] then []
    else Collected(parse, outputs[..|outputs| - 1]) + EventsOf(parse, Lines(Text(outputs[|outputs| - 1])))
  }

  /** The relayed stream is a valid manifest exactly when there is something in it and no workflow's
      clock, nor the one after it, went back. */
  lemma RelayedIsValid(runId: string, events: seq<R.RunEvent>)
    ensures Manifest.ValidManifest(runId, Renumbered(events)) <==>
            runId != "" && events != [] && forall i, j | 0 <= i < j < |events| :: events[i].at <= events[j].at
  {
    var all := Renumbered(events);
    assert forall i | 0 <= i < |events| :: all[i].at == events[i].at;
    if Manifest.TimeRises(all) {
      forall i, j | 0 <= i < j < |events| ensures events[i].at <= events[j].at { assert all[i].at <= all[j].at; }
    }
  }

  // -------------------------------------------------------------------------
  // The file it writes
  // -------------------------------------------------------------------------

  /** join("\n") */
  function Joined(lines: seq<string>): string
  {
    if lines == [] then "" else if |lines| == 1 then lines[0] else lines[0] + "\n" + Joined(lines[1..])
  }

  function Shown(show: R.RunEvent -> string, events: seq<R.RunEvent>): seq<string>
  {
    seq(|events|, i requires 0 <= i < |events| => show(events[i]))
  }

  /** What the relay writes; without events a single newline. */
  function Written(show: R.RunEvent -> string, events: seq<R.RunEvent>): string { Joined(Shown(show, events)) + "\n" }

  /** What the coordinator's store appends instead, a line at a time. */
  function Appended(lines: seq<string>): string { if lines == [] then "" else lines[0] + "\n" + Appended(lines[1..]) }

  /** split("\n") */
  function SplitLines(text: string): seq<string> { Lines(text) + [Tail(text)] }

  /** capture-run's reader: lines that are not blank, parsed as they are; one that does not parse throws. */
  function ParsedLines(parse: Parser, lines: seq<string>): Option<seq<R.RunEvent>>
  {
    if lines == [] then Some([])
    else if Trim(lines[0]) == "" then ParsedLines(parse, lines[1..])
    else
      match parse(lines[0])
      case None => None
      case Some(e) => (match ParsedLines(parse, lines[1..]) case None => None case Some(rest) => Some([e] + rest))
  }

  function ReadEvents(parse: Parser, text: string): Option<seq<R.RunEvent>> { ParsedLines(parse, SplitLines(text)) }

  /** JSON text of an event: one line, not blank, and it parses back. */
  predicate Prints(show: R.RunEvent -> string, parse: Parser, e: R.RunEvent) {
    '\n' !in show(e) && Trim(show(e)) != "" && parse(show(e)) == Some(e)
  }

  lemma {:induction false} JoinedIsAppended(lines: seq<string>)
    requires lines != []
    ensures Joined(lines) + "\n" == Appended(lines)
  {
    if |lines| > 1 {
      JoinedIsAppended(lines[1..]);
      assert lines[0] + "\n" + Joined(lines[1..]) + "\n" == lines[0] + "\n" + (Joined(lines[1..]) + "\n");
    } else {
      assert lines[1..] == [] && lines[0] + "\n" + "" == lines[0] + "\n";
    }
  }

  lemma SplitStep(line: string, rest: string)
    requires '\n' !in line
    ensures SplitLines(line + "\n" + rest) == [line] + SplitLines(rest)
  {
    hide Newline, Lines, Tail;
    var text := line + "\n" + rest;
    NewlineAfter(line, rest);
    assert text[..|line|] == line && text[|line| + 1..] == rest;
    LinesStep(text);
    assert [line] + Lines(rest) + [Tail(rest)] == [line] + (Lines(rest) + [Tail(rest)]);
  }

  lemma {:induction false} SplitAppended(lines: seq<string>)
    requires forall line <- lines :: '\n' !in line
    ensures SplitLines(Appended(lines)) == lines + [""]
  {
    hide SplitLines;
    if lines == [] {
      NothingSplit();
    } else {
      SplitAppended(lines[1..]);
      assert lines[0] in lines;
      SplitStep(lines[0], Appended(lines[1..]));
      assert lines + [""] == [lines[0]] + (lines[1..] + [""]);
    }
  }

  lemma NothingSplit()
    ensures SplitLines("") == [""]
  {
  }

  lemma {:induction false} ParsesShown(show: R.RunEvent -> string, parse: Parser, events: seq<R.RunEvent>)
    requires forall e <- events :: Prints(show, parse, e)
    ensures ParsedLines(parse, Shown(show, events) + [""]) == Some(events)
  {
    hide Trim;
    var lines := Shown(show, events) + [""];
    if events == [] {
      assert lines[1..] == [] && Trim("") == "" by { BlankTrims(); }
    } else {
      assert Prints(show, parse, events[0]);
      ParsesShown(show, parse, events[1..]);
      assert lines[1..] == Shown(show, events[1..]) + [""];
      assert events == [events[0]] + events[1..];
    }
  }

  lemma BlankTrims()
    ensures Trim("") == ""
  {
  }

  /** events.ndjson, as the relay or the store wrote it, reads back as the events, none and all. */
  lemma WrittenReadsBack(show: R.RunEvent -> string, parse: Parser, events: seq<R.RunEvent>)
    requires forall e <- events :: Prints(show, parse, e)
    ensures ReadEvents(parse, Written(show, events)) == Some(events)
    ensures ReadEvents(parse, Appended(Shown(show, events))) == Some(events)
  {
    hide Trim, ParsedLines, SplitLines;
    var lines := Shown(show, events);
    forall line <- lines
      ensures '\n' !in line
    {
      var i :| 0 <= i < |lines| && lines[i] == line;
      assert Prints(show, parse, events[i]);
    }
    SplitAppended(lines);
    ParsesShown(show, parse, events);
    if events != [] {
      JoinedIsAppended(lines);
    } else {
      LoneNewline(parse);
    }
  }

  lemma LoneNewline(parse: Parser)
    ensures ReadEvents(parse, "" + "\n") == Some([])
  {
    var text := "" + "\n";
    LinesStep(text);
    assert text[1..] == "" && text[..0] == "";
    assert SplitLines(text) == ["", ""];
    assert ["", ""][1..] == [""] && [""][1..] == [];
    BlankTrims();
  }

  lemma NewlineAfter(line: string, rest: string)
    requires '\n' !in line
    ensures Newline(line + "\n" + rest) == |line|
  {
    NewlineIn(line, "\n" + rest);
    assert line + "\n" + rest == line + ("\n" + rest);
  }
}
