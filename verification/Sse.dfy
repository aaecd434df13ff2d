/** Framing turn events as server-sent events, and reading them back line by line. */
module Sse {
  import opened Wrappers
  import opened Text
  import opened Json

  const PREFIX := "data: "

  /** Everything that ends a line for the client's line splitter. */
  predicate Break(c: char) {
    || '\n' <= c <= '\r' || '\U{1c}' <= c <= '\U{1e}' || c == '\U{85}' || c == '\U{2028}' || c == '\U{2029}'
  }

  predicate Unbroken(s: string) {
    forall i :: 0 <= i < |s| ==> !Break(s[i])
  }

  function Frame(payload: string): string {
    PREFIX + payload + "\n" + "\n"
  }

  function Stream(payloads: seq<string>): string {
    if payloads == [] then "" else Frame(payloads[0]) + Stream(payloads[1..])
  }

  /** The line at the start of a text, and where the next one begins. */
  function LineEnd(s: string): (n: nat)
    ensures n <= |s| && Unbroken(s[..n]) && (n < |s| ==> Break(s[n]))
  {
    if s == "" || Break(s[0]) then 0
    else
      var n := LineEnd(s[1..]);
      assert s[..n + 1] == [s[0]] + s[1..][..n];
      n + 1
  }

  function AfterBreak(s: string, n: nat): (m: nat)
    requires n <= |s|
    ensures n <= m <= |s| && (n < |s| ==> n < m)
  {
    if n == |s| then n else if s[n] == '\r' && n + 1 < |s| && s[n + 1] == '\n' then n + 2 else n + 1
  }

  function Lines(s: string): seq<string>
    decreases |s|
  {
    if s == "" then [] else [s[..LineEnd(s)]] + Lines(s[AfterBreak(s, LineEnd(s))..])
  }

  /** What one line carries: nothing, or a payload. */
  function Carried(line: string): seq<string> {
    if PREFIX <= line && Strip(line[|PREFIX|..]) != "" then [Strip(line[|PREFIX|..])] else []
  }

  function Payloads(lines: seq<string>): seq<string> {
    if lines == [] then [] else Carried(lines[0]) + Payloads(lines[1..])
  }

  type Parser<E> = string -> Option<E>

  /** A line that does not parse is skipped. */
  function Parsed<E>(payloads: seq<string>, parse: Parser<E>): seq<E> {
    if payloads == [] then []
    else (match parse(payloads[0]) case Some(e) => [e] case None => []) + Parsed(payloads[1..], parse)
  }

  method ReceiveLine<E>(line: string, parse: Parser<E>) returns (events: seq<E>)
    ensures events == Parsed(Carried(line), parse)
  {
    events := [];
    if PREFIX <= line {
      var payload := Strip(line[|PREFIX|..]);
      if payload != "" {
        var e := parse(payload);
        ParsedOne(payload, parse);
        if e.Some? {
          events := [e.value];
        }
      }
    }
  }

  method StreamTurn<E>(body: string, parse: Parser<E>) returns (events: seq<E>)
    ensures events == Parsed(Payloads(Lines(body)), parse)
  {
    var lines := Lines(body);
    events := [];
    for i := 0 to |lines|
      invariant Parsed(Payloads(lines), parse) == events + Parsed(Payloads(lines[i..]), parse)
    {
      OneLine(lines, i, parse);
      var received := ReceiveLine(lines[i], parse);
      events := events + received;
    }
    assert lines[|lines|..] == [];
  }

  lemma OneLine<E>(lines: seq<string>, i: nat, parse: Parser<E>)
    requires i < |lines|
    ensures Parsed(Payloads(lines[i..]), parse) == Parsed(Carried(lines[i]), parse) + Parsed(Payloads(lines[i + 1..]), parse)
  {
    assert lines[i..][0] == lines[i] && lines[i..][1..] == lines[i + 1..];
    ParsedAppend(Carried(lines[i]), Payloads(lines[i + 1..]), parse);
  }

  lemma ParsedOne<E>(payload: string, parse: Parser<E>)
    ensures Parsed([payload], parse) == match parse(payload) case Some(e) => [e] case None => []
  {
    assert [payload][1..] == [];
  }

  lemma {:induction false} ParsedAppend<E>(xs: seq<string>, ys: seq<string>, parse: Parser<E>)
    ensures Parsed(xs + ys, parse) == Parsed(xs, parse) + Parsed(ys, parse)
  {
    if xs == [] {
      assert xs + ys == ys;
    } else {
      assert (xs + ys)[1..] == xs[1..] + ys;
      ParsedAppend(xs[1..], ys, parse);
    }
  }

  // Round trip

  lemma {:induction false} LineEndIs(line: string, rest: string)
    requires Unbroken(line) && rest != "" && Break(rest[0])
    ensures LineEnd(line + rest) == |line|
  {
    if line == "" {
      assert line + rest == rest;
    } else {
      assert (line + rest)[1..] == line[1..] + rest;
      LineEndIs(line[1..], rest);
    }
  }

  lemma LineThenRest(line: string, rest: string)
    requires Unbroken(line)
    ensures Lines(line + ("\n" + rest)) == [line] + Lines(rest)
  {
    var s := line + ("\n" + rest);
    LineEndIs(line, "\n" + rest);
    assert s[..|line|] == line && s[|line| + 1..] == rest;
  }

  lemma Regroup(a: string, n: string, rest: string)
    ensures a + n + n + rest == a + (n + (n + rest))
  {
  }

  lemma PrefixedLine(payload: string)
    requires Unbroken(payload)
    ensures Unbroken(PREFIX + payload)
  {
    UnbrokenParts(PREFIX, payload);
  }

  lemma FrameLines(payload: string, rest: string)
    requires Unbroken(payload)
    ensures Lines(Frame(payload) + rest) == [PREFIX + payload] + ([""] + Lines(rest))
  {
    PrefixedLine(payload);
    LineThenRest(PREFIX + payload, "\n" + rest);
    LineThenRest("", rest);
    assert "" + ("\n" + rest) == "\n" + rest;
    Regroup(PREFIX + payload, "\n", rest);
  }

  lemma CarriedLine(p: string)
    requires p != "" && Trimmed(p)
    ensures Carried(PREFIX + p) == [p] && Carried("") == []
  {
    StripTrimmed(p);
    assert (PREFIX + p)[|PREFIX|..] == p;
  }

  lemma PayloadsCons(line: string, rest: seq<string>)
    ensures Payloads([line] + rest) == Carried(line) + Payloads(rest)
  {
    assert ([line] + rest)[1..] == rest;
  }

  predicate Whole(payloads: seq<string>) {
    forall i :: 0 <= i < |payloads| ==> payloads[i] != "" && Trimmed(payloads[i])
  }

  predicate AllUnbroken(payloads: seq<string>) {
    forall i :: 0 <= i < |payloads| ==> Unbroken(payloads[i])
  }

  lemma FramePayloads(p: string, rest: string)
    requires p != "" && Trimmed(p) && Unbroken(p)
    ensures Payloads(Lines(Frame(p) + rest)) == [p] + Payloads(Lines(rest))
  {
    FrameLines(p, rest);
    CarriedLine(p);
    PayloadsCons(PREFIX + p, [""] + Lines(rest));
    PayloadsCons("", Lines(rest));
  }

  lemma {:induction false} UnbrokenStreamReads(payloads: seq<string>)
    requires Whole(payloads) && AllUnbroken(payloads)
    ensures Payloads(Lines(Stream(payloads))) == payloads
  {
    if payloads != [] {
      FramePayloads(payloads[0], Stream(payloads[1..]));
      UnbrokenStreamReads(payloads[1..]);
      assert [payloads[0]] + payloads[1..] == payloads;
    }
  }

  lemma {:induction false} LinesAreUnbroken(s: string)
    ensures AllUnbroken(Lines(s))
    decreases |s|
  {
    if s != "" {
      LinesAreUnbroken(s[AfterBreak(s, LineEnd(s))..]);
    }
  }

  lemma {:induction false} PayloadsAreUnbroken(lines: seq<string>)
    requires AllUnbroken(lines)
    ensures AllUnbroken(Payloads(lines))
  {
    if lines != [] {
      assert AllUnbroken(lines[1..]);
      PayloadsAreUnbroken(lines[1..]);
      if PREFIX <= lines[0] {
        var i, j := StripSpan(lines[0][|PREFIX|..]);
      }
    }
  }

  /** The stream comes through exactly when no payload contains a character that ends a line:
      one that does is never received as it was sent. */
  lemma StreamRoundTrip(payloads: seq<string>)
    requires Whole(payloads)
    ensures Payloads(Lines(Stream(payloads))) == payloads <==> AllUnbroken(payloads)
  {
    if AllUnbroken(payloads) {
      UnbrokenStreamReads(payloads);
    }
    LinesAreUnbroken(Stream(payloads));
    PayloadsAreUnbroken(Lines(Stream(payloads)));
  }

  /** So every event arrives, in order and as sent, if its text has no line ending in it. */
  lemma {:induction false} EventsArrive<E>(events: seq<E>, spell: E -> string, parse: Parser<E>)
    requires forall e :: e in events ==> parse(spell(e)) == Some(e) && spell(e) != "" && Trimmed(spell(e)) && Unbroken(spell(e))
    ensures Parsed(Payloads(Lines(Stream(Printed(events, spell)))), parse) == events
  {
    PrintedEach(events, spell);
    UnbrokenStreamReads(Printed(events, spell));
    ParsedPrinted(events, spell, parse);
  }

  function Printed<E>(events: seq<E>, spell: E -> string): (r: seq<string>)
    ensures |r| == |events|
  {
    if events == [] then [] else [spell(events[0])] + Printed(events[1..], spell)
  }

  lemma PrintedEach<E>(events: seq<E>, spell: E -> string)
    ensures forall i :: 0 <= i < |events| ==> Printed(events, spell)[i] == spell(events[i])
  {
    if events != [] {
      PrintedEach(events[1..], spell);
    }
  }

  lemma {:induction false} ParsedPrinted<E>(events: seq<E>, spell: E -> string, parse: Parser<E>)
    requires forall e :: e in events ==> parse(spell(e)) == Some(e)
    ensures Parsed(Printed(events, spell), parse) == events
  {
    if events != [] {
      assert events[0] in events;
      ParsedPrinted(events[1..], spell, parse);
    }
  }

  // What the serialiser leaves in

  predicate Leaks(c: char) {
    c == '\U{85}' || c == '\U{2028}' || c == '\U{2029}'
  }

  predicate NoLeak(text: string) {
    forall i :: 0 <= i < |text| ==> !Leaks(text[i])
  }

  /** No text or name anywhere in the value holds one of the three. */
  predicate LeakFree(j: Json)
    decreases j
  {
    match j
    case Str(text) => NoLeak(text)
    case Arr(items) => LeakFreeItems(items)
    case Obj(fields) => LeakFreeFields(fields)
    case _ => true
  }

  predicate LeakFreeItems(items: Items)
    decreases items
  {
    items.Item? ==> LeakFree(items.head) && LeakFreeItems(items.tail)
  }

  predicate LeakFreeFields(fields: Fields)
    decreases fields
  {
    fields.Field? ==> NoLeak(fields.name) && LeakFree(fields.value) && LeakFreeFields(fields.more)
  }

  lemma UnbrokenParts(a: string, b: string)
    ensures Unbroken(a + b) <==> Unbroken(a) && Unbroken(b)
  {
    var s := a + b;
    if Unbroken(s) {
      assert forall i :: 0 <= i < |a| ==> a[i] == s[i];
      assert forall i :: 0 <= i < |b| ==> b[i] == s[|a| + i];
    }
  }

  lemma EscapeBreaks(c: char)
    ensures Unbroken(Escape(AsIs, c)) <==> !Leaks(c)
  {
    if Leaks(c) {
      assert Break(Escape(AsIs, c)[0]);
    }
  }

  lemma {:induction false} CharsBreak(s: string, rest: string)
    ensures Unbroken(PutChars(AsIs, s, rest)) <==> NoLeak(s) && Unbroken(rest)
  {
    if s == "" {
      UnbrokenParts("\"", rest);
    } else {
      EscapeBreaks(s[0]);
      CharsBreak(s[1..], rest);
      UnbrokenParts(Escape(AsIs, s[0]), PutChars(AsIs, s[1..], rest));
      assert s == [s[0]] + s[1..];
    }
  }

  lemma TextBreaks(s: string, rest: string)
    ensures Unbroken(PutText(AsIs, s, rest)) <==> NoLeak(s) && Unbroken(rest)
  {
    CharsBreak(s, rest);
    UnbrokenParts("\"", PutChars(AsIs, s, rest));
  }

  /** A written value has a line ending in it exactly when one of its texts leaks, or what follows it
      has one. */
  lemma {:induction false} PutBreaks(j: Json, rest: string)
    requires Proper(j)
    ensures Unbroken(Put(AsIs, j, rest)) <==> LeakFree(j) && Unbroken(rest)
    decreases j
  {
    match j
    case Str(text) => TextBreaks(text, rest);
    case Num(spelling) => UnbrokenParts(spelling, rest);
    case Bool(truth) => UnbrokenParts(if truth then "true" else "false", rest);
    case Null => UnbrokenParts("null", rest);
    case Arr(items) =>
      if items.NoItems? {
        UnbrokenParts("]", rest);
        UnbrokenParts("[", "]" + rest);
      } else {
        ItemsBreak(items, rest);
        UnbrokenParts("[", PutItems(AsIs, items, rest));
      }
    case Obj(fields) =>
      if fields.NoFields? {
        UnbrokenParts("}", rest);
        UnbrokenParts("{", "}" + rest);
      } else {
        FieldsBreak(fields, rest);
        UnbrokenParts("{", PutFields(AsIs, fields, rest));
      }
  }

  lemma {:induction false} ItemsBreak(items: Items, rest: string)
    requires items.Item? && ProperItems(items)
    ensures Unbroken(PutItems(AsIs, items, rest)) <==> LeakFreeItems(items) && Unbroken(rest)
    decreases items
  {
    if items.tail.NoItems? {
      UnbrokenParts("]", rest);
      PutBreaks(items.head, "]" + rest);
    } else {
      ItemsBreak(items.tail, rest);
      UnbrokenParts(",", PutItems(AsIs, items.tail, rest));
      PutBreaks(items.head, "," + PutItems(AsIs, items.tail, rest));
    }
  }

  lemma {:induction false} FieldsBreak(fields: Fields, rest: string)
    requires fields.Field? && ProperFields(fields)
    ensures Unbroken(PutFields(AsIs, fields, rest)) <==> LeakFreeFields(fields) && Unbroken(rest)
    decreases fields
  {
    var after := if fields.more.NoFields? then "}" + rest else "," + PutFields(AsIs, fields.more, rest);
    if fields.more.NoFields? {
      UnbrokenParts("}", rest);
    } else {
      FieldsBreak(fields.more, rest);
      UnbrokenParts(",", PutFields(AsIs, fields.more, rest));
    }
    PutBreaks(fields.value, after);
    UnbrokenParts(":", Put(AsIs, fields.value, after));
    TextBreaks(fields.name, ":" + Put(AsIs, fields.value, after));
  }

  predicate EndsWith(s: string, t: string) {
    |t| <= |s| && s[|s| - |t|..] == t
  }

  lemma EndsMore(a: string, s: string, t: string)
    requires EndsWith(s, t)
    ensures EndsWith(a + s, t)
  {
    assert (a + s)[|a| + |s| - |t|..] == s[|s| - |t|..];
  }

  lemma EndsThrough(s: string, t: string, u: string)
    requires EndsWith(s, t) && EndsWith(t, u)
    ensures EndsWith(s, u)
  {
    assert s[|s| - |u|..] == s[|s| - |t|..][|t| - |u|..];
  }

  lemma {:induction false} CharsEnd(s: string, rest: string)
    ensures EndsWith(PutChars(AsIs, s, rest), rest)
  {
    if s == "" {
      EndsMore("\"", rest, rest);
    } else {
      CharsEnd(s[1..], rest);
      EndsMore(Escape(AsIs, s[0]), PutChars(AsIs, s[1..], rest), rest);
    }
  }

  lemma TextEnds(s: string, rest: string)
    ensures EndsWith(PutText(AsIs, s, rest), rest)
  {
    CharsEnd(s, rest);
    EndsMore("\"", PutChars(AsIs, s, rest), rest);
  }

  lemma {:induction false} PutEnds(j: Json, rest: string)
    ensures EndsWith(Put(AsIs, j, rest), rest)
    decreases j
  {
    match j
    case Str(text) => TextEnds(text, rest);
    case Num(spelling) => EndsMore(spelling, rest, rest);
    case Bool(truth) => EndsMore(if truth then "true" else "false", rest, rest);
    case Null => EndsMore("null", rest, rest);
    case Arr(items) =>
      EndsMore("]", rest, rest);
      if items.NoItems? {
        EndsMore("[", "]" + rest, rest);
      } else {
        ItemsEnd(items, rest);
        EndsMore("[", PutItems(AsIs, items, rest), rest);
      }
    case Obj(fields) =>
      EndsMore("}", rest, rest);
      if fields.NoFields? {
        EndsMore("{", "}" + rest, rest);
      } else {
        FieldsEnd(fields, rest);
        EndsThrough(PutFields(AsIs, fields, rest), "}" + rest, rest);
        EndsMore("{", PutFields(AsIs, fields, rest), rest);
      }
  }

  lemma {:induction false} ItemsEnd(items: Items, rest: string)
    requires items.Item?
    ensures EndsWith(PutItems(AsIs, items, rest), rest)
    decreases items
  {
    if items.tail.NoItems? {
      EndsMore("]", rest, rest);
      PutEnds(items.head, "]" + rest);
      EndsThrough(PutItems(AsIs, items, rest), "]" + rest, rest);
    } else {
      var more := PutItems(AsIs, items.tail, rest);
      ItemsEnd(items.tail, rest);
      EndsMore(",", more, rest);
      PutEnds(items.head, "," + more);
      EndsThrough(PutItems(AsIs, items, rest), "," + more, rest);
    }
  }

  /** An object ends in its closing brace. */
  lemma {:induction false} FieldsEnd(fields: Fields, rest: string)
    requires fields.Field?
    ensures EndsWith(PutFields(AsIs, fields, rest), "}" + rest)
    decreases fields
  {
    var after := if fields.more.NoFields? then "}" + rest else "," + PutFields(AsIs, fields.more, rest);
    if fields.more.Field? {
      FieldsEnd(fields.more, rest);
      EndsMore(",", PutFields(AsIs, fields.more, rest), "}" + rest);
    }
    PutEnds(fields.value, after);
    EndsThrough(Put(AsIs, fields.value, after), after, "}" + rest);
    EndsMore(":", Put(AsIs, fields.value, after), "}" + rest);
    TextEnds(fields.name, ":" + Put(AsIs, fields.value, after));
    EndsThrough(PutFields(AsIs, fields, rest), ":" + Put(AsIs, fields.value, after), "}" + rest);
  }

  lemma ObjectIsWhole(fields: Fields)
    ensures var text := Print(AsIs, Obj(fields)); text != "" && Trimmed(text)
  {
    var text := Print(AsIs, Obj(fields));
    if fields.Field? {
      FieldsEnd(fields, "");
      EndsMore("{", PutFields(AsIs, fields, ""), "}" + "");
      assert text[|text| - 1..] == "}";
      assert text[|text| - 1] == text[|text| - 1..][0];
    }
  }

  lemma OneEvent(event: string)
    requires event != "" && Trimmed(event)
    ensures Payloads(Lines(Stream([event]))) == [event] <==> Unbroken(event)
  {
    var events := [event];
    assert events[0] == event;
    StreamRoundTrip(events);
  }

  /** An event, which is any JSON object, is received as it was sent exactly when no text in it holds
      one of the three line endings that the serialiser does not escape; and as it was sent, it
      parses to what was printed. */
  lemma EventGetsThrough(fields: Fields)
    requires ProperFields(fields)
    ensures var event := Print(AsIs, Obj(fields));
            && (Payloads(Lines(Stream([event]))) == [event] <==> LeakFreeFields(fields))
            && Parse(event) == Some(Obj(fields))
  {
    ObjectIsWhole(fields);
    PutBreaks(Obj(fields), "");
    ParsePrint(AsIs, Obj(fields));
    OneEvent(Print(AsIs, Obj(fields)));
  }

  // The event that settles a turn

  /** A tool call; its arguments are any JSON. */
  datatype Call = Call(id: string, name: string, args: Json)

  datatype Report = Report(id: string, name: string, ok: bool, summary: string, millis: int, denied: Option<string>)

  datatype Settled = Settled(turnKey: string, agentId: string, content: string, reasoning: string, calls: seq<Call>,
                             reports: seq<Report>, promptTokens: int, completionTokens: int)

  const CALL_KEYS := ["id", "name", "args"]
  const REPORT_KEYS := ["id", "name", "ok", "summary", "duration_ms"]
  const REFUSED_KEYS := ["id", "name", "ok", "summary", "duration_ms", "denied_reason"]
  const USAGE_KEYS := ["prompt_tokens", "completion_tokens"]
  const RESULT_KEYS := ["turn_key", "agent_id", "public_content", "private_reasoning", "tool_calls", "tool_results", "usage"]
  const EVENT_KEYS := ["type", "result"]

  function CallJson(c: Call): Json {
    Obj(Record(CALL_KEYS, [Str(c.id), Str(c.name), c.args]))
  }

  /** A reason for a refusal is left out where there is none. */
  function ReportJson(r: Report): Json {
    var values := [Str(r.id), Str(r.name), Bool(r.ok), Str(r.summary), Int(r.millis)];
    Obj(if r.denied.None? then Record(REPORT_KEYS, values) else Record(REFUSED_KEYS, values + [Str(r.denied.value)]))
  }

  function Calls(calls: seq<Call>): seq<Json> {
    seq(|calls|, i requires 0 <= i < |calls| => CallJson(calls[i]))
  }

  function Reports(reports: seq<Report>): seq<Json> {
    seq(|reports|, i requires 0 <= i < |reports| => ReportJson(reports[i]))
  }

  function UsageJson(s: Settled): Json {
    Obj(Record(USAGE_KEYS, [Int(s.promptTokens), Int(s.completionTokens)]))
  }

  function ResultValues(s: Settled): seq<Json> {
    [Str(s.turnKey), Str(s.agentId), Str(s.content), Str(s.reasoning), Arr(List(Calls(s.calls))),
     Arr(List(Reports(s.reports))), UsageJson(s)]
  }

  function ResultJson(s: Settled): Json {
    Obj(Record(RESULT_KEYS, ResultValues(s)))
  }

  function EventFields(s: Settled): Fields {
    Record(EVENT_KEYS, [Str("turn.result"), ResultJson(s)])
  }

  function ResultEvent(s: Settled): string {
    Print(AsIs, Obj(EventFields(s)))
  }

  // Reading it

  function ReadCall(j: Json): Option<Call> {
    match (TextAt(j, "id"), TextAt(j, "name"), At(j, "args"))
    case (Some(id), Some(name), Some(args)) => Some(Call(id, name, args))
    case _ => None
  }

  function ReadReport(j: Json): Option<Report> {
    match (TextAt(j, "id"), TextAt(j, "name"), BoolAt(j, "ok"), TextAt(j, "summary"), IntAt(j, "duration_ms"))
    case (Some(id), Some(name), Some(ok), Some(summary), Some(millis)) =>
      Some(Report(id, name, ok, summary, millis, TextAt(j, "denied_reason")))
    case _ => None
  }

  function ReadAll<T>(js: seq<Json>, read: Json -> Option<T>): Option<seq<T>> {
    if js == [] then Some([])
    else match (read(js[0]), ReadAll(js[1..], read)) case (Some(x), Some(xs)) => Some([x] + xs) case _ => None
  }

  function ListAt<T>(j: Json, name: string, read: Json -> Option<T>): Option<seq<T>> {
    match At(j, name) case Some(Arr(items)) => ReadAll(Elements(items), read) case _ => None
  }

  function ReadUsage(j: Json): Option<(int, int)> {
    match At(j, "usage")
    case None => None
    case Some(u) =>
      match (IntAt(u, "prompt_tokens"), IntAt(u, "completion_tokens"))
      case (Some(prompt), Some(completion)) => Some((prompt, completion))
      case _ => None
  }

  function ReadTexts(j: Json): Option<(string, string, string, string)> {
    match (TextAt(j, "turn_key"), TextAt(j, "agent_id"), TextAt(j, "public_content"), TextAt(j, "private_reasoning"))
    case (Some(key), Some(agent), Some(content), Some(reasoning)) => Some((key, agent, content, reasoning))
    case _ => None
  }

  function ReadResult(j: Json): Option<Settled> {
    match (ReadTexts(j), ListAt(j, "tool_calls", ReadCall), ListAt(j, "tool_results", ReadReport), ReadUsage(j))
    case (Some(t), Some(calls), Some(reports), Some(u)) => Some(Settled(t.0, t.1, t.2, t.3, calls, reports, u.0, u.1))
    case _ => None
  }

  /** What the client makes of a payload that settles a turn. */
  function ReadEvent(payload: string): Option<Settled> {
    match Parse(payload)
    case None => None
    case Some(j) =>
      match (TextAt(j, "type"), At(j, "result"))
      case (Some(kind), Some(result)) => if kind == "turn.result" then ReadResult(result) else None
      case _ => None
  }

  predicate ProperArgs(s: Settled) {
    forall c :: c in s.calls ==> Proper(c.args)
  }

  predicate ReportPasses(r: Report) {
    NoLeak(r.id) && NoLeak(r.name) && NoLeak(r.summary) && (r.denied.Some? ==> NoLeak(r.denied.value))
  }

  /** No text anywhere in the result holds an unescaped line ending. */
  predicate SettledPasses(s: Settled) {
    && NoLeak(s.turnKey) && NoLeak(s.agentId) && NoLeak(s.content) && NoLeak(s.reasoning)
    && (forall c :: c in s.calls ==> NoLeak(c.id) && NoLeak(c.name) && LeakFree(c.args))
    && (forall r :: r in s.reports ==> ReportPasses(r))
  }

  predicate Keys(names: seq<string>) {
    Distinct(names) && forall i :: 0 <= i < |names| ==> NoLeak(names[i])
  }

  lemma KeysAreKeys()
    ensures Keys(CALL_KEYS) && Keys(USAGE_KEYS) && Keys(EVENT_KEYS)
  {
  }

  lemma ReportKeysAreKeys()
    ensures Keys(REPORT_KEYS) && Keys(REFUSED_KEYS)
  {
  }

  lemma ResultKeysAreKeys()
    ensures Keys(RESULT_KEYS)
  {
  }

  predicate AllProper(values: seq<Json>) {
    forall i :: 0 <= i < |values| ==> Proper(values[i])
  }

  predicate AllLeakFree(values: seq<Json>) {
    forall i :: 0 <= i < |values| ==> LeakFree(values[i])
  }

  lemma {:induction false} RecordLeaks(names: seq<string>, values: seq<Json>)
    requires |names| == |values| && forall i :: 0 <= i < |names| ==> NoLeak(names[i])
    ensures LeakFreeFields(Record(names, values)) <==> AllLeakFree(values)
  {
    if names != [] {
      RecordLeaks(names[1..], values[1..]);
      assert values == [values[0]] + values[1..];
    }
  }

  lemma {:induction false} ListLeaks(values: seq<Json>)
    ensures LeakFreeItems(List(values)) <==> AllLeakFree(values)
  {
    if values != [] {
      ListLeaks(values[1..]);
      assert values == [values[0]] + values[1..];
    }
  }

  /** The object of these names and values: each value is under its name, and the object leaks if
      one of them does. */
  lemma RecordIs(names: seq<string>, values: seq<Json>)
    requires |names| == |values| && Keys(names) && AllProper(values)
    ensures var j := Obj(Record(names, values));
            && (forall i :: 0 <= i < |names| ==> At(j, names[i]) == Some(values[i]))
            && Proper(j) && (LeakFree(j) <==> AllLeakFree(values))
  {
    RecordProper(names, values);
    RecordLeaks(names, values);
    forall i | 0 <= i < |names| ensures Get(Record(names, values), names[i]) == Some(values[i]) {
      RecordGet(names, values, i);
    }
  }

  lemma CallReads(c: Call)
    requires Proper(c.args)
    ensures var j := CallJson(c); ReadCall(j) == Some(c) && Proper(j)
    ensures LeakFree(CallJson(c)) <==> NoLeak(c.id) && NoLeak(c.name) && LeakFree(c.args)
  {
    var values := [Str(c.id), Str(c.name), c.args];
    KeysAreKeys();
    RecordIs(CALL_KEYS, values);
    assert CALL_KEYS[0] == "id" && CALL_KEYS[1] == "name" && CALL_KEYS[2] == "args";
    assert AllLeakFree(values) <==> LeakFree(values[0]) && LeakFree(values[1]) && LeakFree(values[2]);
  }

  lemma FiveAt(values: seq<Json>)
    requires |values| == 5 && AllProper(values)
    ensures var j := Obj(Record(REPORT_KEYS, values));
            && At(j, "id") == Some(values[0]) && At(j, "name") == Some(values[1]) && At(j, "ok") == Some(values[2])
            && At(j, "summary") == Some(values[3]) && At(j, "duration_ms") == Some(values[4]) && At(j, "denied_reason") == None
            && Proper(j)
            && (LeakFree(j) <==> LeakFree(values[0]) && LeakFree(values[1]) && LeakFree(values[2]) && LeakFree(values[3])
                                 && LeakFree(values[4]))
  {
    ReportKeysAreKeys();
    RecordIs(REPORT_KEYS, values);
    assert REPORT_KEYS[0] == "id" && REPORT_KEYS[1] == "name" && REPORT_KEYS[2] == "ok" && REPORT_KEYS[3] == "summary"
           && REPORT_KEYS[4] == "duration_ms";
    RecordLacks(REPORT_KEYS, values, "denied_reason");
  }

  lemma SixAt(values: seq<Json>)
    requires |values| == 6 && AllProper(values)
    ensures var j := Obj(Record(REFUSED_KEYS, values));
            && At(j, "id") == Some(values[0]) && At(j, "name") == Some(values[1]) && At(j, "ok") == Some(values[2])
            && At(j, "summary") == Some(values[3]) && At(j, "duration_ms") == Some(values[4])
            && At(j, "denied_reason") == Some(values[5]) && Proper(j)
            && (LeakFree(j) <==> LeakFree(values[0]) && LeakFree(values[1]) && LeakFree(values[2]) && LeakFree(values[3])
                                 && LeakFree(values[4]) && LeakFree(values[5]))
  {
    ReportKeysAreKeys();
    RecordIs(REFUSED_KEYS, values);
    assert REFUSED_KEYS[0] == "id" && REFUSED_KEYS[1] == "name" && REFUSED_KEYS[2] == "ok" && REFUSED_KEYS[3] == "summary"
           && REFUSED_KEYS[4] == "duration_ms" && REFUSED_KEYS[5] == "denied_reason";
  }

  lemma ReportReads(r: Report)
    ensures var j := ReportJson(r); ReadReport(j) == Some(r) && Proper(j) && (LeakFree(j) <==> ReportPasses(r))
  {
    var values := [Str(r.id), Str(r.name), Bool(r.ok), Str(r.summary), Int(r.millis)];
    IntProper(r.millis);
    if r.denied.None? {
      FiveAt(values);
    } else {
      SixAt(values + [Str(r.denied.value)]);
    }
  }

  lemma {:induction false} AllRead<T>(js: seq<Json>, read: Json -> Option<T>, xs: seq<T>)
    requires |js| == |xs| && forall i :: 0 <= i < |js| ==> read(js[i]) == Some(xs[i])
    ensures ReadAll(js, read) == Some(xs)
  {
    if js != [] {
      AllRead(js[1..], read, xs[1..]);
      assert [xs[0]] + xs[1..] == xs;
    }
  }

  lemma CallsRead(calls: seq<Call>)
    requires forall c :: c in calls ==> Proper(c.args)
    ensures var j := Arr(List(Calls(calls))); ReadAll(Elements(j.items), ReadCall) == Some(calls) && Proper(j)
    ensures LeakFree(Arr(List(Calls(calls))))
            <==> forall c :: c in calls ==> NoLeak(c.id) && NoLeak(c.name) && LeakFree(c.args)
  {
    var js := Calls(calls);
    forall i | 0 <= i < |calls|
      ensures ReadCall(js[i]) == Some(calls[i]) && Proper(js[i])
      ensures LeakFree(js[i]) <==> NoLeak(calls[i].id) && NoLeak(calls[i].name) && LeakFree(calls[i].args)
    {
      assert calls[i] in calls;
      CallReads(calls[i]);
    }
    ElementsOfList(js);
    AllRead(js, ReadCall, calls);
    ListLeaks(js);
  }

  lemma ReportsRead(reports: seq<Report>)
    ensures var j := Arr(List(Reports(reports))); ReadAll(Elements(j.items), ReadReport) == Some(reports) && Proper(j)
    ensures LeakFree(Arr(List(Reports(reports)))) <==> forall r :: r in reports ==> ReportPasses(r)
  {
    var js := Reports(reports);
    forall i | 0 <= i < |reports|
      ensures ReadReport(js[i]) == Some(reports[i]) && Proper(js[i]) && (LeakFree(js[i]) <==> ReportPasses(reports[i]))
    {
      ReportReads(reports[i]);
    }
    ElementsOfList(js);
    AllRead(js, ReadReport, reports);
    ListLeaks(js);
  }

  lemma UsageReads(prompt: int, completion: int)
    ensures var j := Obj(Record(USAGE_KEYS, [Int(prompt), Int(completion)]));
            IntAt(j, "prompt_tokens") == Some(prompt) && IntAt(j, "completion_tokens") == Some(completion) && Proper(j) && LeakFree(j)
  {
    KeysAreKeys();
    IntProper(prompt);
    IntProper(completion);
    RecordIs(USAGE_KEYS, [Int(prompt), Int(completion)]);
    assert USAGE_KEYS[0] == "prompt_tokens" && USAGE_KEYS[1] == "completion_tokens";
  }

  lemma SevenAt(values: seq<Json>)
    requires |values| == 7 && AllProper(values)
    ensures var j := Obj(Record(RESULT_KEYS, values));
            && At(j, "turn_key") == Some(values[0]) && At(j, "agent_id") == Some(values[1])
            && At(j, "public_content") == Some(values[2]) && At(j, "private_reasoning") == Some(values[3])
            && At(j, "tool_calls") == Some(values[4]) && At(j, "tool_results") == Some(values[5])
            && At(j, "usage") == Some(values[6])
  {
    ResultKeysAreKeys();
    RecordIs(RESULT_KEYS, values);
    assert RESULT_KEYS[0] == "turn_key" && RESULT_KEYS[1] == "agent_id" && RESULT_KEYS[2] == "public_content"
           && RESULT_KEYS[3] == "private_reasoning" && RESULT_KEYS[4] == "tool_calls" && RESULT_KEYS[5] == "tool_results"
           && RESULT_KEYS[6] == "usage";
  }

  lemma SevenLeaks(values: seq<Json>)
    requires |values| == 7 && AllProper(values)
    ensures var j := Obj(Record(RESULT_KEYS, values));
            && Proper(j)
            && (LeakFree(j) <==> LeakFree(values[0]) && LeakFree(values[1]) && LeakFree(values[2]) && LeakFree(values[3])
                                 && LeakFree(values[4]) && LeakFree(values[5]) && LeakFree(values[6]))
  {
    ResultKeysAreKeys();
    RecordIs(RESULT_KEYS, values);
  }

  lemma ResultReads(s: Settled)
    requires ProperArgs(s)
    ensures ReadResult(ResultJson(s)) == Some(s)
  {
    CallsRead(s.calls);
    ReportsRead(s.reports);
    UsageReads(s.promptTokens, s.completionTokens);
    SevenAt(ResultValues(s));
  }

  lemma ResultLeaks(s: Settled)
    requires ProperArgs(s)
    ensures Proper(ResultJson(s)) && (LeakFree(ResultJson(s)) <==> SettledPasses(s))
  {
    CallsRead(s.calls);
    ReportsRead(s.reports);
    UsageReads(s.promptTokens, s.completionTokens);
    SevenLeaks(ResultValues(s));
  }

  lemma EventAt(s: Settled)
    requires ProperArgs(s)
    ensures var j := Obj(EventFields(s));
            && TextAt(j, "type") == Some("turn.result") && At(j, "result") == Some(ResultJson(s))
            && Proper(j) && (LeakFree(j) <==> SettledPasses(s))
  {
    var values := [Str("turn.result"), ResultJson(s)];
    KeysAreKeys();
    ResultLeaks(s);
    RecordIs(EVENT_KEYS, values);
    assert EVENT_KEYS[0] == "type" && EVENT_KEYS[1] == "result";
    assert NoLeak("turn.result");
    assert AllLeakFree(values) <==> LeakFree(values[0]) && LeakFree(values[1]);
  }

  /** The event that settles a turn is received as it was sent exactly when no text in it, whoever
      wrote it, holds one of the three line endings the serialiser leaves in. */
  lemma ResultGetsThrough(s: Settled)
    requires ProperArgs(s)
    ensures Payloads(Lines(Stream([ResultEvent(s)]))) == [ResultEvent(s)] <==> SettledPasses(s)
    ensures ReadEvent(ResultEvent(s)) == Some(s)
  {
    EventAt(s);
    ResultReads(s);
    EventGetsThrough(EventFields(s));
  }

  /** And then the client has the turn as the sandbox settled it: every text, every call with its
      arguments, every report and the usage. */
  lemma ResultArrives(s: Settled)
    requires ProperArgs(s) && SettledPasses(s)
    ensures Parsed(Payloads(Lines(Stream([ResultEvent(s)]))), ReadEvent) == [s]
  {
    ResultGetsThrough(s);
    ParsedOne(ResultEvent(s), ReadEvent);
  }
}
