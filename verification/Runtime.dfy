/** The server inside a sandbox: one bound persona, one turn cache, and turns served as
    streams of events. */
module Runtime {
  import opened Wrappers
  import opened Text
  import opened State
  import Thought
  import Cache = TurnCache

  const DENIED_PREFIX := "DENIED_BY_CLUSTER"

  datatype Persona = Persona(agentId: Id, displayName: string, title: string)

  /** What the agent loop produced: model messages, tool messages, and anything else. */
  datatype Output = Model(text: string, calls: seq<ToolCall>) | Tool(name: string, body: string) | Other

  /** How an invocation went: it may raise at once, or while its messages are handled. */
  datatype Invocation = Invocation(outputs: seq<Output>, raises: Option<Raise>)

  datatype Raise = Raise(at: nat, error: string)

  datatype TurnEvent =
    | ToolCalled(call: ToolCall)
    | ToolReturned(result: ToolResult)
    | ThoughtDelta(text: string)
    | SpeechDelta(text: string)
    | Finished(turn: TurnResult)
    | Errored(message: string)

  predicate Terminal(e: TurnEvent) {
    e.Finished? || e.Errored?
  }

  /** Advisory events, then exactly one that settles the turn. */
  predicate Authoritative(events: seq<TurnEvent>) {
    events != [] && Terminal(events[|events| - 1]) && forall i :: 0 <= i < |events| - 1 ==> !Terminal(events[i])
  }

  function Calls(events: seq<TurnEvent>): seq<ToolCall> {
    if events == [] then []
    else Calls(events[..|events| - 1]) + (if events[|events| - 1].ToolCalled? then [events[|events| - 1].call] else [])
  }

  function Results(events: seq<TurnEvent>): seq<ToolResult> {
    if events == [] then []
    else Results(events[..|events| - 1]) + (if events[|events| - 1].ToolReturned? then [events[|events| - 1].result] else [])
  }

  function CallEvents(calls: seq<ToolCall>): (events: seq<TurnEvent>)
    ensures |events| == |calls| && forall i :: 0 <= i < |calls| ==> events[i] == ToolCalled(calls[i])
  {
    seq(|calls|, i requires 0 <= i < |calls| => ToolCalled(calls[i]))
  }

  predicate StartsWith(s: string, pre: string) {
    pre <= s
  }

  function DropLeading(s: string, drop: set<char>): string {
    if s != [] && s[0] in drop then DropLeading(s[1..], drop) else s
  }

  /** A denial is a policy decision, not a failure of the tool. */
  function Judge(name: string, body: string): ToolResult {
    var denied := StartsWith(body, DENIED_PREFIX);
    ToolResult(name,
               !denied && !StartsWith(Lower(body), "error") && !StartsWith(Lower(body), "retrieval is unavailable"),
               Clip(body, 500),
               if denied then Some(DropLeading(body[|DENIED_PREFIX|..], {':', ' '})) else None)
  }

  /** What one output of the agent loop makes visible. */
  function Shown(o: Output): seq<TurnEvent> {
    match o
    case Model(_, calls) => CallEvents(calls)
    case Tool(name, body) => [ToolReturned(Judge(name, body))]
    case Other => []
  }

  function ShownAll(outputs: seq<Output>): seq<TurnEvent> {
    if outputs == [] then [] else ShownAll(outputs[..|outputs| - 1]) + Shown(outputs[|outputs| - 1])
  }

  /** The last model message that says anything. */
  function Spoken(outputs: seq<Output>): string {
    if outputs == [] then ""
    else
      var last := outputs[|outputs| - 1];
      if last.Model? && Strip(last.text) != "" then last.text else Spoken(outputs[..|outputs| - 1])
  }

  lemma CallsAppend(events: seq<TurnEvent>, e: TurnEvent)
    ensures Calls(events + [e]) == Calls(events) + (if e.ToolCalled? then [e.call] else [])
    ensures Results(events + [e]) == Results(events) + (if e.ToolReturned? then [e.result] else [])
  {
    assert (events + [e])[..|events|] == events;
  }

  predicate AllAdvisory(events: seq<TurnEvent>) {
    forall i :: 0 <= i < |events| ==> !Terminal(events[i])
  }

  /** The events so far, and what the result will carry of them. */
  predicate Collected(events: seq<TurnEvent>, calls: seq<ToolCall>, results: seq<ToolResult>) {
    AllAdvisory(events) && calls == Calls(events) && results == Results(events)
  }

  lemma CollectOne(events: seq<TurnEvent>, calls: seq<ToolCall>, results: seq<ToolResult>, e: TurnEvent)
    requires Collected(events, calls, results) && !Terminal(e)
    ensures Collected(events + [e], calls + (if e.ToolCalled? then [e.call] else []),
                      results + (if e.ToolReturned? then [e.result] else []))
  {
    CallsAppend(events, e);
  }

  lemma CollectCall(events: seq<TurnEvent>, calls: seq<ToolCall>, results: seq<ToolResult>, call: ToolCall)
    requires Collected(events, calls, results)
    ensures Collected(events + [ToolCalled(call)], calls + [call], results)
  {
    CollectOne(events, calls, results, ToolCalled(call));
    assert results + [] == results;
  }

  method EmitCalls(made: seq<ToolCall>, events0: seq<TurnEvent>, calls0: seq<ToolCall>, ghost results: seq<ToolResult>)
    returns (events: seq<TurnEvent>, calls: seq<ToolCall>)
    requires Collected(events0, calls0, results)
    ensures events == events0 + CallEvents(made) && Collected(events, calls, results)
  {
    events, calls := events0, calls0;
    var j := 0;
    while j < |made|
      invariant 0 <= j <= |made|
      invariant events == events0 + CallEvents(made)[..j] && Collected(events, calls, results)
    {
      CollectCall(events, calls, results, made[j]);
      assert CallEvents(made)[..j + 1] == CallEvents(made)[..j] + [ToolCalled(made[j])];
      calls := calls + [made[j]];
      events := events + [ToolCalled(made[j])];
      j := j + 1;
    }
    assert CallEvents(made)[..|made|] == CallEvents(made);
  }

  /** The events of the messages, up to the first that raises. */
  method EmitOutputs(inv: Invocation)
    returns (events: seq<TurnEvent>, calls: seq<ToolCall>, results: seq<ToolResult>, failure: Option<string>)
    ensures failure.Some? <==> inv.raises.Some? && inv.raises.value.at <= |inv.outputs|
    ensures failure.Some? ==> failure.value == inv.raises.value.error
    ensures failure.None? ==> events == ShownAll(inv.outputs)
    ensures Collected(events, calls, results)
  {
    events, calls, results, failure := [], [], [], None;
    for i := 0 to |inv.outputs|
      invariant inv.raises.Some? ==> i <= inv.raises.value.at
      invariant events == ShownAll(inv.outputs[..i]) && Collected(events, calls, results)
    {
      if inv.raises.Some? && inv.raises.value.at == i {
        failure := Some(inv.raises.value.error);
        return;
      }
      assert inv.outputs[..i + 1][..i] == inv.outputs[..i];
      match inv.outputs[i] {
        case Model(_, made) => events, calls := EmitCalls(made, events, calls, results);
        case Tool(name, body) =>
          CollectOne(events, calls, results, ToolReturned(Judge(name, body)));
          assert calls + [] == calls;
          results := results + [Judge(name, body)];
          events := events + [ToolReturned(Judge(name, body))];
        case Other =>
      }
    }
    assert inv.outputs[..|inv.outputs|] == inv.outputs;
    if inv.raises.Some? && inv.raises.value.at == |inv.outputs| {
      failure := Some(inv.raises.value.error);
    }
  }

  function Speech(raw: string): seq<TurnEvent> {
    var thought := Thought.SplitThought(raw).thought;
    (if thought != "" then [ThoughtDelta(thought)] else []) + [SpeechDelta(Thought.PublicText(raw))]
  }

  lemma SpeechCollects(events: seq<TurnEvent>, calls: seq<ToolCall>, results: seq<ToolResult>, raw: string)
    requires Collected(events, calls, results)
    ensures Collected(events + Speech(raw), calls, results)
  {
    var thought, said := Thought.SplitThought(raw).thought, SpeechDelta(Thought.PublicText(raw));
    assert calls + [] == calls && results + [] == results;
    if thought != "" {
      CollectOne(events, calls, results, ThoughtDelta(thought));
      CollectOne(events + [ThoughtDelta(thought)], calls, results, said);
      assert events + Speech(raw) == events + [ThoughtDelta(thought)] + [said];
    } else {
      CollectOne(events, calls, results, said);
      assert events + Speech(raw) == events + [said];
    }
  }

  // What a turn's result says

  /** What the persona said last: the text of the last model message that is not blank, if any. */
  ghost predicate SaidLast(outputs: seq<Output>, raw: string) {
    || (raw == "" && forall j :: 0 <= j < |outputs| && outputs[j].Model? ==> !Visible(outputs[j].text))
    || (Visible(raw) && exists i :: SaidAt(outputs, i, raw))
  }

  predicate SaidAt(outputs: seq<Output>, i: int, raw: string) {
    && 0 <= i < |outputs| && outputs[i].Model? && outputs[i].text == raw
    && forall j :: i < j < |outputs| && outputs[j].Model? ==> !Visible(outputs[j].text)
  }

  lemma {:induction false} SpokenIsSaidLast(outputs: seq<Output>)
    ensures SaidLast(outputs, Spoken(outputs))
  {
    if outputs != [] {
      var n := |outputs| - 1;
      var last, earlier := outputs[n], outputs[..n];
      if last.Model? {
        VisibleExactly(last.text);
      }
      if last.Model? && Visible(last.text) {
        assert SaidAt(outputs, n, last.text);
      } else {
        SpokenIsSaidLast(earlier);
        assert forall j :: 0 <= j < n ==> earlier[j] == outputs[j];
        if i :| SaidAt(earlier, i, Spoken(earlier)) {
          assert SaidAt(outputs, i, Spoken(earlier));
        }
      }
    }
  }

  predicate Begins(body: string, word: string) {
    |word| <= |body| && SameLetters(body[..|word|], word)
  }

  /** A tool's result: denied when the cluster said so, with its reason; otherwise fine unless the
      text begins by reporting an error, in whatever letters. */
  ghost predicate Judged(name: string, body: string, r: ToolResult) {
    && r.name == name && r.summary == (if |body| <= 500 then body else body[..500])
    && (r.denied.Some? <==> "DENIED_BY_CLUSTER" <= body)
    && (r.denied.Some? ==> DeniedFor(body, r.denied.value))
    && (r.ok <==> r.denied.None? && !Begins(body, "error") && !Begins(body, "retrieval is unavailable"))
  }

  ghost predicate DeniedFor(body: string, why: string) {
    && (why == "" || (why[0] != ':' && why[0] != ' '))
    && exists pad :: body == "DENIED_BY_CLUSTER" + pad + why && forall c :: c in pad ==> c == ':' || c == ' '
  }

  lemma {:induction false} DropLeadingPads(s: string) returns (pad: string)
    ensures s == pad + DropLeading(s, {':', ' '}) && forall c :: c in pad ==> c == ':' || c == ' '
    ensures DropLeading(s, {':', ' '}) != "" ==> DropLeading(s, {':', ' '})[0] !in {':', ' '}
  {
    if s != [] && s[0] in {':', ' '} {
      var rest := DropLeadingPads(s[1..]);
      pad := [s[0]] + rest;
      assert s == [s[0]] + s[1..];
    } else {
      pad := "";
    }
  }

  lemma BeginsExactly(body: string, word: string)
    requires Lower(word) == word
    ensures StartsWith(Lower(body), word) <==> Begins(body, word)
  {
    if |word| <= |body| {
      LowerExactly(body[..|word|], word);
      assert Lower(body[..|word|]) == Lower(body)[..|word|];
    }
  }

  lemma JudgeJudges(name: string, body: string)
    ensures Judged(name, body, Judge(name, body))
  {
    assert Lower("error") == "error" && Lower("retrieval is unavailable") == "retrieval is unavailable";
    BeginsExactly(body, "error");
    BeginsExactly(body, "retrieval is unavailable");
    if StartsWith(body, DENIED_PREFIX) {
      var pad := DropLeadingPads(body[|DENIED_PREFIX|..]);
      assert body == DENIED_PREFIX + pad + Judge(name, body).denied.value;
    }
  }

  /** The calls the model made, in order. */
  function CallsMade(outputs: seq<Output>): seq<ToolCall> {
    if outputs == [] then []
    else CallsMade(outputs[..|outputs| - 1]) + (if outputs[|outputs| - 1].Model? then outputs[|outputs| - 1].calls else [])
  }

  /** One result for every tool message, in order. */
  ghost predicate Reports(outputs: seq<Output>, results: seq<ToolResult>) {
    if outputs == [] then results == []
    else
      var earlier, last := outputs[..|outputs| - 1], outputs[|outputs| - 1];
      if last.Tool? then
        results != [] && Judged(last.name, last.body, results[|results| - 1]) && Reports(earlier, results[..|results| - 1])
      else Reports(earlier, results)
  }

  lemma {:induction false} CallsConcat(xs: seq<TurnEvent>, ys: seq<TurnEvent>)
    ensures Calls(xs + ys) == Calls(xs) + Calls(ys) && Results(xs + ys) == Results(xs) + Results(ys)
  {
    if ys == [] {
      assert xs + ys == xs;
    } else {
      var n := |ys| - 1;
      assert (xs + ys)[..|xs| + n] == xs + ys[..n];
      CallsConcat(xs, ys[..n]);
    }
  }

  lemma {:induction false} CallEventsCall(calls: seq<ToolCall>)
    ensures Calls(CallEvents(calls)) == calls && Results(CallEvents(calls)) == []
  {
    if calls != [] {
      var n := |calls| - 1;
      assert CallEvents(calls)[..n] == CallEvents(calls[..n]);
      CallEventsCall(calls[..n]);
      assert calls[..n] + [calls[n]] == calls;
    }
  }

  lemma ShownOne(o: Output)
    ensures Calls(Shown(o)) == if o.Model? then o.calls else []
    ensures Results(Shown(o)) == if o.Tool? then [Judge(o.name, o.body)] else []
  {
    match o
    case Model(_, calls) => CallEventsCall(calls);
    case Tool(name, body) => assert [ToolReturned(Judge(name, body))][..0] == [];
    case Other =>
  }

  lemma {:induction false} ShownCarries(outputs: seq<Output>)
    ensures Calls(ShownAll(outputs)) == CallsMade(outputs) && Reports(outputs, Results(ShownAll(outputs)))
  {
    if outputs != [] {
      var earlier, last := outputs[..|outputs| - 1], outputs[|outputs| - 1];
      ShownCarries(earlier);
      ShownOne(last);
      CallsConcat(ShownAll(earlier), Shown(last));
      if last.Tool? {
        JudgeJudges(last.name, last.body);
        var results := Results(ShownAll(earlier));
        assert (results + [Judge(last.name, last.body)])[..|results|] == results;
      } else {
        assert Results(ShownAll(earlier)) + [] == Results(ShownAll(earlier));
      }
    }
  }

  lemma SpeechCarriesNothing(raw: string)
    ensures Calls(Speech(raw)) == [] && Results(Speech(raw)) == []
  {
    var thought, said := ThoughtDelta(Thought.SplitThought(raw).thought), SpeechDelta(Thought.PublicText(raw));
    assert [said][..0] == [] && [thought, said][..1] == [thought] && [thought][..0] == [];
    assert Calls([said]) == [] && Results([said]) == [];
    assert Calls([thought, said]) == [] && Results([thought, said]) == [];
    assert Speech(raw) == [said] || Speech(raw) == [thought, said];
  }

  /** What a result tells of a turn: under the persona's name and title, what it said last, as it is
      published, and apart from that what it thought; every call it made, and a report of every
      tool. */
  ghost predicate Tells(persona: Persona, turnKey: string, outputs: seq<Output>, r: TurnResult) {
    && r.turnKey == turnKey && r.agentId == persona.agentId
    && r.toolCalls == CallsMade(outputs) && Reports(outputs, r.toolResults)
    && exists raw, text :: && SaidLast(outputs, raw) && Thought.PublishedAs(raw, text)
                           && r.publicContent == "[" + persona.displayName + " - " + persona.title + "] " + text
                           && r.privateReasoning == Thought.SplitThought(raw).thought
  }

  lemma ResultTells(persona: Persona, turnKey: string, outputs: seq<Output>, events: seq<TurnEvent>, r: TurnResult)
    requires events == ShownAll(outputs) + Speech(Spoken(outputs))
    requires r == TurnResult(turnKey, persona.agentId,
                             "[" + persona.displayName + " - " + persona.title + "] " + Thought.PublicText(Spoken(outputs)),
                             Thought.SplitThought(Spoken(outputs)).thought, Calls(events), Results(events))
    ensures Tells(persona, turnKey, outputs, r)
  {
    var raw := Spoken(outputs);
    SpokenIsSaidLast(outputs);
    Thought.PublishedExactly(raw, Thought.PublicText(raw));
    ShownCarries(outputs);
    SpeechCarriesNothing(raw);
    CallsConcat(ShownAll(outputs), Speech(raw));
    assert Calls(ShownAll(outputs)) + [] == Calls(ShownAll(outputs));
    assert Results(ShownAll(outputs)) + [] == Results(ShownAll(outputs));
  }

  /** One persona's turn: the events it yields, and the exception it ends with, if any. A
      turn that ends well ends in one result, which carries every tool call and result that
      was shown, and publishes what the persona said last. */
  method TakeTurn(persona: Persona, turnKey: string, inv: Invocation) returns (events: seq<TurnEvent>, failure: Option<string>)
    ensures failure.Some? <==> inv.raises.Some? && inv.raises.value.at <= |inv.outputs|
    ensures failure.Some? ==> failure.value == inv.raises.value.error && AllAdvisory(events)
    ensures failure.None? ==> Authoritative(events) && events[|events| - 1].Finished?
    ensures failure.None? ==>
              var r := events[|events| - 1].turn;
              && r.turnKey == turnKey && r.agentId == persona.agentId
              && r.toolCalls == Calls(events) && r.toolResults == Results(events)
              && events[..|events| - 1] == ShownAll(inv.outputs) + Speech(Spoken(inv.outputs))
              && r.publicContent == "[" + persona.displayName + " - " + persona.title + "] "
                                    + Thought.PublicText(Spoken(inv.outputs))
              && r.privateReasoning == Thought.SplitThought(Spoken(inv.outputs)).thought
    ensures failure.None? ==> Tells(persona, turnKey, inv.outputs, events[|events| - 1].turn)
  {
    var calls, results;
    events, calls, results, failure := EmitOutputs(inv);
    if failure.Some? {
      return;
    }
    var raw := Spoken(inv.outputs);
    SpeechCollects(events, calls, results, raw);
    events := events + Speech(raw);
    var r := TurnResult(turnKey, persona.agentId,
                        "[" + persona.displayName + " - " + persona.title + "] " + Thought.PublicText(raw),
                        Thought.SplitThought(raw).thought, calls, results);
    ResultTells(persona, turnKey, inv.outputs, events, r);
    CallsAppend(events, Finished(r));
    events := events + [Finished(r)];
  }

  /** How the server answers a turn request: 409, or a stream. */
  datatype Response = NotBound | Stream(events: seq<TurnEvent>)

  const MESSAGE_LIMIT := 500

  class RuntimeState {
    var persona: Option<Persona>
    const cache: Cache.Cache<TurnResult>

    /** Everything cached is a result of the agent that is bound now, under its own key. */
    ghost predicate Valid()
      reads this, cache
    {
      && cache.Valid()
      && forall e :: e in cache.entries ==> persona.Some? && e.1.agentId == persona.value.agentId && e.0 == e.1.turnKey
    }

    constructor ()
      ensures Valid() && persona == None && cache.entries == [] && cache.max == Cache.MAX_ENTRIES && fresh(cache)
    {
      persona := None;
      cache := new Cache.Cache<TurnResult>(Cache.MAX_ENTRIES);
    }

    /** Binding another agent forgets every turn; binding the same one again keeps them. */
    method BindPersona(p: Persona)
      requires Valid()
      modifies this, cache
      ensures Valid() && persona == Some(p)
      ensures cache.entries == if old(persona).Some? && old(persona).value.agentId != p.agentId then [] else old(cache.entries)
    {
      if persona.Some? && persona.value.agentId != p.agentId {
        cache.Clear();
      }
      persona := Some(p);
    }

    /** A turn: refused without a persona, replayed when cached, and otherwise taken, ending
        in exactly one result or error. Only a result is remembered. */
    method RunTurn(turnKey: string, inv: Invocation) returns (response: Response)
      requires Valid()
      modifies cache
      ensures Valid() && persona == old(persona)
      ensures response.NotBound? <==> persona.None?
      ensures response.Stream? ==> Authoritative(response.events)
      ensures response.NotBound? ==> cache.entries == old(cache.entries)
      ensures persona.Some? && Cache.Lookup(old(cache.entries), turnKey).Some? ==>
                && response == Stream([Finished(Cache.Lookup(old(cache.entries), turnKey).value)])
                && cache.entries == Cache.MoveToEnd(old(cache.entries), turnKey)
      ensures persona.Some? && Cache.Lookup(old(cache.entries), turnKey).None? ==>
                var last := response.events[|response.events| - 1];
                && (last.Errored? <==> inv.raises.Some? && inv.raises.value.at <= |inv.outputs|)
                && (last.Errored? ==> last.message == Clip(inv.raises.value.error, MESSAGE_LIMIT)
                                      && cache.entries == old(cache.entries))
                && (last.Finished? ==> Tells(persona.value, turnKey, inv.outputs, last.turn)
                                       && cache.entries == Cache.AfterPut(old(cache.entries), turnKey, last.turn, cache.max))
    {
      if persona.None? {
        return NotBound;
      }
      ghost var before := cache.entries;
      Cache.MoveToEndKeeps(before, turnKey);
      var cached := cache.Get(turnKey);
      if cached.Some? {
        return Stream([Finished(cached.value)]);
      }
      var events, failure := TakeTurn(persona.value, turnKey, inv);
      if failure.Some? {
        return Stream(events + [Errored(Clip(failure.value, MESSAGE_LIMIT))]);
      }
      var r := events[|events| - 1].turn;
      Cache.AfterPutBounded(before, turnKey, r, cache.max);
      cache.Put(turnKey, r);
      response := Stream(events);
    }
  }

  /** Asking twice for one turn gives the same result twice: the second stream is the first
      result alone, whatever the model would have said. */
  method AskTwice(state: RuntimeState, turnKey: string, inv: Invocation, again: Invocation)
    returns (first: Response, second: Response)
    requires state.Valid() && state.cache.max > 0
    modifies state.cache
    ensures state.Valid() && state.persona == old(state.persona)
    ensures first.Stream? ==> Authoritative(first.events)
    ensures first.Stream? && first.events[|first.events| - 1].Finished? ==>
              second == Stream([first.events[|first.events| - 1]])
  {
    ghost var before := state.cache.entries;
    first := state.RunTurn(turnKey, inv);
    if state.persona.Some? {
      if Cache.Lookup(before, turnKey).Some? {
        Cache.MoveToEndFinds(before, turnKey);
      } else if first.events[|first.events| - 1].Finished? {
        Cache.AfterPutBounded(before, turnKey, first.events[|first.events| - 1].turn, state.cache.max);
      }
    }
    second := state.RunTurn(turnKey, again);
  }
}
