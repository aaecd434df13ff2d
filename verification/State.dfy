/** The graph state of one meeting, the updates nodes return, and how the
    reducers merge an update into the state. */
module State {
  import opened Wrappers
  import opened Text

  type Id = string

  const FINISH := "FINISH"

  datatype Attendee = Attendee(id: Id, displayName: string, title: string, department: string)

  // Messages

  /** A chat message: its text and the metadata that says who said it. */
  datatype Message = Message(content: string, kwargs: map<string, string>)

  function MakeUtterance(content: string, agentId: Id): Message {
    Message(content, map["kind" := "utterance", "agent_id" := agentId])
  }

  predicate IsUtterance(m: Message) {
    "kind" in m.kwargs && m.kwargs["kind"] == "utterance"
  }

  function SpeakerOf(m: Message): Id {
    if "agent_id" in m.kwargs then m.kwargs["agent_id"] else ""
  }

  function PublicTranscript(messages: seq<Message>): seq<Message> {
    if messages == [] then []
    else (if IsUtterance(messages[0]) then [messages[0]] else []) + PublicTranscript(messages[1..])
  }

  // Updates and state

  datatype Event = Event(kind: string, agent: Id, content: string, reasoning: string,
                         sandbox: Option<string>, conclusion: bool, calls: seq<ToolCall>)

  datatype Audit = Audit(turnKey: Option<string>, agent: Id, tool: Option<string>, ok: bool,
                         detail: Option<string>)

  /** What a node returns: a value for each state key it mentions. */
  datatype Update = Update(
    messages: Option<seq<Message>>,
    eventLog: Option<seq<Event>>,
    toolAudit: Option<seq<Audit>>,
    sandboxes: Option<map<Id, string>>,
    activeAgent: Option<Id>,
    nextSpeaker: Option<string>,
    currentTurn: Option<nat>,
    finalSummary: Option<Option<string>>)

  const NoUpdate := Update(None, None, None, None, None, None, None, None)

  datatype Topic = Topic(objective: string, agenda: string, brief: string, expectations: string)

  datatype Graph = Graph(
    meetingId: Id,
    topic: Topic,
    turnLimit: int,
    currentTurn: nat,
    messages: seq<Message>,
    eventLog: seq<Event>,
    toolAudit: seq<Audit>,
    sandboxes: map<Id, string>,
    activeAgent: Option<Id>,
    stopRequested: bool,
    terminated: bool,
    finalSummary: Option<string>,
    nextSpeaker: Option<string>,
    nextSpeakerReason: Option<string>)

  function MergeList<T>(a: seq<T>, b: seq<T>): seq<T> {
    if a == [] then b else if b == [] then a else a + b
  }

  function OrEmpty<T>(xs: Option<seq<T>>): seq<T> {
    if xs.Some? then xs.value else []
  }

  function Apply(g: Graph, u: Update): Graph {
    g.(messages := g.messages + OrEmpty(u.messages),
       eventLog := MergeList(g.eventLog, OrEmpty(u.eventLog)),
       toolAudit := MergeList(g.toolAudit, OrEmpty(u.toolAudit)),
       sandboxes := if u.sandboxes.Some? then g.sandboxes + u.sandboxes.value else g.sandboxes,
       activeAgent := if u.activeAgent.Some? then u.activeAgent else g.activeAgent,
       nextSpeaker := if u.nextSpeaker.Some? then u.nextSpeaker else g.nextSpeaker,
       currentTurn := if u.currentTurn.Some? then u.currentTurn.value else g.currentTurn,
       finalSummary := if u.finalSummary.Some? then u.finalSummary.value else g.finalSummary)
  }

  // Turns

  datatype ToolCall = ToolCall(name: string, args: map<string, string>)

  datatype ToolResult = ToolResult(name: string, ok: bool, summary: string, denied: Option<string>)

  datatype TurnResult = TurnResult(turnKey: string, agentId: Id, publicContent: string,
                                   privateReasoning: string, toolCalls: seq<ToolCall>,
                                   toolResults: seq<ToolResult>)

  datatype Line = Line(speaker: Id, content: string)

  datatype TurnRequest = TurnRequest(turnKey: string, topic: Topic, roster: seq<Attendee>,
                                     transcript: seq<Line>, directive: string)

  function TurnKey(meeting: Id, turn: nat, agent: Id): string {
    meeting + ":" + ShowNat(turn) + ":" + agent
  }

  /** The idempotency key names one turn of one attendee of one meeting: only the
      meeting id has to be free of the separator. */
  lemma TurnKeyInjective(m: Id, t: nat, a: Id, m': Id, t': nat, a': Id)
    requires ':' !in m && ':' !in m'
    requires TurnKey(m, t, a) == TurnKey(m', t', a')
    ensures m == m' && t == t' && a == a'
  {
    var rest, rest' := ShowNat(t) + ":" + a, ShowNat(t') + ":" + a';
    assert TurnKey(m, t, a) == m + [':'] + rest;
    assert TurnKey(m', t', a') == m' + [':'] + rest';
    SplitUnique(m, m', ':', rest, rest');
    SplitUnique(ShowNat(t), ShowNat(t'), ':', a, a');
    ShowNatInjective(t, t');
  }

  function RequestFor(g: Graph, roster: seq<Attendee>, agent: Id): TurnRequest {
    var said := PublicTranscript(g.messages);
    TurnRequest(
      TurnKey(g.meetingId, g.currentTurn, agent), g.topic, roster,
      seq(|said|, i requires 0 <= i < |said| => Line(SpeakerOf(said[i]), said[i].content)),
      if g.nextSpeakerReason.Some? then g.nextSpeakerReason.value else "")
  }

  function AuditOf(agent: Id, r: TurnResult): seq<Audit> {
    seq(|r.toolResults|, i requires 0 <= i < |r.toolResults| =>
      Audit(Some(r.turnKey), agent, Some(r.toolResults[i].name), r.toolResults[i].ok, r.toolResults[i].denied))
  }

  function SuccessUpdate(agent: Id, sandbox: string, r: TurnResult): Update {
    NoUpdate.(
      messages := Some([MakeUtterance(r.publicContent, agent)]),
      eventLog := Some([Event("agent_spoke", agent, r.publicContent, r.privateReasoning, Some(sandbox), false,
                              r.toolCalls)]),
      toolAudit := Some(AuditOf(agent, r)),
      sandboxes := Some(map[agent := sandbox]),
      activeAgent := Some(agent))
  }

  function FailureUpdate(who: Attendee, message: string): Update {
    var content := "[" + who.displayName + " - " + who.title + "] (unable to contribute this turn)";
    NoUpdate.(
      messages := Some([MakeUtterance(content, who.id)]),
      eventLog := Some([Event("agent_failed", who.id, content, message, None, false, [])]),
      toolAudit := Some([Audit(None, who.id, None, false, Some(message))]),
      activeAgent := Some(who.id))
  }

  // The stored form of an update

  /** Message objects are not JSON: the row keeps the text and speaker of each. */
  datatype Stored = Stored(utterances: seq<Line>, rest: Update)

  function Serialise(u: Update): Stored {
    var messages := OrEmpty(u.messages);
    Stored(
      seq(|messages|, i requires 0 <= i < |messages| => Line(SpeakerOf(messages[i]), messages[i].content)),
      u.(messages := None))
  }

  function Rehydrate(s: Stored): Update {
    s.rest.(messages := Some(seq(|s.utterances|, i requires 0 <= i < |s.utterances| =>
      MakeUtterance(s.utterances[i].content, s.utterances[i].speaker))))
  }

  /** Storing and reloading gives back exactly the update, precisely for updates
      that carry messages and whose every message is a tagged utterance. */
  lemma RehydrateSerialise(u: Update)
    ensures Rehydrate(Serialise(u)) == u <==>
              u.messages.Some? && forall m :: m in u.messages.value ==> m == MakeUtterance(m.content, SpeakerOf(m))
  {
    var back := Rehydrate(Serialise(u));
    if u.messages.Some? {
      var ms, bs := u.messages.value, back.messages.value;
      assert forall i :: 0 <= i < |ms| ==> bs[i] == MakeUtterance(ms[i].content, SpeakerOf(ms[i]));
      if forall m :: m in ms ==> m == MakeUtterance(m.content, SpeakerOf(m)) {
        assert bs == ms;
      }
      if bs == ms {
        forall m | m in ms ensures m == MakeUtterance(m.content, SpeakerOf(m)) {
          var i :| 0 <= i < |ms| && ms[i] == m;
          assert bs[i] == m;
        }
      }
    }
  }

  /** Every success update survives the turn store unchanged. */
  lemma SuccessRoundTrip(agent: Id, sandbox: string, r: TurnResult)
    ensures Rehydrate(Serialise(SuccessUpdate(agent, sandbox, r))) == SuccessUpdate(agent, sandbox, r)
  {
    RehydrateSerialise(SuccessUpdate(agent, sandbox, r));
  }

  // Ids as the application issues them: non-empty, free of the key separator,
  // and never the chair's closing word.

  predicate GoodId(x: Id) {
    x != "" && ':' !in x && x != FINISH
  }

  predicate GoodRoster(roster: seq<Attendee>) {
    && (forall i :: 0 <= i < |roster| ==> GoodId(roster[i].id))
    && (forall i, j :: 0 <= i < j < |roster| ==> roster[i].id != roster[j].id)
  }

  predicate Attends(a: Id, roster: seq<Attendee>) {
    exists i :: 0 <= i < |roster| && roster[i].id == a
  }

  function FindAttendee(roster: seq<Attendee>, a: Id): (r: Attendee)
    requires Attends(a, roster)
    ensures r in roster && r.id == a
  {
    if roster[0].id == a then roster[0]
    else
      assert Attends(a, roster[1..]) by {
        var i :| 0 <= i < |roster| && roster[i].id == a;
        assert roster[1..][i - 1].id == a;
      }
      FindAttendee(roster[1..], a)
  }
}
