/** A whole meeting at the level of its nodes: the chair, the speaker it picked,
    the chair again, until it closes. */
module Meeting {
  import opened Wrappers
  import opened State
  import opened Supervisor
  import opened Text

  /** Everything an attendee's node can hand back: what was said, or a recorded failure. */
  datatype Turn = Said(sandbox: string, result: TurnResult) | Failed(message: string)

  function TurnUpdate(who: Attendee, t: Turn): Update {
    match t
    case Said(sandbox, result) => SuccessUpdate(who.id, sandbox, result)
    case Failed(message) => FailureUpdate(who, message)
  }

  /** What the outside world contributes to one meeting: the model's replies to each
      step of the chair, and how each turn went. */
  datatype Script = Script(replies: nat -> Replies, turn: nat -> Turn)

  /** How a meeting went: who was given a turn, in order, how often the chair ran,
      and the final state. */
  datatype Course = Course(speakers: seq<Id>, chairSteps: nat, end: Graph)

  function TurnsLeft(g: Graph): nat {
    if g.turnLimit > g.currentTurn then g.turnLimit - g.currentTurn else 0
  }

  function AfterChair(g: Graph, roster: seq<Attendee>, replies: Replies): Graph {
    Apply(g, Supervise(g, roster, replies))
  }

  function AfterTurn(g: Graph, roster: seq<Attendee>, a: Id, t: Turn): Graph
    requires Attends(a, roster)
  {
    Apply(g, TurnUpdate(FindAttendee(roster, a), t))
  }

  /** Each pass through the loop spends a turn, which is why the meeting ends. */
  function Drive(g: Graph, roster: seq<Attendee>, script: Script, round: nat): Course
    requires GoodRoster(roster)
    decreases TurnsLeft(g)
  {
    var g1 := AfterChair(g, roster, script.replies(round));
    match Route(g1, roster)
    case None => Course([], 1, g1)
    case Some(a) =>
      ChairStep(g, roster, script.replies(round));
      TurnStep(g1, roster, a, script.turn(round));
      var rest := Drive(AfterTurn(g1, roster, a, script.turn(round)), roster, script, round + 1);
      Course([a] + rest.speakers, rest.chairSteps + 1, rest.end)
  }

  /** What one step of the chair leaves alone, and what it settles. */
  lemma ChairStep(g: Graph, roster: seq<Attendee>, replies: Replies)
    requires GoodRoster(roster)
    ensures var g1 := AfterChair(g, roster, replies);
            && (Route(g1, roster).None? <==> g1.nextSpeaker == Some(FINISH))
            && (Route(g1, roster).Some? ==> g1.currentTurn == g.currentTurn + 1 && g.currentTurn < g.turnLimit
                                            && Attends(Route(g1, roster).value, roster))
            && Route(g1, roster) == (if Choice(Supervise(g, roster, replies)) == FINISH then None
                                     else Some(Choice(Supervise(g, roster, replies))))
            && PublicTranscript(g1.messages) == PublicTranscript(g.messages)
            && SpokenIds(g1.messages) == SpokenIds(g.messages)
            && g1.turnLimit == g.turnLimit && g1.stopRequested == g.stopRequested && g1.terminated == g.terminated
  {
    ChairChoosesValidly(g, roster, replies);
    ChairIsSilent(g, roster, replies);
  }

  /** One attendee's turn: heard once, and nothing the chair decides on is touched. */
  lemma TurnStep(g: Graph, roster: seq<Attendee>, a: Id, t: Turn)
    requires Attends(a, roster)
    ensures var g2 := AfterTurn(g, roster, a, t);
            && |PublicTranscript(g2.messages)| == |PublicTranscript(g.messages)| + 1
            && SpokenIds(g2.messages) == SpokenIds(g.messages) + {a}
            && g2.turnLimit == g.turnLimit && g2.currentTurn == g.currentTurn
            && g2.stopRequested == g.stopRequested && g2.terminated == g.terminated
  {
    var who := FindAttendee(roster, a);
    var said := TurnUpdate(who, t).messages.value;
    assert |said| == 1 && SpeakerOf(said[0]) == a && IsUtterance(said[0]);
    TranscriptAppends(g.messages, said);
    assert PublicTranscript(said) == said;
    var all := g.messages + said;
    assert forall m :: m in all <==> m in g.messages || m == said[0];
    assert said[0] in all;
  }

  /** Who is heard in a transcript, in order. */
  function Voices(messages: seq<Message>): seq<Id> {
    if messages == [] then [] else [SpeakerOf(messages[0])] + Voices(messages[1..])
  }

  lemma {:induction false} VoicesAppend(xs: seq<Message>, ys: seq<Message>)
    ensures Voices(xs + ys) == Voices(xs) + Voices(ys)
  {
    if xs == [] {
      assert xs + ys == ys;
    } else {
      assert (xs + ys)[1..] == xs[1..] + ys;
      VoicesAppend(xs[1..], ys);
    }
  }

  /** A turn, said or failed, adds its attendee's voice to the transcript. */
  lemma TurnIsHeard(g: Graph, roster: seq<Attendee>, a: Id, t: Turn)
    requires Attends(a, roster)
    ensures Voices(PublicTranscript(AfterTurn(g, roster, a, t).messages)) == Voices(PublicTranscript(g.messages)) + [a]
  {
    var said := TurnUpdate(FindAttendee(roster, a), t).messages.value;
    assert |said| == 1 && SpeakerOf(said[0]) == a && IsUtterance(said[0]);
    TranscriptAppends(g.messages, said);
    assert PublicTranscript(said) == said && said[1..] == [];
    VoicesAppend(PublicTranscript(g.messages), said);
    assert Voices(said) == [a];
  }

  // What a turn leaves behind

  function Tagged(content: string, a: Id): Message {
    Message(content, map["kind" := "utterance", "agent_id" := a])
  }

  lemma TaggedIsHeard(messages: seq<Message>, content: string, a: Id)
    ensures PublicTranscript(messages + [Tagged(content, a)]) == PublicTranscript(messages) + [Tagged(content, a)]
  {
    TranscriptAppends(messages, [Tagged(content, a)]);
    assert [Tagged(content, a)][1..] == [];
  }

  /** A turn said adds to the transcript the result's public content, as one utterance of that
      attendee; the event has its private reasoning beside it, and the audit one entry for each
      tool. Of the rest, only the attendee's sandbox and the active agent change. */
  lemma SaidTurn(g: Graph, roster: seq<Attendee>, a: Id, sandbox: string, r: TurnResult)
    requires Attends(a, roster)
    ensures var g2 := AfterTurn(g, roster, a, Said(sandbox, r));
            var n := |g.toolAudit|;
            && g2.messages == g.messages + [Tagged(r.publicContent, a)]
            && PublicTranscript(g2.messages) == PublicTranscript(g.messages) + [Tagged(r.publicContent, a)]
            && g2.eventLog == g.eventLog + [Event("agent_spoke", a, r.publicContent, r.privateReasoning, Some(sandbox), false,
                                                  r.toolCalls)]
            && |g2.toolAudit| == n + |r.toolResults| && g2.toolAudit[..n] == g.toolAudit
            && (forall i :: 0 <= i < |r.toolResults| ==>
                  g2.toolAudit[n + i] == Audit(Some(r.turnKey), a, Some(r.toolResults[i].name), r.toolResults[i].ok,
                                               r.toolResults[i].denied))
            && g2 == g.(messages := g2.messages, eventLog := g2.eventLog, toolAudit := g2.toolAudit,
                        sandboxes := g.sandboxes[a := sandbox], activeAgent := Some(a))
  {
    TaggedIsHeard(g.messages, r.publicContent, a);
    assert g.sandboxes + map[a := sandbox] == g.sandboxes[a := sandbox];
  }

  /** A turn that failed says so under the attendee's name and title; why it did is in the event and
      the audit, and nowhere else. */
  lemma FailedTurn(g: Graph, roster: seq<Attendee>, i: nat, message: string)
    requires GoodRoster(roster) && i < |roster|
    ensures var who := roster[i];
            Attends(who.id, roster) &&
            var g2 := AfterTurn(g, roster, who.id, Failed(message));
            var content := "[" + who.displayName + " - " + who.title + "] (unable to contribute this turn)";
            && g2.messages == g.messages + [Tagged(content, who.id)]
            && PublicTranscript(g2.messages) == PublicTranscript(g.messages) + [Tagged(content, who.id)]
            && g2.eventLog == g.eventLog + [Event("agent_failed", who.id, content, message, None, false, [])]
            && g2.toolAudit == g.toolAudit + [Audit(None, who.id, None, false, Some(message))]
            && g2 == g.(messages := g2.messages, eventLog := g2.eventLog, toolAudit := g2.toolAudit,
                        activeAgent := Some(who.id))
  {
    var who := roster[i];
    assert FindAttendee(roster, who.id) == who;
    TaggedIsHeard(g.messages, "[" + who.displayName + " - " + who.title + "] (unable to contribute this turn)", who.id);
  }

  // What a persona is asked

  /** The request tells the persona what the meeting is about, who is there, which turn it is, and
      every utterance so far with its speaker, in order. */
  lemma RequestTells(g: Graph, roster: seq<Attendee>, a: Id)
    ensures var q, said := RequestFor(g, roster, a), PublicTranscript(g.messages);
            && q.turnKey == TurnKey(g.meetingId, g.currentTurn, a) && q.topic == g.topic && q.roster == roster
            && |q.transcript| == |said|
            && (forall i :: 0 <= i < |said| ==> q.transcript[i] == Line(SpeakerOf(said[i]), said[i].content))
            && (g.messages == [] ==> q.transcript == [])
            && q.directive == (match g.nextSpeakerReason case None => "" case Some(why) => why)
  {
  }

  /** Whoever is called next is shown what was said last, after all that was shown before. */
  lemma NextRequest(g: Graph, roster: seq<Attendee>, a: Id, sandbox: string, r: TurnResult, replies: Replies, b: Id)
    requires GoodRoster(roster) && Attends(a, roster)
    ensures var g2 := AfterChair(AfterTurn(g, roster, a, Said(sandbox, r)), roster, replies);
            RequestFor(g2, roster, b).transcript == RequestFor(g, roster, a).transcript + [Line(a, r.publicContent)]
  {
    SaidTurn(g, roster, a, sandbox, r);
    ChairIsSilent(AfterTurn(g, roster, a, Said(sandbox, r)), roster, replies);
  }

  // What the chair leaves behind

  /** The chair says one thing, attributed to nobody, and adds these events. */
  predicate ChairLeaves(g: Graph, g1: Graph, content: string, events: seq<Event>) {
    g1.messages == g.messages + [Message(content, map[])] && g1.eventLog == g.eventLog + events
  }

  /** Stopped, or out of turns: the reason is told, and is the summary. */
  lemma ChairConcludes(g: Graph, roster: seq<Attendee>, replies: Replies)
    requires g.stopRequested || g.terminated || g.currentTurn >= g.turnLimit
    ensures var g1 := AfterChair(g, roster, replies);
            var reason := if g.stopRequested || g.terminated then "Meeting terminated by user request."
                          else "Meeting reached turn limit (" + ShowInt(g.turnLimit) + ").";
            var content := "[Supervisor] Concluded the meeting.";
            && ChairLeaves(g, g1, content, [Event("supervisor_spoke", "supervisor", content, reason, None, true, [])])
            && g1 == g.(messages := g1.messages, eventLog := g1.eventLog, nextSpeaker := Some("FINISH"),
                        finalSummary := Some(reason))
  {
  }

  /** The first usable reply decides: its reason is told, and is the summary of a meeting it ends. */
  lemma ChairChooses(g: Graph, roster: seq<Attendee>, replies: Replies, i: nat)
    requires !g.stopRequested && !g.terminated && g.currentTurn < g.turnLimit && Decides(replies, roster, i)
    ensures var g1 := AfterChair(g, roster, replies);
            g1.nextSpeaker.Some? &&
            var choice, reason := g1.nextSpeaker.value, replies.At(i).reasoning;
            var content := "[Supervisor] " + (if choice == "FINISH" then "Concluded the meeting."
                                              else "Selected next speaker: " + choice);
            && ChairLeaves(g, g1, content,
                           [Event("supervisor_spoke", "supervisor", content, reason, None, choice == "FINISH", [])])
            && g1 == g.(messages := g1.messages, eventLog := g1.eventLog, nextSpeaker := Some(choice),
                        currentTurn := g.currentTurn + 1, finalSummary := if choice == "FINISH" then Some(reason) else None)
  {
    assert replies.At(0) == replies.first && replies.At(1) == replies.second && replies.At(2) == replies.third;
    assert Supervise(g, roster, replies) == Settle(g, roster, replies.At(i));
  }

  /** With no usable reply and somebody unheard, that one is called: in the words of the last reply,
      if there was one, and otherwise with its error, as far as 160 characters go. */
  lemma ChairFallsBack(g: Graph, roster: seq<Attendee>, replies: Replies)
    requires !g.stopRequested && !g.terminated && g.currentTurn < g.turnLimit && Deaf(replies, roster)
    requires FirstUnheard(g, roster).Some? && FirstUnheard(g, roster).value != "" && FirstUnheard(g, roster).value != FINISH
    ensures var g1, who := AfterChair(g, roster, replies), FirstUnheard(g, roster).value;
            && g1.nextSpeaker == Some(who) && g1.currentTurn == g.currentTurn + 1
            && (replies.third.Decision? ==>
                  var content := "[Supervisor] " + ("Selected next speaker: " + who);
                  && g1.finalSummary == None
                  && ChairLeaves(g, g1, content, [Event("supervisor_spoke", "supervisor", content, replies.third.reasoning,
                                                        None, false, [])]))
            && (replies.third.Unusable? ==>
                  var content, error := "[Supervisor] Selected next speaker.", replies.third.error;
                  var note := "The chair could not reach a decision this turn ("
                              + (if |error| <= 160 then error else error[..160])
                              + "); continuing with an attendee who has not spoken.";
                  && g1.finalSummary == g.finalSummary
                  && ChairLeaves(g, g1, content,
                                 [Event("supervisor_spoke", "supervisor", content, note, None, false, []),
                                  Event("supervisor_selected_next_agent", "supervisor", who, "", None, false, [])]))
  {
    assert Supervise(g, roster, replies) == LastResort(g, roster, replies.third);
  }

  /** With no usable reply and everybody heard, the meeting closes: on the last reply's reason, or with
      an account of the error, which is told in an event and not in a message. */
  lemma ChairGivesUp(g: Graph, roster: seq<Attendee>, replies: Replies)
    requires !g.stopRequested && !g.terminated && g.currentTurn < g.turnLimit && Deaf(replies, roster)
    requires FirstUnheard(g, roster).None?
    ensures var g1 := AfterChair(g, roster, replies);
            && g1.nextSpeaker == Some("FINISH")
            && (replies.third.Decision? ==>
                  var content, reason := "[Supervisor] " + "Concluded the meeting.", replies.third.reasoning;
                  && g1.finalSummary == Some(reason) && g1.currentTurn == g.currentTurn + 1
                  && ChairLeaves(g, g1, content, [Event("supervisor_spoke", "supervisor", content, reason, None, true, [])]))
            && (replies.third.Unusable? ==>
                  var reason := "Supervisor encountered a technical error: " + replies.third.error
                                + ". Meeting concluded for safety.";
                  && g1.finalSummary == Some(reason) && g1.currentTurn == g.currentTurn && g1.messages == g.messages
                  && g1.eventLog == g.eventLog + [Event("supervisor_spoke", "supervisor",
                                                        "[Supervisor] System Error Encountered.", reason, None, true, [])])
  {
    assert Supervise(g, roster, replies) == LastResort(g, roster, replies.third);
  }

  /** Work bound: from any state, at most the turns left are given, each to an
      attendee, with the chair running exactly once more than there are turns; and
      the meeting always ends closed, with one utterance per turn. */
  lemma {:induction false} WorkBound(g: Graph, roster: seq<Attendee>, script: Script, round: nat)
    requires GoodRoster(roster)
    ensures var c := Drive(g, roster, script, round);
            && |c.speakers| <= TurnsLeft(g)
            && c.chairSteps == |c.speakers| + 1
            && (forall a :: a in c.speakers ==> Attends(a, roster))
            && c.end.nextSpeaker == Some(FINISH)
            && |PublicTranscript(c.end.messages)| == |PublicTranscript(g.messages)| + |c.speakers|
    decreases TurnsLeft(g)
  {
    var g1 := AfterChair(g, roster, script.replies(round));
    ChairStep(g, roster, script.replies(round));
    if Route(g1, roster).Some? {
      var a := Route(g1, roster).value;
      TurnStep(g1, roster, a, script.turn(round));
      WorkBound(AfterTurn(g1, roster, a, script.turn(round)), roster, script, round + 1);
    }
  }

  lemma {:induction false} TranscriptAppends(xs: seq<Message>, ys: seq<Message>)
    ensures PublicTranscript(xs + ys) == PublicTranscript(xs) + PublicTranscript(ys)
  {
    if xs == [] {
      assert xs + ys == ys;
    } else {
      assert (xs + ys)[1..] == xs[1..] + ys;
      TranscriptAppends(xs[1..], ys);
    }
  }

  /** Nothing the chair says reaches the public transcript or counts as a turn taken. */
  lemma ChairIsSilent(g: Graph, roster: seq<Attendee>, replies: Replies)
    requires GoodRoster(roster)
    ensures var g1 := Apply(g, Supervise(g, roster, replies));
            && PublicTranscript(g1.messages) == PublicTranscript(g.messages)
            && SpokenIds(g1.messages) == SpokenIds(g.messages)
            && g1.turnLimit == g.turnLimit && g1.stopRequested == g.stopRequested && g1.terminated == g.terminated
            && g1.meetingId == g.meetingId && g1.nextSpeakerReason == g.nextSpeakerReason && g1.topic == g.topic
  {
    SuperviseProper(g, roster, replies);
    SilentMessages(g.messages, OrEmpty(Supervise(g, roster, replies).messages));
  }

  lemma SilentMessages(messages: seq<Message>, said: seq<Message>)
    requires |said| <= 1 && forall m :: m in said ==> m.kwargs == map[]
    ensures PublicTranscript(messages + said) == PublicTranscript(messages)
    ensures SpokenIds(messages + said) == SpokenIds(messages)
  {
    TranscriptAppends(messages, said);
    assert forall m :: m in messages + said <==> m in messages || m in said;
  }

  // The dead chair

  /** None of a step's replies is usable. */
  predicate Deaf(replies: Replies, roster: seq<Attendee>) {
    !Usable(replies.first, roster) && !Usable(replies.second, roster) && !Usable(replies.third, roster)
  }

  /** A model that never gives a usable reply. */
  ghost predicate Dead(script: Script, roster: seq<Attendee>) {
    forall round: nat :: Deaf(script.replies(round), roster)
  }

  function Ids(roster: seq<Attendee>): (ids: seq<Id>)
    ensures |ids| == |roster| && forall i :: 0 <= i < |roster| ==> ids[i] == roster[i].id
  {
    seq(|roster|, i requires 0 <= i < |roster| => roster[i].id)
  }

  function Min(a: nat, b: nat): nat {
    if a < b then a else b
  }

  /** The next people in the roster, as many as there are turns for. */
  function InTurn(roster: seq<Attendee>, from: nat, turns: nat): (ids: seq<Id>)
    requires from <= |roster|
    ensures |ids| == Min(|roster| - from, turns)
    ensures forall i :: 0 <= i < |ids| ==> ids[i] == roster[from + i].id
    decreases turns
  {
    if turns == 0 || from == |roster| then [] else [roster[from].id] + InTurn(roster, from + 1, turns - 1)
  }

  /** Exactly the first n attendees have been heard. */
  ghost predicate HeardFirst(g: Graph, roster: seq<Attendee>, n: nat) {
    n <= |roster| && forall a :: a in SpokenIds(g.messages) <==> a in Ids(roster)[..n]
  }

  lemma DriveOn(g: Graph, roster: seq<Attendee>, script: Script, round: nat, a: Id)
    requires GoodRoster(roster) && Route(AfterChair(g, roster, script.replies(round)), roster) == Some(a)
    ensures Attends(a, roster) &&
            Drive(g, roster, script, round).speakers
            == [a] + Drive(AfterTurn(AfterChair(g, roster, script.replies(round)), roster, a, script.turn(round)),
                           roster, script, round + 1).speakers
  {
    ChairStep(g, roster, script.replies(round));
  }

  lemma DriveEnds(g: Graph, roster: seq<Attendee>, script: Script, round: nat)
    requires GoodRoster(roster) && Route(AfterChair(g, roster, script.replies(round)), roster).None?
    ensures Drive(g, roster, script, round).speakers == []
  {
  }

  /** With a dead chair, the people still unheard each get exactly one turn, in
      roster order, and the meeting stops early only at the turn limit. */
  lemma {:induction false} DeadChairFrom(g: Graph, roster: seq<Attendee>, script: Script, round: nat, heard: nat)
    requires GoodRoster(roster) && Dead(script, roster) && HeardFirst(g, roster, heard)
    requires !g.stopRequested && !g.terminated
    ensures Drive(g, roster, script, round).speakers == InTurn(roster, heard, TurnsLeft(g))
    decreases TurnsLeft(g)
  {
    var g1 := AfterChair(g, roster, script.replies(round));
    DeadRound(g, roster, script.replies(round), script.turn(round), heard);
    if !MustConclude(g) && heard < |roster| {
      DeadChairFrom(AfterTurn(g1, roster, roster[heard].id, script.turn(round)), roster, script, round + 1, heard + 1);
      DriveOn(g, roster, script, round, roster[heard].id);
    } else {
      DriveEnds(g, roster, script, round);
    }
  }

  lemma DeadRound(g: Graph, roster: seq<Attendee>, replies: Replies, t: Turn, heard: nat)
    requires GoodRoster(roster) && HeardFirst(g, roster, heard) && Deaf(replies, roster)
    requires !g.stopRequested && !g.terminated
    ensures var g1 := AfterChair(g, roster, replies);
            if MustConclude(g) || heard == |roster| then Route(g1, roster) == None else
            && Route(g1, roster) == Some(roster[heard].id)
            && Attends(roster[heard].id, roster)
            && var g2 := AfterTurn(g1, roster, roster[heard].id, t);
            && HeardFirst(g2, roster, heard + 1) && !g2.stopRequested && !g2.terminated
            && TurnsLeft(g2) == TurnsLeft(g) - 1
  {
    ChairStep(g, roster, replies);
    DeadStep(g, roster, replies, heard);
    if !MustConclude(g) && heard < |roster| {
      var g1 := AfterChair(g, roster, replies);
      TurnStep(g1, roster, roster[heard].id, t);
      HeardNext(g, AfterTurn(g1, roster, roster[heard].id, t), roster, heard);
    }
  }

  lemma HeardNext(g: Graph, g2: Graph, roster: seq<Attendee>, heard: nat)
    requires HeardFirst(g, roster, heard) && heard < |roster|
    requires SpokenIds(g2.messages) == SpokenIds(g.messages) + {roster[heard].id}
    ensures HeardFirst(g2, roster, heard + 1)
  {
    assert Ids(roster)[..heard + 1] == Ids(roster)[..heard] + [roster[heard].id];
  }

  lemma DeadStep(g: Graph, roster: seq<Attendee>, replies: Replies, heard: nat)
    requires GoodRoster(roster) && HeardFirst(g, roster, heard) && Deaf(replies, roster)
    ensures Route(AfterChair(g, roster, replies), roster) ==
            if MustConclude(g) || heard == |roster| then None else Some(roster[heard].id)
  {
    ChairStep(g, roster, replies);
    UnheardNext(g, roster, heard);
  }

  lemma UnheardNext(g: Graph, roster: seq<Attendee>, heard: nat)
    requires GoodRoster(roster) && HeardFirst(g, roster, heard)
    ensures FirstUnheard(g, roster) == if heard < |roster| then Some(roster[heard].id) else None
  {
    var ids := Ids(roster);
    forall i | 0 <= i < |roster| ensures roster[i].id in SpokenIds(g.messages) <==> i < heard {
      if i < heard {
        assert ids[..heard][i] == roster[i].id;
      } else {
        assert forall j :: 0 <= j < heard ==> ids[..heard][j] == roster[j].id;
      }
    }
  }

  /** A meeting that starts empty with a model that never answers usefully hears each
      attendee exactly once, in roster order, up to the turn limit, and then closes. */
  lemma DeadChairCoversEveryone(g: Graph, roster: seq<Attendee>, script: Script)
    requires GoodRoster(roster) && Dead(script, roster)
    requires g.messages == [] && !g.stopRequested && !g.terminated
    ensures var c := Drive(g, roster, script, 0);
            && c.speakers == Ids(roster)[..Min(|roster|, TurnsLeft(g))]
            && c.end.nextSpeaker == Some(FINISH)
            && c.chairSteps == |c.speakers| + 1
  {
    assert SpokenIds(g.messages) == {};
    DeadChairFrom(g, roster, script, 0, 0);
    WorkBound(g, roster, script, 0);
    assert InTurn(roster, 0, TurnsLeft(g)) == Ids(roster)[..Min(|roster|, TurnsLeft(g))];
  }
}
