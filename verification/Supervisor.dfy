/** The chair: three attempts at a decision, then whoever has not been heard. */
module Supervisor {
  import opened Wrappers
  import opened Text
  import opened State
  import opened Speaker

  const ATTEMPTS := 3

  /** How one attempt at asking the model ended. Unusable covers every failure
      that raises inside the attempt: a ladder without a value, a transport error. */
  datatype Reply = Unusable(error: string) | Decision(speaker: string, reasoning: string)

  /** The replies the model gives to the attempts of one step. */
  datatype Replies = Replies(first: Reply, second: Reply, third: Reply) {
    function At(i: nat): Reply
      requires i < ATTEMPTS
    {
      if i == 0 then first else if i == 1 then second else third
    }
  }

  function SpokenIds(messages: seq<Message>): set<Id> {
    set m | m in messages && m.kwargs != map[] :: SpeakerOf(m)
  }

  function FirstUnheardOf(spoken: set<Id>, roster: seq<Attendee>): (r: Option<Id>)
    ensures r.Some? ==> exists i :: 0 <= i < |roster| && roster[i].id == r.value && r.value !in spoken &&
                                    forall j :: 0 <= j < i ==> roster[j].id in spoken
    ensures r.None? ==> forall i :: 0 <= i < |roster| ==> roster[i].id in spoken
  {
    if roster == [] then None
    else if roster[0].id !in spoken then Some(roster[0].id)
    else
      var r := FirstUnheardOf(spoken, roster[1..]);
      assert r.Some? ==> exists i :: 0 <= i < |roster| && roster[i].id == r.value && r.value !in spoken &&
                                     forall j :: 0 <= j < i ==> roster[j].id in spoken by {
        if r.Some? {
          var i :| 0 <= i < |roster[1..]| && roster[1..][i].id == r.value && r.value !in spoken &&
                   forall j :: 0 <= j < i ==> roster[1..][j].id in spoken;
          assert roster[i + 1].id == r.value;
          forall j | 0 <= j < i + 1 ensures roster[j].id in spoken {
            assert j > 0 ==> roster[1..][j - 1].id in spoken;
          }
        }
      }
      assert r.None? ==> forall i :: 0 <= i < |roster| ==> roster[i].id in spoken by {
        if r.None? {
          forall i | 0 <= i < |roster| ensures roster[i].id in spoken {
            assert i > 0 ==> roster[i] == roster[1..][i - 1];
          }
        }
      }
      r
  }

  function FirstUnheard(g: Graph, roster: seq<Attendee>): Option<Id> {
    FirstUnheardOf(SpokenIds(g.messages), roster)
  }

  function ChairEvent(content: string, reasoning: string, conclusion: bool): Event {
    Event("supervisor_spoke", "supervisor", content, reasoning, None, conclusion, [])
  }

  function ChairSays(content: string): Option<seq<Message>> {
    Some([Message(content, map[])])
  }

  /** The meeting was stopped, or its turns are spent. */
  function Concluded(g: Graph): Update {
    var reason := if g.stopRequested || g.terminated then "Meeting terminated by user request."
                  else "Meeting reached turn limit (" + ShowInt(g.turnLimit) + ").";
    var content := "[Supervisor] Concluded the meeting.";
    NoUpdate.(nextSpeaker := Some(FINISH), messages := ChairSays(content),
              eventLog := Some([ChairEvent(content, reason, true)]), finalSummary := Some(Some(reason)))
  }

  function Chosen(g: Graph, choice: Id, reasoning: string): Update {
    var content := "[Supervisor] " + (if choice == FINISH then "Concluded the meeting."
                                      else "Selected next speaker: " + choice);
    NoUpdate.(nextSpeaker := Some(choice), currentTurn := Some(g.currentTurn + 1), messages := ChairSays(content),
              eventLog := Some([ChairEvent(content, reasoning, choice == FINISH)]),
              finalSummary := Some(if choice == FINISH then Some(reasoning) else None))
  }

  function Degraded(g: Graph, unheard: Id, error: string): Update {
    var note := "The chair could not reach a decision this turn (" + Clip(error, 160) +
                "); continuing with an attendee who has not spoken.";
    var content := "[Supervisor] Selected next speaker.";
    NoUpdate.(nextSpeaker := Some(unheard), currentTurn := Some(g.currentTurn + 1), messages := ChairSays(content),
              eventLog := Some([ChairEvent(content, note, false),
                                Event("supervisor_selected_next_agent", "supervisor", unheard, "", None, false, [])]))
  }

  function FinishedSafe(reason: string): Update {
    NoUpdate.(nextSpeaker := Some(FINISH),
              eventLog := Some([ChairEvent("[Supervisor] System Error Encountered.", reason, true)]),
              finalSummary := Some(Some(reason)))
  }

  function TechnicalError(error: string): string {
    "Supervisor encountered a technical error: " + error + ". Meeting concluded for safety."
  }

  predicate MustConclude(g: Graph) {
    g.stopRequested || g.terminated || g.currentTurn >= g.turnLimit
  }

  /** An answer that settles the step: it closes the meeting in so many words, or
      it names an attendee. */
  predicate Usable(r: Reply, roster: seq<Attendee>) {
    r.Decision? && (SaysFinish(Strip(r.speaker)) || RecoverSpeakerId(Strip(r.speaker), roster) != FINISH)
  }

  /** When no attempt settles the step: whoever is unheard, or the end. */
  function LastResort(g: Graph, roster: seq<Attendee>, last: Reply): Update {
    var unheard := FirstUnheard(g, roster);
    var named := unheard.Some? && unheard.value != "";
    match last
    case Decision(_, reasoning) => Chosen(g, if named then unheard.value else FINISH, reasoning)
    case Unusable(error) => if named then Degraded(g, unheard.value, error) else FinishedSafe(TechnicalError(error))
  }

  /** The whole step, as a choice among the three replies: the first usable reply
      decides; failing that, the last one says how the chair gave up. */
  function Supervise(g: Graph, roster: seq<Attendee>, replies: Replies): Update {
    if MustConclude(g) then Concluded(g)
    else if Usable(replies.first, roster) then Settle(g, roster, replies.first)
    else if Usable(replies.second, roster) then Settle(g, roster, replies.second)
    else if Usable(replies.third, roster) then Settle(g, roster, replies.third)
    else LastResort(g, roster, replies.third)
  }

  function Settle(g: Graph, roster: seq<Attendee>, r: Reply): Update
    requires r.Decision?
  {
    Chosen(g, RecoverSpeakerId(Strip(r.speaker), roster), r.reasoning)
  }

  /** The node as it runs: one loop, early returns, and a way out for each failure. */
  method SupervisorNode(g: Graph, roster: seq<Attendee>, replies: Replies) returns (u: Update)
    ensures u == Supervise(g, roster, replies)
  {
    if MustConclude(g) {
      return Concluded(g);
    }
    var attempt := 0;
    while true
      invariant 0 <= attempt < ATTEMPTS
      invariant forall i: nat :: i < attempt ==> !Usable(replies.At(i), roster)
      decreases ATTEMPTS - attempt
    {
      match replies.At(attempt) {
        case Decision(speaker, reasoning) =>
          var nextSpeaker := Strip(speaker);
          var explicitFinish := Upper(Strip(nextSpeaker)) == FINISH;
          var resolved := RecoverSpeakerId(nextSpeaker, roster);
          if resolved == FINISH && !explicitFinish {
            if attempt < 2 {
              attempt := attempt + 1;
              continue;
            }
            var unheard := FirstUnheard(g, roster);
            resolved := if unheard.Some? && unheard.value != "" then unheard.value else FINISH;
          }
          assert replies.At(0) == replies.first && replies.At(1) == replies.second;
          return Chosen(g, resolved, reasoning);
        case Unusable(error) =>
          if attempt < 2 {
            attempt := attempt + 1;
            continue;
          }
          assert replies.At(0) == replies.first && replies.At(1) == replies.second;
          var unheard := FirstUnheard(g, roster);
          if unheard.Some? && unheard.value != "" {
            return Degraded(g, unheard.value, error);
          }
          return FinishedSafe(TechnicalError(error));
      }
    }
  }

  function Choice(u: Update): Id {
    if u.nextSpeaker.Some? then u.nextSpeaker.value else FINISH
  }

  /** Where control goes after the chair: an attendee's node, or the end. */
  function Route(g: Graph, roster: seq<Attendee>): Option<Id> {
    if g.nextSpeaker.None? || g.nextSpeaker.value == FINISH then None
    else if !Attends(g.nextSpeaker.value, roster) then None
    else g.nextSpeaker
  }

  /** Every reply either decides or does not; a usable one decides for the person
      it names, or for the end when it says so. */
  lemma UsableReply(r: Reply, roster: seq<Attendee>)
    requires GoodRoster(roster) && r.Decision?
    ensures var choice := RecoverSpeakerId(Strip(r.speaker), roster);
            && (choice == FINISH || Attends(choice, roster))
            && (choice == FINISH && Usable(r, roster) ==> SaysFinish(Strip(r.speaker)))
  {
    RecoverExact(Strip(r.speaker), roster);
  }

  /** What every update of the chair is like: whom it names, what it spends, and that what
      it says is addressed to nobody's account. */
  ghost predicate Proper(g: Graph, roster: seq<Attendee>, u: Update) {
    && u.nextSpeaker.Some?
    && (u.nextSpeaker.value == FINISH || Attends(u.nextSpeaker.value, roster))
    && (u.nextSpeaker.value != FINISH ==> u.currentTurn.Some? && g.currentTurn < g.turnLimit)
    && (u.currentTurn.Some? ==> u.currentTurn.value == g.currentTurn + 1)
    && |OrEmpty(u.messages)| <= 1
    && (forall m :: m in OrEmpty(u.messages) ==> m.kwargs == map[])
  }

  lemma ConcludedProper(g: Graph, roster: seq<Attendee>)
    ensures Proper(g, roster, Concluded(g))
  {
  }

  lemma ChosenProper(g: Graph, roster: seq<Attendee>, choice: Id, reasoning: string)
    requires !MustConclude(g) && (choice == FINISH || Attends(choice, roster))
    ensures Proper(g, roster, Chosen(g, choice, reasoning)) && Choice(Chosen(g, choice, reasoning)) == choice
  {
  }

  lemma DegradedProper(g: Graph, roster: seq<Attendee>, who: Id, error: string)
    requires !MustConclude(g) && Attends(who, roster)
    ensures Proper(g, roster, Degraded(g, who, error)) && Choice(Degraded(g, who, error)) == who
  {
  }

  lemma FinishedProper(g: Graph, roster: seq<Attendee>, reason: string)
    ensures Proper(g, roster, FinishedSafe(reason)) && Choice(FinishedSafe(reason)) == FINISH
  {
  }

  /** The one the step names, without the words around it. */
  function Chooses(g: Graph, roster: seq<Attendee>, replies: Replies): Id {
    if MustConclude(g) then FINISH
    else if Usable(replies.first, roster) then RecoverSpeakerId(Strip(replies.first.speaker), roster)
    else if Usable(replies.second, roster) then RecoverSpeakerId(Strip(replies.second.speaker), roster)
    else if Usable(replies.third, roster) then RecoverSpeakerId(Strip(replies.third.speaker), roster)
    else
      var unheard := FirstUnheard(g, roster);
      if unheard.Some? && unheard.value != "" then unheard.value else FINISH
  }

  lemma SettledProper(g: Graph, roster: seq<Attendee>, r: Reply)
    requires GoodRoster(roster) && !MustConclude(g) && r.Decision?
    ensures Proper(g, roster, Settle(g, roster, r))
    ensures Choice(Settle(g, roster, r)) == RecoverSpeakerId(Strip(r.speaker), roster)
  {
    UsableReply(r, roster);
    ChosenProper(g, roster, RecoverSpeakerId(Strip(r.speaker), roster), r.reasoning);
  }

  lemma LastResortProper(g: Graph, roster: seq<Attendee>, replies: Replies)
    requires GoodRoster(roster) && !MustConclude(g)
    requires !Usable(replies.first, roster) && !Usable(replies.second, roster) && !Usable(replies.third, roster)
    ensures Proper(g, roster, Supervise(g, roster, replies))
    ensures Choice(Supervise(g, roster, replies)) == Chooses(g, roster, replies)
  {
    var unheard := FirstUnheard(g, roster);
    var named := unheard.Some? && unheard.value != "";
    match replies.third
    case Decision(_, reasoning) => ChosenProper(g, roster, if named then unheard.value else FINISH, reasoning);
    case Unusable(error) =>
      if named {
        DegradedProper(g, roster, unheard.value, error);
      } else {
        FinishedProper(g, roster, TechnicalError(error));
      }
  }

  lemma SuperviseProper(g: Graph, roster: seq<Attendee>, replies: Replies)
    requires GoodRoster(roster)
    ensures Proper(g, roster, Supervise(g, roster, replies))
    ensures Choice(Supervise(g, roster, replies)) == Chooses(g, roster, replies)
  {
    if MustConclude(g) {
      ConcludedProper(g, roster);
    } else if Usable(replies.first, roster) {
      SettledProper(g, roster, replies.first);
    } else if Usable(replies.second, roster) {
      SettledProper(g, roster, replies.second);
    } else if Usable(replies.third, roster) {
      SettledProper(g, roster, replies.third);
    } else {
      LastResortProper(g, roster, replies);
    }
  }

  /** The chair always names an attendee or closes the meeting, so the router's
      invalid-target branch is never taken; and naming an attendee always spends
      exactly one turn of a meeting that had one left. */
  lemma ChairChoosesValidly(g: Graph, roster: seq<Attendee>, replies: Replies)
    requires GoodRoster(roster)
    ensures var u := Supervise(g, roster, replies);
            && u.nextSpeaker.Some?
            && (Choice(u) == FINISH || Attends(Choice(u), roster))
            && Route(Apply(g, u), roster) == (if Choice(u) == FINISH then None else Some(Choice(u)))
            && (Choice(u) != FINISH ==> u.currentTurn == Some(g.currentTurn + 1) && g.currentTurn < g.turnLimit)
            && (u.currentTurn.Some? ==> u.currentTurn.value == g.currentTurn + 1)
  {
    SuperviseProper(g, roster, replies);
  }

  /** The reply at i is the one that decides. */
  ghost predicate Decides(replies: Replies, roster: seq<Attendee>, i: nat) {
    i < ATTEMPTS && Usable(replies.At(i), roster) && forall j: nat :: j < i ==> !Usable(replies.At(j), roster)
  }

  lemma DeciderChooses(g: Graph, roster: seq<Attendee>, replies: Replies, i: nat)
    requires !MustConclude(g) && Decides(replies, roster, i)
    ensures Chooses(g, roster, replies) == RecoverSpeakerId(Strip(replies.At(i).speaker), roster)
  {
    assert replies.At(0) == replies.first && replies.At(1) == replies.second && replies.At(2) == replies.third;
  }

  lemma NobodyDecides(g: Graph, roster: seq<Attendee>, replies: Replies)
    requires GoodRoster(roster) && !MustConclude(g) && forall i: nat :: !Decides(replies, roster, i)
    requires exists i :: 0 <= i < |roster| && roster[i].id !in SpokenIds(g.messages)
    ensures FirstUnheard(g, roster) == Some(Chooses(g, roster, replies)) && Chooses(g, roster, replies) != FINISH
  {
    assert replies.At(0) == replies.first && replies.At(1) == replies.second && replies.At(2) == replies.third;
    assert !Usable(replies.first, roster) by { assert !Decides(replies, roster, 0); }
    assert !Usable(replies.second, roster) by { assert !Decides(replies, roster, 1); }
    assert !Usable(replies.third, roster) by { assert !Decides(replies, roster, 2); }
  }

  /** While turns remain and somebody is unheard, the meeting closes exactly when
      the deciding reply says so in as many words, and an attendee is given the turn
      exactly when the deciding reply names that attendee or, with no deciding reply,
      when that attendee is the first one unheard. */
  lemma NoPrematureConclusion(g: Graph, roster: seq<Attendee>, replies: Replies)
    requires GoodRoster(roster) && !MustConclude(g)
    requires exists i :: 0 <= i < |roster| && roster[i].id !in SpokenIds(g.messages)
    ensures var u := Supervise(g, roster, replies);
            && (Choice(u) == FINISH <==>
                exists i: nat :: Decides(replies, roster, i) && SaysFinish(Strip(replies.At(i).speaker))
                                 && !Attends(Strip(Strip(replies.At(i).speaker)), roster))
            && (forall a :: a != FINISH ==>
                  (Choice(u) == a <==>
                   || (exists i: nat :: Decides(replies, roster, i) && Names(Strip(replies.At(i).speaker), roster, a))
                   || ((forall i: nat :: !Decides(replies, roster, i)) && FirstUnheard(g, roster) == Some(a))))
  {
    SuperviseProper(g, roster, replies);
    if i: nat :| Decides(replies, roster, i) {
      var raw := Strip(replies.At(i).speaker);
      RecoverExact(raw, roster);
      DeciderChooses(g, roster, replies, i);
      assert forall j: nat :: Decides(replies, roster, j) ==> j == i;
    } else {
      NobodyDecides(g, roster, replies);
    }
  }
}
