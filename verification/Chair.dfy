/** One step of the chair with the ladders it climbs: up to three, each only when the one
    before gave nothing that settles the step. */
module Chair {
  import opened Wrappers
  import opened Text
  import opened State
  import opened Speaker
  import opened Salvage
  import opened Ladder
  import S = Supervisor
  import M = Meeting

  /** The three ladders there may be in a step. */
  datatype Callers = Callers(first: Caller, second: Caller, third: Caller) {
    function At(i: nat): Caller
      requires i < S.ATTEMPTS
    {
      if i == 0 then first else if i == 1 then second else third
    }
  }

  function Climbing(c: Caller): Outcome {
    Climb(c, LADDER, [])
  }

  lemma ThreeCalls(c: Caller)
    ensures |Climbing(c).attempts| <= 3
  {
    LadderSound(c, LADDER, []);
  }

  /** What the ladders would each make the chair hear. */
  function Heard(callers: Callers): S.Replies {
    S.Replies(ReplyOf(Climbing(callers.first)), ReplyOf(Climbing(callers.second)), ReplyOf(Climbing(callers.third)))
  }

  lemma HeardAt(callers: Callers, i: nat)
    requires i < S.ATTEMPTS
    ensures Heard(callers).At(i) == ReplyOf(Climbing(callers.At(i)))
  {
  }

  /** The calls made in the first ladders. */
  function CallsIn(callers: Callers, ladders: nat): nat
    requires ladders <= S.ATTEMPTS
  {
    if ladders == 0 then 0 else CallsIn(callers, ladders - 1) + |Climbing(callers.At(ladders - 1)).attempts|
  }

  /** How many ladders a step climbs: up to the first whose reply settles it. */
  function LaddersNeeded(g: Graph, roster: seq<Attendee>, replies: S.Replies): (n: nat)
    ensures n <= S.ATTEMPTS
  {
    if S.MustConclude(g) then 0
    else if S.Usable(replies.first, roster) then 1
    else if S.Usable(replies.second, roster) then 2
    else 3
  }

  /** The node, asking the model only as far as it must. */
  method ChairNode(g: Graph, roster: seq<Attendee>, callers: Callers) returns (u: Update, calls: nat)
    ensures u == S.Supervise(g, roster, Heard(callers))
    ensures calls == CallsIn(callers, LaddersNeeded(g, roster, Heard(callers)))
    ensures calls <= 9 && (S.MustConclude(g) ==> calls == 0)
  {
    calls := 0;
    if S.MustConclude(g) {
      return S.Concluded(g), calls;
    }
    ghost var replies := Heard(callers);
    var attempt := 0;
    var last := S.Unusable("");
    while attempt < S.ATTEMPTS
      invariant 0 <= attempt <= S.ATTEMPTS
      invariant forall i: nat :: i < attempt ==> !S.Usable(replies.At(i), roster)
      invariant attempt > 0 ==> last == replies.At(attempt - 1)
      invariant calls == CallsIn(callers, attempt) && calls <= 3 * attempt
    {
      var outcome := StructuredCall(callers.At(attempt), LADDER);
      ThreeCalls(callers.At(attempt));
      HeardAt(callers, attempt);
      calls := calls + |outcome.attempts|;
      last := ReplyOf(outcome);
      attempt := attempt + 1;
      if last.Decision? {
        var speaker := Strip(last.speaker);
        var resolved := RecoverSpeakerId(speaker, roster);
        if resolved != FINISH || SaysFinish(speaker) {
          DecidedHere(g, roster, replies, attempt - 1);
          return S.Chosen(g, resolved, last.reasoning), calls;
        }
      }
    }
    NobodyDecided(g, roster, replies);
    u := S.LastResort(g, roster, last);
  }

  lemma DecidedHere(g: Graph, roster: seq<Attendee>, replies: S.Replies, i: nat)
    requires i < S.ATTEMPTS && !S.MustConclude(g) && S.Usable(replies.At(i), roster)
    requires forall j: nat :: j < i ==> !S.Usable(replies.At(j), roster)
    ensures S.Supervise(g, roster, replies) == S.Settle(g, roster, replies.At(i))
    ensures LaddersNeeded(g, roster, replies) == i + 1
  {
    assert i > 0 ==> !S.Usable(replies.At(0), roster);
    assert i > 1 ==> !S.Usable(replies.At(1), roster);
  }

  lemma NobodyDecided(g: Graph, roster: seq<Attendee>, replies: S.Replies)
    requires !S.MustConclude(g) && forall j: nat :: j < S.ATTEMPTS ==> !S.Usable(replies.At(j), roster)
    ensures S.Supervise(g, roster, replies) == S.LastResort(g, roster, replies.third)
    ensures LaddersNeeded(g, roster, replies) == 3 && replies.At(2) == replies.third
  {
    assert !S.Usable(replies.At(0), roster) && !S.Usable(replies.At(1), roster) && !S.Usable(replies.At(2), roster);
  }

  // What the model said

  /** The n-th response in the ladder is the last, and it offers an answer with this speaker, for
      this reason. */
  ghost predicate Answered(c: Caller, n: nat, speaker: string, reasoning: string) {
    var attempts := Climbing(c).attempts;
    && n + 1 == |attempts| && c.name == "next_speaker"
    && exists v :: Offers(c, ResponseTo(c, attempts, n), v) && Speaks(v, "next_speaker")
                   && Decides(v.value, speaker, reasoning)
  }

  /** The speaker named, without the whitespace around it, and the reason given, if any. */
  predicate Decides(v: Fields, speaker: string, reasoning: string)
    requires "next_speaker" in v
  {
    && Shows(v["next_speaker"], speaker, true)
    && if "reasoning" in v then Shows(v["reasoning"], reasoning, false) else reasoning == ""
  }

  predicate Shows(j: Json, text: string, stripped: bool) {
    match j
    case Str(t) => text == if stripped then Strip(t) else t
    case Falsy => text == ""
    case Truthy(t) => text == if stripped then Strip(t) else t
  }

  /** A ladder decides by what one response of the model offers, parsed or salvaged. */
  lemma DecisionIsAnAnswer(c: Caller)
    requires c.name == "next_speaker"
    ensures var r := ReplyOf(Climbing(c));
            && (r.Decision? ==> exists n: nat :: Answered(c, n, r.speaker, r.reasoning))
            && (forall n: nat, speaker, reasoning :: Answered(c, n, speaker, reasoning) ==> r == S.Decision(speaker, reasoning))
  {
    if Climbing(c).value.Some? {
      var n := AnswerDecides(c);
    } else {
      NothingAnswers(c);
    }
  }

  lemma AnswerDecides(c: Caller) returns (n: nat)
    requires c.name == "next_speaker" && Climbing(c).value.Some?
    ensures var r := ReplyOf(Climbing(c));
            && r.Decision? && Answered(c, n, r.speaker, r.reasoning)
            && (forall n: nat, speaker, reasoning :: Answered(c, n, speaker, reasoning) ==> r == S.Decision(speaker, reasoning))
  {
    ValueIsTheAnswer(c, LADDER);
    n := |Climbing(c).attempts| - 1;
    OffersExactly(c, ResponseTo(c, Climbing(c).attempts, n));
    assert Strip("") == "";
  }

  lemma NothingAnswers(c: Caller)
    requires Climbing(c).value.None?
    ensures forall n: nat, speaker, reasoning :: !Answered(c, n, speaker, reasoning)
  {
    ValueIsTheAnswer(c, LADDER);
    forall n: nat, speaker: string, reasoning: string ensures !Answered(c, n, speaker, reasoning) {
      if n + 1 == |Climbing(c).attempts| {
        assert !Settles(c, ResponseTo(c, Climbing(c).attempts, n));
      }
    }
  }

  /** The first ladder whose answer settles the step, and the speaker it names. */
  ghost predicate SettledBy(roster: seq<Attendee>, callers: Callers, i: nat, speaker: string) {
    && i < S.ATTEMPTS && S.Decides(Heard(callers), roster, i)
    && exists n: nat, reasoning :: Answered(callers.At(i), n, speaker, reasoning)
  }

  predicate Asking(callers: Callers) {
    callers.first.name == "next_speaker" && callers.second.name == "next_speaker" && callers.third.name == "next_speaker"
  }

  /** While turns remain and somebody is unheard, the chair closes the meeting exactly when a
      response of the model, the first that settles the step, says so in as many words:
      parsed, in a tool call, in markup or in JSON, but literally the closing word. A model
      that fails, refuses, rambles or names nobody never ends a meeting. */
  lemma ClosesOnlyOnTheWord(g: Graph, roster: seq<Attendee>, callers: Callers)
    requires GoodRoster(roster) && Asking(callers) && !S.MustConclude(g)
    requires exists i :: 0 <= i < |roster| && roster[i].id !in S.SpokenIds(g.messages)
    ensures S.Choice(S.Supervise(g, roster, Heard(callers))) == FINISH
            <==> exists i: nat, speaker :: SettledBy(roster, callers, i, speaker) && SaysFinish(speaker)
                                           && !Attends(Strip(speaker), roster)
  {
    var replies := Heard(callers);
    S.NoPrematureConclusion(g, roster, replies);
    forall i: nat | i < S.ATTEMPTS
      ensures forall speaker :: SettledBy(roster, callers, i, speaker)
                                <==> S.Decides(replies, roster, i) && replies.At(i).speaker == speaker
      ensures replies.At(i).Decision? ==> Strip(replies.At(i).speaker) == replies.At(i).speaker
    {
      HeardAt(callers, i);
      DecisionIsAnAnswer(callers.At(i));
      RepliesNameSomebody(callers.At(i), LADDER);
      if replies.At(i).Decision? {
        StripTrimmed(replies.At(i).speaker);
      }
    }
    if i: nat :| S.Decides(replies, roster, i) && SaysFinish(Strip(replies.At(i).speaker))
                 && !Attends(Strip(Strip(replies.At(i).speaker)), roster) {
      assert SettledBy(roster, callers, i, replies.At(i).speaker);
    }
  }

  // A whole meeting's calls

  /** The ladders there may be in each step of the chair. */
  type Callings = nat -> Callers

  function ScriptOf(callings: Callings, turn: nat -> M.Turn): M.Script {
    M.Script((round: nat) => Heard(callings(round)), turn)
  }

  /** The calls to the chair's model over a whole meeting, round after round. */
  function MeetingCalls(g: Graph, roster: seq<Attendee>, callings: Callings, turn: nat -> M.Turn, round: nat): nat
    requires GoodRoster(roster)
    decreases M.TurnsLeft(g)
  {
    var replies := Heard(callings(round));
    var g1 := M.AfterChair(g, roster, replies);
    CallsIn(callings(round), LaddersNeeded(g, roster, replies)) +
    match S.Route(g1, roster)
    case None => 0
    case Some(a) =>
      M.ChairStep(g, roster, replies);
      M.TurnStep(g1, roster, a, turn(round));
      MeetingCalls(M.AfterTurn(g1, roster, a, turn(round)), roster, callings, turn, round + 1)
  }

  lemma StepCalls(g: Graph, roster: seq<Attendee>, callers: Callers)
    ensures var calls := CallsIn(callers, LaddersNeeded(g, roster, Heard(callers)));
            calls <= 9 && (S.MustConclude(g) ==> calls == 0)
  {
    ThreeCalls(callers.first);
    ThreeCalls(callers.second);
    ThreeCalls(callers.third);
    assert CallsIn(callers, 0) == 0 && CallsIn(callers, 1) <= 3 && CallsIn(callers, 2) <= 6;
  }

  /** A whole meeting asks the chair's model at most nine times for every turn taken and once
      more, and at most nine times for every turn there was, whatever the model does. */
  lemma {:induction false} MeetingCallsBounded(g: Graph, roster: seq<Attendee>, callings: Callings, turn: nat -> M.Turn, round: nat)
    requires GoodRoster(roster)
    ensures var calls := MeetingCalls(g, roster, callings, turn, round);
            && calls <= 9 * (|M.Drive(g, roster, ScriptOf(callings, turn), round).speakers| + 1)
            && calls <= 9 * M.TurnsLeft(g)
    decreases M.TurnsLeft(g)
  {
    var replies := Heard(callings(round));
    var g1 := M.AfterChair(g, roster, replies);
    StepCalls(g, roster, callings(round));
    if S.Route(g1, roster).Some? {
      var a := S.Route(g1, roster).value;
      M.ChairStep(g, roster, replies);
      M.TurnStep(g1, roster, a, turn(round));
      MeetingCallsBounded(M.AfterTurn(g1, roster, a, turn(round)), roster, callings, turn, round + 1);
      M.DriveOn(g, roster, ScriptOf(callings, turn), round, a);
    }
  }
}
