/** What a meeting's checkpoint amounts to: in every reachable state of the distributed
    protocol, it is the outcome of a plain sequence of chair steps and honest turns. */
module History {
  import opened Wrappers
  import opened State
  import opened Supervisor
  import opened Meeting
  import opened Machine
  import opened Invariant
  import opened Preservation
  import opened Transparency

  /** One node of a meeting run to its end. */
  datatype Entry = ChairActed(replies: Replies) | TurnTaken(turn: Turn)

  datatype Spot = Spot(graph: Graph, node: Node)

  function Next(spot: Spot, roster: seq<Attendee>, e: Entry): Option<Spot> {
    match (e, spot.node)
    case (ChairActed(replies), Chair) =>
      var g := AfterChair(spot.graph, roster, replies);
      Some(Spot(g, match Route(g, roster) case None => End case Some(a) => Speaker(a)))
    case (TurnTaken(turn), Speaker(a)) =>
      if Attends(a, roster) then Some(Spot(AfterTurn(spot.graph, roster, a, turn), Chair)) else None
    case _ => None
  }

  /** Where a meeting that began with a graph stands after its history, if one node could
      follow the other like this. */
  function Play(g: Graph, roster: seq<Attendee>, hist: seq<Entry>): Option<Spot> {
    if hist == [] then Some(Spot(g, Chair))
    else
      match Play(g, roster, hist[..|hist| - 1])
      case None => None
      case Some(spot) => Next(spot, roster, hist[|hist| - 1])
  }

  /** The persona gave this answer to the request made of it at this point. */
  ghost predicate HonestTurn(voice: Voice, m: Id, roster: seq<Attendee>, spot: Spot, turn: Turn) {
    spot.node.Speaker? &&
    (turn.Said? ==>
      var a := spot.node.agent;
      && voice(Key(m, a), RequestFor(spot.graph, roster, a), turn.result)
      && turn.result.turnKey == TurnKey(m, spot.graph.currentTurn, a)
      && turn.result.agentId == a)
  }

  /** Every turn in the history was honest when it was taken. */
  ghost predicate Honest(voice: Voice, m: Id, g: Graph, roster: seq<Attendee>, hist: seq<Entry>) {
    forall i :: 0 <= i < |hist| && hist[i].TurnTaken? ==>
      Play(g, roster, hist[..i]).Some? && HonestTurn(voice, m, roster, Play(g, roster, hist[..i]).value, hist[i].turn)
  }

  predicate Opening(m: Id, g: Graph) {
    g.meetingId == m && g.messages == [] && g.eventLog == [] && g.nextSpeakerReason == None
  }

  /** The thread's checkpoint is what this history makes of that opening. */
  ghost predicate Account(voice: Voice, m: Id, t: Thread, g: Graph, hist: seq<Entry>) {
    Opening(m, g) && Honest(voice, m, g, t.roster, hist) && Play(g, t.roster, hist) == Some(Spot(t.graph, t.node))
  }

  // Runs seen from their end

  lemma RunsSnoc(voice: Voice, w: World, acts: seq<Action>, w': World) returns (mid: World)
    requires Runs(voice, w, acts, w') && acts != []
    ensures Runs(voice, w, acts[..|acts| - 1], mid)
    ensures Can(voice, mid, acts[|acts| - 1]) && Do(voice, mid, acts[|acts| - 1]) == w'
    decreases |acts|
  {
    if |acts| == 1 {
      mid := w;
      assert acts[1..] == [];
      assert acts[..0] == [];
    } else {
      mid := RunsSnoc(voice, Do(voice, w, acts[0]), acts[1..], w');
      assert acts[1..][..|acts| - 2] == acts[..|acts| - 1][1..];
      assert acts[1..][|acts| - 2] == acts[|acts| - 1];
    }
  }

  ghost predicate Reachable(voice: Voice, w: World) {
    exists acts :: Runs(voice, Initial, acts, w)
  }

  lemma ReachableFacts(voice: Voice, w: World)
    requires Reachable(voice, w)
    ensures Inv(voice, w) && AllTidy(w)
  {
    var acts :| Runs(voice, Initial, acts, w);
    InitialInv(voice);
    var f := RunFollows(voice, Initial, acts, w, Initial, w.pods.Keys);
  }

  // Steps and histories

  predicate About(act: Action, m: Id) {
    !act.Happens? && act.m == m
  }

  lemma CheckpointStays(voice: Voice, w: World, act: Action, m: Id)
    requires Inv(voice, w) && AllTidy(w) && Can(voice, w, act) && m in w.threads
    requires !(Commits(act) && About(act, m))
    ensures SameCheckpoint(w, Do(voice, w, act), m)
  {
    if Commits(act) {
      CommitElsewhere(voice, w, act, m);
    } else {
      QuietHushed(voice, w, Initial, act);
      assert HushedAt(w, Do(voice, w, act), Initial, m);
    }
  }

  lemma CommitElsewhere(voice: Voice, w: World, act: Action, m: Id)
    requires Can(voice, w, act) && m in w.threads && Commits(act) && !About(act, m)
    ensures SameCheckpoint(w, Do(voice, w, act), m)
  {
    match act
    case Ask(x, step) => ReturnedIsReturn(w, x);
    case Conduct(x, step) =>
  }

  lemma Extend(voice: Voice, m: Id, t: Thread, t': Thread, g: Graph, hist: seq<Entry>, e: Entry)
    requires Account(voice, m, t, g, hist) && t'.roster == t.roster
    requires Next(Spot(t.graph, t.node), t.roster, e) == Some(Spot(t'.graph, t'.node))
    requires e.TurnTaken? ==> HonestTurn(voice, m, t.roster, Spot(t.graph, t.node), e.turn)
    ensures Account(voice, m, t', g, hist + [e])
  {
    var longer := hist + [e];
    assert longer[..|longer| - 1] == hist;
    forall i | 0 <= i < |longer| && longer[i].TurnTaken?
      ensures Play(g, t.roster, longer[..i]).Some?
              && HonestTurn(voice, m, t.roster, Play(g, t.roster, longer[..i]).value, longer[i].turn)
    {
      if i < |hist| {
        assert longer[..i] == hist[..i];
        assert hist[i].TurnTaken?;
      } else {
        assert longer[..i] == hist;
      }
    }
  }

  lemma SpokenExtends(voice: Voice, w: World, m: Id, g: Graph, hist: seq<Entry>, n: Name, r: TurnResult)
    requires m in w.threads && w.threads[m].pc.Returning? && Account(voice, m, w.threads[m], g, hist)
    requires w.threads[m].graph.meetingId == m
    requires Spoken(voice, w, m, w.threads[m], w.threads[m].pc.update, n, r)
    ensures Account(voice, m, Returned(w, m).threads[m], g, hist + [TurnTaken(Said(n, r))])
  {
    Extend(voice, m, w.threads[m], Returned(w, m).threads[m], g, hist, TurnTaken(Said(n, r)));
  }

  lemma FailedExtends(voice: Voice, w: World, m: Id, g: Graph, hist: seq<Entry>, message: string)
    requires Visiting(w, m) && w.threads[m].pc.Returning? && Account(voice, m, w.threads[m], g, hist)
    requires w.threads[m].pc.update == FailureUpdate(WhoIs(w.threads[m]), message)
    ensures Account(voice, m, Returned(w, m).threads[m], g, hist + [TurnTaken(Failed(message))])
  {
    Extend(voice, m, w.threads[m], Returned(w, m).threads[m], g, hist, TurnTaken(Failed(message)));
  }

  lemma ReturnExtends(voice: Voice, w: World, m: Id, g: Graph, hist: seq<Entry>) returns (e: Entry)
    requires Inv(voice, w) && CanAsk(w, m, Return) && Account(voice, m, w.threads[m], g, hist)
    ensures Account(voice, m, Returned(w, m).threads[m], g, hist + [e])
  {
    var t := w.threads[m];
    ReturningIsPossible(voice, w, m);
    if message :| t.pc.update == FailureUpdate(WhoIs(t), message) {
      e := TurnTaken(Failed(message));
      FailedExtends(voice, w, m, g, hist, message);
    } else {
      var n, r :| Spoken(voice, w, m, t, t.pc.update, n, r);
      PcFacts(voice, w, m);
      e := TurnTaken(Said(n, r));
      SpokenExtends(voice, w, m, g, hist, n, r);
    }
  }

  lemma DecisionExtends(voice: Voice, w: World, m: Id, replies: Replies, g: Graph, hist: seq<Entry>)
    requires Inv(voice, w) && m in w.threads && w.threads[m].pc.AtChair? && Account(voice, m, w.threads[m], g, hist)
    ensures Account(voice, m, Routed(w.threads[m], replies), g, hist + [ChairActed(replies)])
  {
    PcFacts(voice, w, m);
    Extend(voice, m, w.threads[m], Routed(w.threads[m], replies), g, hist, ChairActed(replies));
  }

  lemma StartAccounts(voice: Voice, m: Id, roster: seq<Attendee>, g: Graph)
    requires Opening(m, g)
    ensures Account(voice, m, Thread(roster, g, Chair, AtChair, NoWork, true), g, [])
  {
  }

  /** The history grew by what the action did, or began with it. */
  ghost predicate Enters(act: Action, t: Option<Thread>, t': Thread, g: Graph, hist: seq<Entry>, g': Graph, hist': seq<Entry>)
    requires !act.Happens?
  {
    match t
    case None => act == Conduct(act.m, Start(t'.roster, g')) && hist' == []
    case Some(t) =>
      && g' == g && t'.roster == t.roster && |hist'| == |hist| + 1 && hist'[..|hist|] == hist
      && (hist'[|hist|].ChairActed? ==> act == Conduct(act.m, ChairDecides(hist'[|hist|].replies)))
  }

  function ThreadOf(w: World, m: Id): Option<Thread> {
    if m in w.threads then Some(w.threads[m]) else None
  }

  lemma CommitExtends(voice: Voice, w: World, act: Action, g: Graph, hist: seq<Entry>) returns (g': Graph, hist': seq<Entry>)
    requires Inv(voice, w) && Can(voice, w, act) && Commits(act)
    requires act.m in w.threads ==> Account(voice, act.m, w.threads[act.m], g, hist)
    ensures act.m in Do(voice, w, act).threads && Account(voice, act.m, Do(voice, w, act).threads[act.m], g', hist')
    ensures Enters(act, ThreadOf(w, act.m), Do(voice, w, act).threads[act.m], g, hist, g', hist')
  {
    var m := act.m;
    match act
    case Ask(_, step) =>
      ReturnedIsReturn(w, m);
      var e := ReturnExtends(voice, w, m, g, hist);
      g', hist' := g, hist + [e];
    case Conduct(_, step) => g', hist' := ConductExtends(voice, w, m, step, g, hist);
  }

  lemma ConductExtends(voice: Voice, w: World, m: Id, step: ConductStep, g: Graph, hist: seq<Entry>)
    returns (g': Graph, hist': seq<Entry>)
    requires Inv(voice, w) && CanConduct(w, m, step) && MovesCheckpoint(step)
    requires m in w.threads ==> Account(voice, m, w.threads[m], g, hist)
    ensures m in DoConduct(w, m, step).threads && Account(voice, m, DoConduct(w, m, step).threads[m], g', hist')
    ensures Enters(Conduct(m, step), ThreadOf(w, m), DoConduct(w, m, step).threads[m], g, hist, g', hist')
  {
    match step
    case Start(roster, g0) =>
      StartAccounts(voice, m, roster, g0);
      g', hist' := g0, [];
    case ChairDecides(replies) =>
      DecisionExtends(voice, w, m, replies, g, hist);
      g', hist' := g, hist + [ChairActed(replies)];
  }

  /** The run opened the meeting like this, and its chair decided what the history says. */
  ghost predicate Enacted(acts: seq<Action>, m: Id, roster: seq<Attendee>, g: Graph, hist: seq<Entry>) {
    && Conduct(m, Start(roster, g)) in acts
    && forall i :: 0 <= i < |hist| && hist[i].ChairActed? ==> Conduct(m, ChairDecides(hist[i].replies)) in acts
  }

  lemma EnactedOn(acts: seq<Action>, m: Id, t: Option<Thread>, t': Thread, g: Graph, hist: seq<Entry>, g': Graph, hist': seq<Entry>)
    requires acts != [] && About(acts[|acts| - 1], m) && Enters(acts[|acts| - 1], t, t', g, hist, g', hist')
    requires t.Some? ==> Enacted(acts[..|acts| - 1], m, t.value.roster, g, hist)
    ensures Enacted(acts, m, t'.roster, g', hist')
  {
    assert acts[|acts| - 1] in acts;
    if t.Some? {
      forall i | 0 <= i < |hist'| && hist'[i].ChairActed? ensures Conduct(m, ChairDecides(hist'[i].replies)) in acts {
        if i < |hist| {
          assert hist'[i] == hist'[..|hist|][i] == hist[i];
        }
      }
    }
  }

  /** Refinement: wherever a run arrives, each meeting's checkpoint is what a plain
      sequence of chair steps and turns makes of its opening, and whatever a turn added
      to the transcript is what that attendee's persona said to that very request. */
  lemma {:induction false} RunsArePlays(voice: Voice, acts: seq<Action>, w: World, m: Id) returns (g: Graph, hist: seq<Entry>)
    requires Runs(voice, Initial, acts, w) && m in w.threads
    ensures Account(voice, m, w.threads[m], g, hist) && Enacted(acts, m, w.threads[m].roster, g, hist)
    decreases |acts|
  {
    var mid := RunsSnoc(voice, Initial, acts, w);
    var act := acts[|acts| - 1];
    assert Reachable(voice, mid);
    ReachableFacts(voice, mid);
    if m in mid.threads {
      g, hist := RunsArePlays(voice, acts[..|acts| - 1], mid, m);
    } else {
      g := w.threads[m].graph;
      hist := [];
    }
    if Commits(act) && About(act, m) {
      var g0, hist0 := g, hist;
      g, hist := CommitExtends(voice, mid, act, g0, hist0);
      EnactedOn(acts, m, ThreadOf(mid, m), w.threads[m], g0, hist0, g, hist);
    } else {
      OnlyCommitsOpen(voice, mid, act, m);
      CheckpointStays(voice, mid, act, m);
    }
  }

  lemma OnlyCommitsOpen(voice: Voice, w: World, act: Action, m: Id)
    requires Inv(voice, w) && AllTidy(w) && Can(voice, w, act) && m in Do(voice, w, act).threads
    requires !(Commits(act) && About(act, m))
    ensures m in w.threads
  {
    if Commits(act) {
      CommitOpensOne(voice, w, act);
    } else {
      QuietHushed(voice, w, Initial, act);
    }
  }

  lemma CommitOpensOne(voice: Voice, w: World, act: Action)
    requires Can(voice, w, act) && Commits(act)
    ensures Do(voice, w, act).threads.Keys <= w.threads.Keys + {act.m}
  {
    match act
    case Ask(x, step) => ReturnedIsReturn(w, x);
    case Conduct(x, step) =>
  }

  // What such a history is worth

  function TurnsIn(hist: seq<Entry>): nat {
    if hist == [] then 0 else TurnsIn(hist[..|hist| - 1]) + (if hist[|hist| - 1].TurnTaken? then 1 else 0)
  }

  function ChairStepsIn(hist: seq<Entry>): nat {
    if hist == [] then 0 else ChairStepsIn(hist[..|hist| - 1]) + (if hist[|hist| - 1].TurnTaken? then 0 else 1)
  }

  /** Along any history the turns never run past the limit, the chair acts once before each
      turn and once to close, and the transcript holds exactly one utterance a turn. */
  lemma {:induction false} PlayBounds(g: Graph, roster: seq<Attendee>, hist: seq<Entry>)
    requires GoodRoster(roster) && Play(g, roster, hist).Some?
    ensures var spot := Play(g, roster, hist).value;
            && spot.graph.turnLimit == g.turnLimit
            && g.currentTurn <= spot.graph.currentTurn
            && TurnsIn(hist) + (if spot.node.Speaker? then 1 else 0) + TurnsLeft(spot.graph) <= TurnsLeft(g)
            && ChairStepsIn(hist) == TurnsIn(hist) + (if spot.node.Chair? then 0 else 1)
            && |PublicTranscript(spot.graph.messages)| == |PublicTranscript(g.messages)| + TurnsIn(hist)
            && (spot.node.Speaker? ==> Attends(spot.node.agent, roster))
  {
    if hist != [] {
      var earlier, last := hist[..|hist| - 1], hist[|hist| - 1];
      PlayBounds(g, roster, earlier);
      var spot := Play(g, roster, earlier).value;
      match last
      case ChairActed(replies) => DecisionSpends(spot.graph, roster, replies);
      case TurnTaken(turn) => TurnStep(spot.graph, roster, spot.node.agent, turn);
    }
  }

  lemma DecisionSpends(g: Graph, roster: seq<Attendee>, replies: Replies)
    requires GoodRoster(roster)
    ensures var g1 := AfterChair(g, roster, replies);
            && g1.turnLimit == g.turnLimit && g.currentTurn <= g1.currentTurn
            && TurnsLeft(g1) + (if Route(g1, roster).Some? then 1 else 0) <= TurnsLeft(g)
            && |PublicTranscript(g1.messages)| == |PublicTranscript(g.messages)|
            && (Route(g1, roster).Some? ==> Attends(Route(g1, roster).value, roster))
  {
    ChairStep(g, roster, replies);
    ChairChoosesValidly(g, roster, replies);
  }

  /** A meeting is bounded however often the backend crashes under it: at no time has it
      taken more turns than its opening allowed, nor the chair acted more than once more,
      and everything in its transcript came from one of those turns. */
  lemma MeetingsAreBounded(voice: Voice, acts: seq<Action>, w: World, m: Id)
    requires Runs(voice, Initial, acts, w) && m in w.threads
    ensures exists g, hist :: && Account(voice, m, w.threads[m], g, hist)
                              && TurnsIn(hist) <= TurnsLeft(g) && ChairStepsIn(hist) <= TurnsLeft(g) + 1
                              && |PublicTranscript(w.threads[m].graph.messages)| == TurnsIn(hist)
  {
    var g, hist := RunsArePlays(voice, acts, w, m);
    assert Reachable(voice, w);
    ReachableFacts(voice, w);
    PcFacts(voice, w, m);
    PlayBounds(g, w.threads[m].roster, hist);
  }

  // What was said, and what is asked

  /** What a turn puts on the transcript: what the persona published, or that it could not. */
  function LineOf(roster: seq<Attendee>, a: Id, turn: Turn): Line
    requires Attends(a, roster)
  {
    match turn
    case Said(_, r) => Line(a, r.publicContent)
    case Failed(_) =>
      var who := FindAttendee(roster, a);
      Line(a, "[" + who.displayName + " - " + who.title + "] (unable to contribute this turn)")
  }

  /** One line for every turn of the history, in order. */
  function Lines(g: Graph, roster: seq<Attendee>, hist: seq<Entry>): seq<Line> {
    if hist == [] then []
    else
      var earlier, last := hist[..|hist| - 1], hist[|hist| - 1];
      match (last, Play(g, roster, earlier))
      case (TurnTaken(turn), Some(spot)) =>
        Lines(g, roster, earlier)
        + (if spot.node.Speaker? && Attends(spot.node.agent, roster) then [LineOf(roster, spot.node.agent, turn)] else [])
      case _ => Lines(g, roster, earlier)
  }

  function Utterances(lines: seq<Line>): (messages: seq<Message>)
    ensures |messages| == |lines| && forall i :: 0 <= i < |lines| ==> messages[i] == Tagged(lines[i].content, lines[i].speaker)
  {
    seq(|lines|, i requires 0 <= i < |lines| => Tagged(lines[i].content, lines[i].speaker))
  }

  lemma TurnIsSaid(g: Graph, roster: seq<Attendee>, a: Id, turn: Turn)
    requires GoodRoster(roster) && Attends(a, roster)
    ensures var line := LineOf(roster, a, turn);
            var g2 := AfterTurn(g, roster, a, turn);
            PublicTranscript(g2.messages) == PublicTranscript(g.messages) + [Tagged(line.content, line.speaker)] && g2.topic == g.topic
  {
    match turn
    case Said(sandbox, r) => SaidTurn(g, roster, a, sandbox, r);
    case Failed(message) =>
      var i :| 0 <= i < |roster| && roster[i].id == a;
      FailedTurn(g, roster, i, message);
      assert FindAttendee(roster, a) == roster[i];
  }

  lemma {:induction false} PlaySays(g: Graph, roster: seq<Attendee>, hist: seq<Entry>)
    requires GoodRoster(roster) && g.messages == [] && Play(g, roster, hist).Some?
    ensures var now := Play(g, roster, hist).value.graph;
            && PublicTranscript(now.messages) == Utterances(Lines(g, roster, hist)) && now.topic == g.topic
            && |Lines(g, roster, hist)| == TurnsIn(hist)
  {
    if hist != [] {
      var earlier, last := hist[..|hist| - 1], hist[|hist| - 1];
      PlaySays(g, roster, earlier);
      var spot := Play(g, roster, earlier).value;
      match last
      case ChairActed(replies) => ChairIsSilent(spot.graph, roster, replies);
      case TurnTaken(turn) => TurnIsSaid(spot.graph, roster, spot.node.agent, turn);
    }
  }

  /** In every reachable state the public transcript is, in order, what the personas published in
      the turns of the meeting's history: each answer word for word as its persona gave it to the
      request made of it, and a notice for each turn that failed. */
  lemma TranscriptOfRuns(voice: Voice, acts: seq<Action>, w: World, m: Id) returns (g: Graph, hist: seq<Entry>)
    requires Runs(voice, Initial, acts, w) && m in w.threads
    ensures var t := w.threads[m];
            && Account(voice, m, t, g, hist) && Enacted(acts, m, t.roster, g, hist)
            && PublicTranscript(t.graph.messages) == Utterances(Lines(g, t.roster, hist))
            && |Lines(g, t.roster, hist)| == TurnsIn(hist) && t.graph.topic == g.topic
  {
    g, hist := RunsArePlays(voice, acts, w, m);
    assert Reachable(voice, w);
    ReachableFacts(voice, w);
    PcFacts(voice, w, m);
    PlaySays(g, w.threads[m].roster, hist);
  }

  /** And whoever is asked, in any reachable state, is told just that: the topic the meeting opened
      with, everybody at the table, the key of the present turn, and one line for every turn taken
      so far, so none at all for the first speaker. */
  lemma RequestsOfRuns(voice: Voice, acts: seq<Action>, w: World, m: Id) returns (g: Graph, hist: seq<Entry>)
    requires Runs(voice, Initial, acts, w) && m in w.threads && w.threads[m].node.Speaker?
    ensures var t := w.threads[m];
            var q := RequestOf(t);
            && Account(voice, m, t, g, hist) && Enacted(acts, m, t.roster, g, hist)
            && q.turnKey == TurnKey(m, t.graph.currentTurn, t.node.agent)
            && q.topic == g.topic && q.roster == t.roster && q.directive == ""
            && q.transcript == Lines(g, t.roster, hist) && |q.transcript| == TurnsIn(hist)
  {
    var t := w.threads[m];
    g, hist := TranscriptOfRuns(voice, acts, w, m);
    assert Reachable(voice, w);
    ReachableFacts(voice, w);
    PcFacts(voice, w, m);
    RequestTells(t.graph, t.roster, t.node.agent);
  }

  // A dead chair, whatever crashes

  predicate AllDeaf(hist: seq<Entry>, roster: seq<Attendee>) {
    forall i :: 0 <= i < |hist| && hist[i].ChairActed? ==> Deaf(hist[i].replies, roster)
  }

  /** The first so many attendees have been heard, once each and in order, and a turn was spent on
      each; with a turn under way it is the next one's, and the end comes when the roster or the
      turns are through. */
  ghost predicate InRosterOrder(g: Graph, roster: seq<Attendee>, spot: Spot, n: nat) {
    && HeardFirst(spot.graph, roster, n) && Voices(PublicTranscript(spot.graph.messages)) == Ids(roster)[..n]
    && !spot.graph.stopRequested && !spot.graph.terminated && n <= TurnsLeft(g)
    && match spot.node
       case Chair => TurnsLeft(spot.graph) + n == TurnsLeft(g)
       case Speaker(a) => n < |roster| && a == roster[n].id && TurnsLeft(spot.graph) + n + 1 == TurnsLeft(g)
       case End => n == Min(|roster|, TurnsLeft(g))
  }

  lemma DeafStep(g: Graph, roster: seq<Attendee>, spot: Spot, replies: Replies, n: nat)
    requires GoodRoster(roster) && Deaf(replies, roster) && spot.node.Chair? && InRosterOrder(g, roster, spot, n)
    ensures InRosterOrder(g, roster, Next(spot, roster, ChairActed(replies)).value, n)
  {
    ChairStep(spot.graph, roster, replies);
    DeadStep(spot.graph, roster, replies, n);
  }

  lemma VoiceOneMore(g: Graph, roster: seq<Attendee>, turn: Turn, n: nat)
    requires n < |roster| && Attends(roster[n].id, roster) && Voices(PublicTranscript(g.messages)) == Ids(roster)[..n]
    ensures Voices(PublicTranscript(AfterTurn(g, roster, roster[n].id, turn).messages)) == Ids(roster)[..n + 1]
  {
    TurnIsHeard(g, roster, roster[n].id, turn);
    assert Ids(roster)[..n + 1] == Ids(roster)[..n] + [roster[n].id];
  }

  lemma HeardOneMore(g: Graph, roster: seq<Attendee>, turn: Turn, n: nat)
    requires n < |roster| && Attends(roster[n].id, roster) && HeardFirst(g, roster, n)
    ensures HeardFirst(AfterTurn(g, roster, roster[n].id, turn), roster, n + 1)
  {
    TurnStep(g, roster, roster[n].id, turn);
    HeardNext(g, AfterTurn(g, roster, roster[n].id, turn), roster, n);
  }

  lemma HeardStep(g: Graph, roster: seq<Attendee>, spot: Spot, turn: Turn, n: nat)
    requires GoodRoster(roster) && spot.node.Speaker? && Attends(spot.node.agent, roster) && InRosterOrder(g, roster, spot, n)
    ensures InRosterOrder(g, roster, Next(spot, roster, TurnTaken(turn)).value, n + 1)
  {
    VoiceOneMore(spot.graph, roster, turn, n);
    HeardOneMore(spot.graph, roster, turn, n);
    TurnStep(spot.graph, roster, spot.node.agent, turn);
  }

  lemma NobodyYet(g: Graph, roster: seq<Attendee>)
    requires g.messages == [] && !g.stopRequested && !g.terminated
    ensures InRosterOrder(g, roster, Spot(g, Chair), 0)
  {
    assert SpokenIds(g.messages) == {};
  }

  lemma {:induction false} DeafPlay(g: Graph, roster: seq<Attendee>, hist: seq<Entry>)
    requires GoodRoster(roster) && AllDeaf(hist, roster) && Play(g, roster, hist).Some?
    requires g.messages == [] && !g.stopRequested && !g.terminated
    ensures InRosterOrder(g, roster, Play(g, roster, hist).value, TurnsIn(hist))
  {
    if hist == [] {
      NobodyYet(g, roster);
    } else {
      var earlier, last := hist[..|hist| - 1], hist[|hist| - 1];
      assert forall i :: 0 <= i < |earlier| ==> earlier[i] == hist[i];
      DeafPlay(g, roster, earlier);
      var spot := Play(g, roster, earlier).value;
      match last
      case ChairActed(replies) => DeafStep(g, roster, spot, replies, TurnsIn(earlier));
      case TurnTaken(turn) => HeardStep(g, roster, spot, turn, TurnsIn(earlier));
    }
  }

  /** With a chair that never gets a usable reply, every meeting that reaches its end has heard
      each attendee exactly once, in roster order, up to the turn limit: through any crashes, lost
      sandboxes, failing stores, replays and meetings in between. */
  lemma DeadChairStillCovers(voice: Voice, acts: seq<Action>, w: World, m: Id) returns (g: Graph)
    requires Runs(voice, Initial, acts, w) && m in w.threads && w.threads[m].node.End?
    requires forall replies :: Conduct(m, ChairDecides(replies)) in acts ==> Deaf(replies, w.threads[m].roster)
    requires forall roster, g0 :: Conduct(m, Start(roster, g0)) in acts ==> !g0.stopRequested && !g0.terminated
    ensures Conduct(m, Start(w.threads[m].roster, g)) in acts
    ensures var t := w.threads[m];
            Voices(PublicTranscript(t.graph.messages)) == Ids(t.roster)[..Min(|t.roster|, TurnsLeft(g))]
  {
    var hist;
    g, hist := RunsArePlays(voice, acts, w, m);
    assert Reachable(voice, w);
    ReachableFacts(voice, w);
    PcFacts(voice, w, m);
    DeafPlay(g, w.threads[m].roster, hist);
  }
}
