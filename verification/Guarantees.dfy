/** What the protocol promises its operators, over every run: who may have said what,
    where every claimed sandbox is, and how much work one turn can cost. */
module Guarantees {
  import opened Wrappers
  import opened State
  import opened Supervisor
  import opened Meeting
  import opened Machine
  import opened Invariant
  import opened Preservation
  import opened Transparency
  import opened History
  import opened Paths
  import Cache = TurnCache

  // Bind before turn

  /** A turn request only ever gets through to a sandbox whose persona is the attendee
      whose turn it is, in this very meeting; and an answer the backend accepts was given
      by that persona to that request, from the sandbox leased for it. */
  lemma BoundBeforeTurn(voice: Voice, acts: seq<Action>, w: World, m: Id)
    requires Runs(voice, Initial, acts, w) && m in w.threads
    ensures Reached(w, m) ==> BoundPersona(w, m) == KeyOf(m, w.threads[m])
    ensures Reached(w, m) && CachedTurn(w, m).Some? ==>
              CachedTurn(w, m).value.author == KeyOf(m, w.threads[m])
              && Answers(voice, m, w.threads[m], CachedTurn(w, m).value.result)
    ensures w.threads[m].pc.Recording? ==>
              && w.threads[m].node.Speaker?
              && w.threads[m].pc.answer.author == KeyOf(m, w.threads[m])
              && Answers(voice, m, w.threads[m], w.threads[m].pc.answer.result)
              && Leads(w, KeyOf(m, w.threads[m]), w.threads[m].pc.sandbox)
  {
    ReachableNow(voice, acts, w);
    PcFacts(voice, w, m);
    if Reached(w, m) {
      ReachedPersona(voice, w, m);
      if CachedTurn(w, m).Some? {
        CachedTurnAnswers(voice, w, m);
      }
    }
  }

  lemma ReachableNow(voice: Voice, acts: seq<Action>, w: World)
    requires Runs(voice, Initial, acts, w)
    ensures Inv(voice, w) && AllTidy(w)
  {
    assert Reachable(voice, w);
    ReachableFacts(voice, w);
  }

  /** A freshly leased sandbox is always bound before it is asked: whoever asks holds a
      lease that is marked bound, and no other persona is in its sandbox. */
  lemma ReplacementIsRebound(voice: Voice, acts: seq<Action>, w: World, m: Id)
    requires Runs(voice, Initial, acts, w) && m in w.threads && w.threads[m].pc.Asking?
    ensures var t := w.threads[m];
            && InNode(t) && Leads(w, KeyOf(m, t), t.pc.sandbox) && w.leases[KeyOf(m, t)].bound
            && t.pc.sandbox in w.pods && PersonaIs(w.pods[t.pc.sandbox], KeyOf(m, t))
  {
    ReachableNow(voice, acts, w);
    PcFacts(voice, w, m);
    LeaseOwns(voice, w, KeyOf(m, w.threads[m]));
  }

  // Where every claim is

  /** The places a claim can be. */
  ghost function Whereabouts(w: World, n: Name): multiset<string>
    requires n in w.pods
  {
    var p := w.pods[n];
    (if Leads(w, p.owner, n) then multiset{"leased"} else multiset{})
    + (if HeldBy(w, p.owner.meeting, n) then multiset{"in hand"} else multiset{})
    + (if p.releases == 1 then multiset{"released"} else multiset{})
    + (if n in w.orphans then multiset{"orphaned"} else multiset{})
    + (if n in w.stranded then multiset{"stranded"} else multiset{})
  }

  lemma HeldIsKept(voice: Voice, w: World, n: Name)
    requires Inv(voice, w) && n in w.pods && HeldBy(w, w.pods[n].owner.meeting, n)
    ensures Kept(w, n, w.pods[n].owner) && !Leads(w, w.pods[n].owner, n)
  {
    InHandWasKept(voice, w, w.pods[n].owner.meeting, n);
  }

  lemma PlacedOnce(w: World, n: Name)
    requires Placed(w, n)
    requires Leads(w, w.pods[n].owner, n) ==> Kept(w, n, w.pods[n].owner)
    requires HeldBy(w, w.pods[n].owner.meeting, n) ==> Kept(w, n, w.pods[n].owner) && !Leads(w, w.pods[n].owner, n)
    ensures |Whereabouts(w, n)| == 1 && w.pods[n].releases <= 1
  {
  }

  /** Every claim ever created is in exactly one place: leased, in the hands of the node
      or the executor that is dealing with it, deleted once, orphaned by a crash, or
      stranded by a failed read-back. No deletion is attempted twice. */
  lemma ClaimsAccountedFor(voice: Voice, acts: seq<Action>, w: World, n: Name)
    requires Runs(voice, Initial, acts, w) && n in w.pods
    ensures |Whereabouts(w, n)| == 1 && w.pods[n].releases <= 1
  {
    ReachableNow(voice, acts, w);
    InvPlaces(voice, w, n);
    if Leads(w, w.pods[n].owner, n) {
      LeaseOwns(voice, w, w.pods[n].owner);
    }
    if HeldBy(w, w.pods[n].owner.meeting, n) {
      HeldIsKept(voice, w, n);
    }
    PlacedOnce(w, n);
  }

  lemma InvPlaces(voice: Voice, w: World, n: Name)
    requires Inv(voice, w) && n in w.pods
    ensures Placed(w, n)
  {
    PodOk(voice, w, n);
    InvParts(voice, w, w.pods[n].owner.meeting);
  }

  /** No two leases share a sandbox. */
  lemma LeasesAreDisjoint(voice: Voice, acts: seq<Action>, w: World, k: Key, k': Key)
    requires Runs(voice, Initial, acts, w) && k in w.leases && k' in w.leases
    requires w.leases[k].sandbox == w.leases[k'].sandbox
    ensures k == k'
  {
    ReachableNow(voice, acts, w);
    LeaseOwns(voice, w, k);
    LeaseOwns(voice, w, k');
  }

  // The end of a meeting

  /** Once the executor is done, the meeting holds nothing: each of its claims was deleted,
      orphaned or stranded. */
  lemma DrainedMeetingHoldsNothing(voice: Voice, acts: seq<Action>, w: World, m: Id)
    requires Runs(voice, Initial, acts, w) && m in w.threads && w.threads[m].pc.Done?
    ensures NoLeases(w, m)
    ensures forall n :: n in w.pods && w.pods[n].owner.meeting == m ==>
              w.pods[n].releases == 1 || n in w.orphans || n in w.stranded
  {
    ReachableNow(voice, acts, w);
    DoneHoldsNothing(voice, w, m);
    forall n | n in w.pods && w.pods[n].owner.meeting == m
      ensures w.pods[n].releases == 1 || n in w.orphans || n in w.stranded
    {
      InvPlaces(voice, w, n);
      NowhereElse(w, m, n);
    }
  }

  lemma DoneHoldsNothing(voice: Voice, w: World, m: Id)
    requires Inv(voice, w) && m in w.threads && w.threads[m].pc.Done?
    ensures NoLeases(w, m)
  {
    PcFacts(voice, w, m);
  }

  lemma NowhereElse(w: World, m: Id, n: Name)
    requires Placed(w, n) && w.pods[n].owner.meeting == m && m in w.threads && Hands(w.threads[m].pc) == {} && NoLeases(w, m)
    ensures w.pods[n].releases == 1 || n in w.orphans || n in w.stranded
  {
  }

  // Startup

  /** After a crash nobody holds anything, so everything the dead backend was keeping is an
      orphan; and once meetings are reaped the sweep targets every sandbox the cluster
      still lists. */
  lemma StartupSweepsOrphans(voice: Voice, acts: seq<Action>, w: World, listing: set<Name>)
    requires Runs(voice, Initial, acts, w) && CanHappen(w, Startup(true, listing))
    ensures w.leases == map[]
    ensures forall n :: n in w.pods ==> w.pods[n].releases == 1 || n in w.orphans || n in w.stranded
    ensures var w' := DoHappen(w, Startup(true, listing));
            forall n :: n in w.pods ==> w'.pods[n].sweeps == w.pods[n].sweeps + (if n in listing then 1 else 0)
  {
    ReachableNow(voice, acts, w);
    forall n | n in w.pods ensures w.pods[n].releases == 1 || n in w.orphans || n in w.stranded {
      InvPlaces(voice, w, n);
    }
    SweepTargets(w, listing);
  }

  lemma SweepTargets(w: World, listing: set<Name>)
    ensures forall n :: n in w.pods ==>
              Started(w, true, listing).pods[n].sweeps == w.pods[n].sweeps + (if n in listing then 1 else 0)
  {
    var w' := w.(up := true, threads := Reaped(w.threads));
    assert forall n :: n in w.pods ==> Stale(w', w.pods[n]);
  }

  // A sweep never takes what is in use

  /** Whatever was swept was already lost to the manager. */
  ghost predicate SweptIsLost(w: World) {
    forall n :: n in w.pods && w.pods[n].sweeps > 0 ==> !Kept(w, n, w.pods[n].owner)
  }

  /** Sweeps are not counted, and what is lost stays lost. */
  ghost predicate Unswept(w: World, w': World) {
    && w.pods.Keys <= w'.pods.Keys
    && (forall n :: n in w'.pods && n !in w.pods ==> w'.pods[n].sweeps == 0)
    && (forall n :: n in w.pods ==> LostStaysLost(w, w', n))
  }

  ghost predicate LostStaysLost(w: World, w': World, n: Name)
    requires n in w.pods && n in w'.pods
  {
    && w'.pods[n].sweeps == w.pods[n].sweeps && w'.pods[n].owner == w.pods[n].owner
    && w.pods[n].releases <= w'.pods[n].releases
    && (n in w.orphans ==> n in w'.orphans) && (n in w.stranded ==> n in w'.stranded)
  }

  lemma ClaimUnswept(w: World, m: Id, step: ClaimStep)
    requires CanClaim(w, m, step)
    ensures Unswept(w, DoClaim(w, m, step))
  {
  }

  lemma AskUnswept(w: World, m: Id, step: AskStep)
    requires CanAsk(w, m, step)
    ensures Unswept(w, DoAsk(w, m, step))
  {
    match step
    case DeleteTried => DeleteUnswept(w, m);
    case Raise(error) => RaiseUnswept(w, m, error);
    case LeaveRaises(error) => LeaveRaisesUnswept(w, m, error);
    case _ =>
  }

  lemma DeleteUnswept(w: World, m: Id)
    requires CanAsk(w, m, DeleteTried)
    ensures Unswept(w, DoAsk(w, m, DeleteTried))
  {
  }

  lemma RaiseUnswept(w: World, m: Id, error: string)
    requires CanAsk(w, m, Raise(error))
    ensures Unswept(w, DoAsk(w, m, Raise(error)))
  {
    SamePodsUnswept(w, DoAsk(w, m, Raise(error)));
  }

  lemma LeaveRaisesUnswept(w: World, m: Id, error: string)
    requires CanAsk(w, m, LeaveRaises(error))
    ensures Unswept(w, DoAsk(w, m, LeaveRaises(error)))
  {
    SamePodsUnswept(w, DoAsk(w, m, LeaveRaises(error)));
  }

  lemma SamePodsUnswept(w: World, w': World)
    requires w'.pods == w.pods && w'.orphans == w.orphans && w'.stranded == w.stranded
    ensures Unswept(w, w')
  {
  }

  lemma ServeUnswept(voice: Voice, w: World, m: Id, step: ServeStep)
    requires CanServe(voice, w, m, step)
    ensures Unswept(w, DoServe(voice, w, m, step))
  {
  }

  lemma ConductUnswept(w: World, m: Id, step: ConductStep)
    requires CanConduct(w, m, step)
    ensures Unswept(w, DoConduct(w, m, step))
  {
  }

  lemma FaultUnswept(w: World, e: Fault)
    requires CanHappen(w, e) && !e.Startup?
    ensures Unswept(w, DoHappen(w, e))
  {
  }

  lemma StepUnswept(voice: Voice, w: World, act: Action)
    requires Can(voice, w, act) && !(act.Happens? && act.fault.Startup?)
    ensures Unswept(w, Do(voice, w, act))
  {
    match act
    case Claim(m, step) => ClaimUnswept(w, m, step);
    case Ask(m, step) => AskUnswept(w, m, step);
    case Serve(m, step) => ServeUnswept(voice, w, m, step);
    case Conduct(m, step) => ConductUnswept(w, m, step);
    case Happens(e) => FaultUnswept(w, e);
  }

  lemma UnsweptKeeps(w: World, w': World)
    requires SweptIsLost(w) && Unswept(w, w')
    ensures SweptIsLost(w')
  {
    forall n | n in w'.pods && w'.pods[n].sweeps > 0 ensures !Kept(w', n, w'.pods[n].owner) {
      assert n in w.pods && LostStaysLost(w, w', n);
    }
  }

  /** A backend that is down keeps nothing. */
  lemma DownKeepsNothing(voice: Voice, w: World, n: Name)
    requires Inv(voice, w) && !w.up && n in w.pods
    ensures !Kept(w, n, w.pods[n].owner)
  {
    InvPlaces(voice, w, n);
  }

  lemma StartupSweepsLost(voice: Voice, w: World, reaped: bool, listing: set<Name>)
    requires Inv(voice, w) && CanHappen(w, Startup(reaped, listing))
    ensures SweptIsLost(Started(w, reaped, listing))
  {
    forall n | n in w.pods ensures !Kept(w, n, w.pods[n].owner) {
      DownKeepsNothing(voice, w, n);
    }
    StartedKeptness(w, reaped, listing);
  }

  lemma StartedKeptness(w: World, reaped: bool, listing: set<Name>)
    ensures var w' := Started(w, reaped, listing);
            w'.pods.Keys == w.pods.Keys &&
            forall n :: n in w.pods ==> w'.pods[n].owner == w.pods[n].owner
                                        && (Kept(w', n, w'.pods[n].owner) <==> Kept(w, n, w.pods[n].owner))
  {
  }

  lemma {:induction false} SweptAlongRuns(voice: Voice, w: World, acts: seq<Action>, w': World)
    requires Inv(voice, w) && SweptIsLost(w) && Runs(voice, w, acts, w')
    ensures SweptIsLost(w')
    decreases |acts|
  {
    if acts != [] {
      var act := acts[0];
      StepKeeps(voice, w, act);
      if act.Happens? && act.fault.Startup? {
        StartupSweepsLost(voice, w, act.fault.reaped, act.fault.listing);
      } else {
        StepUnswept(voice, w, act);
        UnsweptKeeps(w, Do(voice, w, act));
      }
      SweptAlongRuns(voice, Do(voice, w, act), acts[1..], w');
    }
  }

  /** No sweep ever deletes a sandbox that some meeting is using: a leased claim, or one on
      its way to a lease or to its own deletion, has never been swept. */
  lemma SweepsSpareTheLiving(voice: Voice, acts: seq<Action>, w: World, n: Name)
    requires Runs(voice, Initial, acts, w) && n in w.pods
    requires OnLease(w, n) || HeldBy(w, w.pods[n].owner.meeting, n)
    ensures w.pods[n].sweeps == 0
  {
    InitialInv(voice);
    SweptAlongRuns(voice, Initial, acts, w);
    ReachableNow(voice, acts, w);
    if HeldBy(w, w.pods[n].owner.meeting, n) {
      HeldIsKept(voice, w, n);
    } else {
      var k :| k in w.leases && w.leases[k].sandbox == n;
      LeaseOwns(voice, w, k);
    }
  }

  // Work and replay

  /** One execution of an attendee's node makes at most two claims, two binds and two turn
      requests, in every state it can be in. */
  lemma NodeWorkBounded(voice: Voice, acts: seq<Action>, w: World, m: Id)
    requires Runs(voice, Initial, acts, w) && m in w.threads && InNode(w.threads[m])
    requires !w.threads[m].pc.Halted?
    ensures var work := w.threads[m].work; work.claims <= 2 && work.binds <= 2 && work.asks <= 2
  {
    ReachableNow(voice, acts, w);
    PcFacts(voice, w, m);
  }

  /** With a working store, a recorded turn costs nothing to run again: the node can do
      nothing but look it up, and what it then hands back is exactly the recorded update. */
  lemma RecordedTurnIsReplayed(voice: Voice, acts: seq<Action>, w: World, m: Id, act: Action)
    requires Runs(voice, Initial, acts, w) && Visiting(w, m) && w.threads[m].pc.Entered?
    requires TurnKeyOf(m, w.threads[m]) in w.rows
    requires Can(voice, w, act) && About(act, m) && Ordinary(act)
    ensures act == Claim(m, LookupHit)
    ensures var t' := Do(voice, w, act).threads[m];
            && t'.pc.Returning? && t'.work == NoWork
            && Serialise(t'.pc.update) == w.rows[TurnKeyOf(m, w.threads[m])]
            && exists n, r :: Spoken(voice, w, m, w.threads[m], t'.pc.update, n, r)
  {
    ReachableNow(voice, acts, w);
    PcFacts(voice, w, m);
    OnlyLookup(voice, w, m, act);
    RowOfTurn(voice, w, m);
    var t := w.threads[m];
    var n, r :| StoredTurn(voice, w, m, t, w.rows[TurnKeyOf(m, t)], n, r);
    SuccessRoundTrip(t.node.agent, n, r);
  }

  lemma OnlyLookup(voice: Voice, w: World, m: Id, act: Action)
    requires Visiting(w, m) && w.threads[m].pc.Entered? && TurnKeyOf(m, w.threads[m]) in w.rows
    requires Can(voice, w, act) && About(act, m) && Ordinary(act)
    ensures act == Claim(m, LookupHit)
  {
  }

  /** The request never carries a directive: nothing ever sets the chair's reason for its
      choice where the node reads it. */
  lemma DirectiveAlwaysEmpty(voice: Voice, acts: seq<Action>, w: World, m: Id)
    requires Runs(voice, Initial, acts, w) && m in w.threads && w.threads[m].node.Speaker?
    ensures RequestOf(w.threads[m]).directive == ""
  {
    ReachableNow(voice, acts, w);
    PcFacts(voice, w, m);
  }

  // A reaped meeting

  predicate Buried(w: World, m: Id) {
    m in w.threads && !w.threads[m].live && (w.threads[m].pc.Halted? || Ended(w.threads[m].pc))
  }

  lemma BuriedClaim(w: World, m: Id, x: Id, step: ClaimStep)
    requires Buried(w, x) && CanClaim(w, m, step)
    ensures DoClaim(w, m, step).threads[x] == w.threads[x]
  {
  }

  predicate Untouched(w: World, w': World, x: Id) {
    x in w.threads && x in w'.threads && w'.threads[x] == w.threads[x]
  }

  lemma BuriedAsk(w: World, m: Id, x: Id, step: AskStep)
    requires Buried(w, x) && CanAsk(w, m, step)
    ensures Untouched(w, DoAsk(w, m, step), x)
  {
    match step
    case DeleteTried => BuriedDelete(w, m, x);
    case Raise(error) => BuriedRaise(w, m, x, error);
    case LeaveRaises(error) => BuriedLeave(w, m, x, error);
    case _ =>
  }

  lemma BuriedDelete(w: World, m: Id, x: Id)
    requires Buried(w, x) && CanAsk(w, m, DeleteTried)
    ensures Untouched(w, DoAsk(w, m, DeleteTried), x)
  {
  }

  lemma BuriedRaise(w: World, m: Id, x: Id, error: string)
    requires Buried(w, x) && CanAsk(w, m, Raise(error))
    ensures Untouched(w, DoAsk(w, m, Raise(error)), x)
  {
  }

  lemma BuriedLeave(w: World, m: Id, x: Id, error: string)
    requires Buried(w, x) && CanAsk(w, m, LeaveRaises(error))
    ensures Untouched(w, DoAsk(w, m, LeaveRaises(error)), x)
  {
  }

  lemma BuriedServe(voice: Voice, w: World, m: Id, x: Id, step: ServeStep)
    requires Buried(w, x) && CanServe(voice, w, m, step)
    ensures DoServe(voice, w, m, step).threads[x] == w.threads[x]
  {
  }

  lemma BuriedConduct(w: World, m: Id, x: Id, step: ConductStep)
    requires Buried(w, x) && CanConduct(w, m, step)
    ensures DoConduct(w, m, step).threads[x] == w.threads[x]
  {
  }

  lemma BuriedFault(w: World, x: Id, e: Fault)
    requires Buried(w, x) && CanHappen(w, e)
    ensures Buried(DoHappen(w, e), x) && SameCheckpoint(w, DoHappen(w, e), x)
  {
  }

  lemma BuriedStep(voice: Voice, w: World, act: Action, m: Id)
    requires Buried(w, m) && Can(voice, w, act)
    ensures Buried(Do(voice, w, act), m) && SameCheckpoint(w, Do(voice, w, act), m)
  {
    match act
    case Claim(x, step) => BuriedClaim(w, x, m, step);
    case Ask(x, step) => BuriedAsk(w, x, m, step);
    case Serve(x, step) => BuriedServe(voice, w, x, m, step);
    case Conduct(x, step) => BuriedConduct(w, x, m, step);
    case Happens(e) => BuriedFault(w, m, e);
  }

  /** A meeting that is no longer live never runs again: no later step gives it back its
      place, so what startup reaped stays where its checkpoint was. */
  lemma {:induction false} ReapedNeverResumes(voice: Voice, w: World, acts: seq<Action>, w': World, m: Id)
    requires Buried(w, m) && Runs(voice, w, acts, w')
    ensures Buried(w', m) && SameCheckpoint(w, w', m)
    decreases |acts|
  {
    if acts != [] {
      BuriedStep(voice, w, acts[0], m);
      ReapedNeverResumes(voice, Do(voice, w, acts[0]), acts[1..], w', m);
    }
  }

  // What the protocol does not promise

  /** One attendee's meeting, with its first turn about to be taken. */
  lemma OneMeetingOpens(voice: Voice) returns (w: World, m: Id)
    ensures Reaches(voice, Initial, w) && Visiting(w, m) && w.threads[m].pc.Entered?
    ensures w.rows == map[] && w.leases == map[] && w.pods == map[] && w.stranded == {}
  {
    m := "m";
    var roster := [Attendee("a", "Ada", "Engineer", "R&D")];
    var g := Graph(m, Topic("", "", "", ""), 1, 0, [], [], [], map[], None, false, false, None, None, None);
    var deaf := Replies(Unusable(""), Unusable(""), Unusable(""));
    var t := Thread(roster, g, Chair, AtChair, NoWork, true);
    var w1 := Set(Initial, m, t);
    assert GoodRoster(roster) && GoodId(m);
    ConductOne(voice, Initial, m, Start(roster, g));
    w := Set(w1, m, Routed(t, deaf));
    ConductOne(voice, w1, m, ChairDecides(deaf));
    ReachesTrans(voice, Initial, w1, w);
    assert SpokenIds(g.messages) == {};
    DeadStep(g, roster, deaf, 0);
    RoutedMovesOn(t, deaf);
  }

  /** Not every claim ends up leased or deleted, crash or no crash: when creating a sandbox
      succeeds and reading it back fails, nobody ever comes to hold or delete it. */
  lemma FailedReadBackStrands(voice: Voice)
    ensures exists acts, w, n :: && Runs(voice, Initial, acts, w) && Calm(acts)
                                 && n in w.pods && w.pods[n].releases == 0 && n !in w.orphans
                                 && !OnLease(w, n) && !InHand(w, n)
  {
    var w, m := OneMeetingOpens(voice);
    var n := "x";
    StepLookupMiss(voice, w, m);
    var w1 := Goto(w, m, Leasing(0, CLOSED));
    ReachesTrans(voice, Initial, w, w1);
    StepBeginCreate(voice, w1, m);
    var w2 := Creation(w1, m);
    ReachesTrans(voice, Initial, w1, w2);
    StepCreated(voice, w2, m, n);
    var w3 := Goto(w2.(pods := w2.pods[n := FreshPod(KeyOf(m, w2.threads[m]))]), m, ReadBack(0, CLOSED, n));
    ReachesTrans(voice, Initial, w2, w3);
    StrandOnce(voice, w3, m, n);
  }

  lemma StrandOnce(voice: Voice, w: World, m: Id, n: Name)
    requires Reaches(voice, Initial, w) && Visiting(w, m)
    requires w.threads[m].pc.ReadBack? && w.threads[m].pc.sandbox == n && n in w.pods
    ensures exists acts, w', n :: && Runs(voice, Initial, acts, w') && Calm(acts)
                                  && n in w'.pods && w'.pods[n].releases == 0 && n !in w'.orphans
                                  && !OnLease(w', n) && !InHand(w', n)
  {
    var w' := DoClaim(w, m, ReadBackFails(""));
    ClaimOne(voice, w, m, ReadBackFails(""));
    ReachesTrans(voice, Initial, w, w');
    var acts :| Runs(voice, Initial, acts, w') && Calm(acts);
    ReachableNow(voice, acts, w');
    assert n in w'.stranded;
    StrandedIsAlone(voice, acts, w', n);
  }

  /** A stranded claim is out of everybody's reach. */
  lemma StrandedIsAlone(voice: Voice, acts: seq<Action>, w: World, n: Name)
    requires Runs(voice, Initial, acts, w) && n in w.stranded
    ensures n in w.pods && w.pods[n].releases == 0 && n !in w.orphans && !OnLease(w, n) && !InHand(w, n)
  {
    ReachableNow(voice, acts, w);
    InvPlaces(voice, w, n);
    if OnLease(w, n) || InHand(w, n) {
      LostWasKept(voice, w, n);
    }
  }
}
