/** The durable record against the turn in progress: while the store works, what the record
    holds of a turn is decided by one thing, whether leaving a sandbox's client ever raised
    behind an answer that had come through. */
module Records {
  import opened Wrappers
  import opened State
  import opened Supervisor
  import opened Meeting
  import opened Machine
  import opened Invariant
  import opened Preservation
  import opened Transparency
  import opened History
  import opened Paths
  import opened Guarantees

  predicate StoreStep(act: Action) {
    match act
    case Claim(_, step) => !step.LookupFails?
    case Ask(_, step) => step != Record(false)
    case _ => true
  }

  /** No store operation fails along the run, though anything else may. */
  predicate StoreWorks(acts: seq<Action>) {
    forall act :: act in acts ==> StoreStep(act)
  }

  /** The turn is being worked on: no answer has got past the store yet. */
  predicate Midway(pc: Pc) {
    pc.Leasing? || pc.Creating? || pc.ReadBack? || Holding(pc) || pc.Recording? || pc.Deleting?
  }

  /** An answer is on its way out of the client, or back into the checkpoint. */
  predicate Outgoing(pc: Pc) {
    pc.Leaving? || (pc.Returning? && pc.update.sandboxes.Some?)
  }

  predicate GivingUp(pc: Pc) {
    pc.Returning? && pc.update.sandboxes.None?
  }

  /** The sandbox the turn is, or is about to be, put to. */
  ghost predicate Uses(w: World, m: Id, n: Name) {
    && m in w.threads && w.threads[m].node.Speaker?
    && (Leads(w, KeyOf(m, w.threads[m]), n) || (w.threads[m].pc.ReadBack? && w.threads[m].pc.sandbox == n))
  }

  /** The recorded answer came from a sandbox that was given up since. */
  ghost predicate Replaced(w: World, m: Id) {
    && m in w.threads && w.threads[m].node.Speaker? && TurnKeyOf(m, w.threads[m]) in w.rows
    && exists n :: Mentions(w.rows[TurnKeyOf(m, w.threads[m])].rest, w.threads[m].node.agent, n)
                   && n in w.pods && !Uses(w, m, n)
  }

  ghost predicate Agrees(w: World, m: Id) {
    m in w.threads && var t := w.threads[m];
    t.node.Speaker? ==>
      && (Midway(t.pc) || GivingUp(t.pc) ==> (TurnKeyOf(m, t) in w.rows <==> t.work.exits > 0))
      && (Outgoing(t.pc) ==> TurnKeyOf(m, t) in w.rows
                             && (w.rows[TurnKeyOf(m, t)] == Serialise(t.pc.update) <==> t.work.exits == 0))
      && ((Midway(t.pc) || t.pc.Leaving?) && t.work.exits > 0 ==> Replaced(w, m))
  }

  ghost predicate AllAgree(w: World) {
    forall m :: m in w.threads ==> Agrees(w, m)
  }

  // One meeting's step

  /** Only this meeting moved, and no row was written. */
  ghost predicate Alone(w: World, w': World, m: Id) {
    && w'.threads.Keys == w.threads.Keys + {m}
    && (forall x :: x in w.threads && x != m ==> w'.threads[x] == w.threads[x])
    && w'.rows == w.rows && w.pods.Keys <= w'.pods.Keys
    && OthersLeases(w, w'.leases, m)
  }

  lemma OtherAgrees(w: World, w': World, m: Id, x: Id)
    requires Alone(w, w', m) && x in w.threads && x != m && Agrees(w, x)
    ensures Agrees(w', x)
  {
    var t := w.threads[x];
    if t.node.Speaker? && Replaced(w, x) {
      var n :| Mentions(w.rows[TurnKeyOf(x, t)].rest, t.node.agent, n) && n in w.pods && !Uses(w, x, n);
      assert !Uses(w', x, n);
    }
  }

  lemma AloneAgree(w: World, w': World, m: Id)
    requires AllAgree(w) && Alone(w, w', m) && Agrees(w', m)
    ensures AllAgree(w')
  {
    forall x | x in w'.threads ensures Agrees(w', x) {
      if x != m {
        OtherAgrees(w, w', m, x);
      }
    }
  }

  /** The same turn goes on, towards no sandbox that was there but not in use. */
  ghost predicate GoesOn(w: World, w': World, m: Id) {
    && Alone(w, w', m) && m in w.threads && SameSpot(w.threads[m], w'.threads[m])
    && w'.threads[m].work.exits == w.threads[m].work.exits
    && (Midway(w'.threads[m].pc) || GivingUp(w'.threads[m].pc))
    && forall n :: n in w.pods && Uses(w', m, n) ==> Uses(w, m, n)
  }

  lemma GoingOnAgrees(w: World, w': World, m: Id)
    requires GoesOn(w, w', m) && Agrees(w, m) && Midway(w.threads[m].pc)
    ensures Agrees(w', m)
  {
    var t := w.threads[m];
    if t.node.Speaker? && t.work.exits > 0 {
      var n :| Mentions(w.rows[TurnKeyOf(m, t)].rest, t.node.agent, n) && n in w.pods && !Uses(w, m, n);
      assert !Uses(w', m, n);
    }
  }

  predicate GoesOnByClaim(step: ClaimStep) {
    !step.LookupHit? && !step.LookupMiss? && !step.LookupFails?
  }

  lemma ClaimGoesOn(w: World, m: Id, step: ClaimStep)
    requires CanClaim(w, m, step) && GoesOnByClaim(step)
    ensures Midway(w.threads[m].pc) && GoesOn(w, DoClaim(w, m, step), m)
  {
  }

  predicate GoesOnByAsk(step: AskStep) {
    step.SendRequest? || step.BindReplied? || step.Deliver? || step.CloseStream? || step.Raise? || step.DeleteTried?
  }

  lemma AskGoesOn(w: World, m: Id, step: AskStep)
    requires CanAsk(w, m, step) && GoesOnByAsk(step)
    ensures Midway(w.threads[m].pc) && GoesOn(w, DoAsk(w, m, step), m)
  {
    var t := w.threads[m];
    match step
    case SendRequest => PcGoesOn(w, m, DoAsk(w, m, step).threads[m]);
    case BindReplied => BoundGoesOn(w, m);
    case Deliver => DeliverGoesOn(w, m);
    case CloseStream => FailGoesOn(w, m, t.pc.last);
    case Raise(error) => RaiseGoesOn(w, m, error);
    case DeleteTried => DeleteGoesOn(w, m);
  }

  /** A thread that can still hand back an answer or has given up, with nothing to read back. */
  predicate Onward(t: Thread, t': Thread) {
    && SameSpot(t, t') && t'.work.exits == t.work.exits && !t'.pc.ReadBack?
    && (Midway(t'.pc) || GivingUp(t'.pc))
  }

  lemma PcGoesOn(w: World, m: Id, t': Thread)
    requires m in w.threads && Onward(w.threads[m], t')
    ensures GoesOn(w, Set(w, m, t'), m)
  {
  }

  lemma FailGoesOn(w: World, m: Id, message: string)
    requires m in w.threads && InNode(w.threads[m])
    ensures GoesOn(w, Fail(w, m, message), m)
  {
    PcGoesOn(w, m, w.threads[m].(pc := Returning(FailureUpdate(WhoIs(w.threads[m]), message))));
  }

  lemma DeliverGoesOn(w: World, m: Id)
    requires CanAsk(w, m, Deliver)
    ensures GoesOn(w, DoAsk(w, m, Deliver), m)
  {
    var t := w.threads[m];
    match t.pc.reply
    case Spoke(answer) => PcGoesOn(w, m, t.(pc := Recording(t.pc.attempt, t.pc.last, t.pc.sandbox, answer)));
    case Refused(message) => FailGoesOn(w, m, message);
  }

  /** No other lease changes, and the persona comes to hold no other sandbox. */
  lemma LeaseGoesOn(w: World, leases: map<Key, Lease>, m: Id, t': Thread)
    requires m in w.threads && Onward(w.threads[m], t') && OthersLeases(w, leases, m)
    requires forall k :: k in leases ==> k in w.leases && leases[k].sandbox == w.leases[k].sandbox
    ensures GoesOn(w, WithLeases(w, leases, m, t'), m)
  {
  }

  lemma BoundGoesOn(w: World, m: Id)
    requires CanAsk(w, m, BindReplied)
    ensures GoesOn(w, DoAsk(w, m, BindReplied), m)
  {
    var k := KeyOf(m, w.threads[m]);
    LeaseGoesOn(w, if k in w.leases then w.leases[k := w.leases[k].(bound := true)] else w.leases, m, AskNow(w.threads[m]));
  }

  lemma NextGoesOn(w: World, m: Id, attempt: nat, error: string)
    requires m in w.threads && InNode(w.threads[m])
    ensures GoesOn(w, NextAttempt(w, m, attempt, error), m)
  {
    if attempt == 0 {
      PcGoesOn(w, m, w.threads[m].(pc := Leasing(1, error)));
    } else {
      FailGoesOn(w, m, error);
    }
  }

  lemma RaiseGoesOn(w: World, m: Id, error: string)
    requires CanAsk(w, m, Raise(error))
    ensures GoesOn(w, DoAsk(w, m, Raise(error)), m)
  {
    var t := w.threads[m];
    var k := KeyOf(m, t);
    if k in w.leases {
      LeaseGoesOn(w, w.leases - {k}, m, t.(pc := Deleting(t.pc.attempt, error, w.leases[k].sandbox)));
    } else {
      NextGoesOn(w, m, t.pc.attempt, error);
    }
  }

  lemma DeleteGoesOn(w: World, m: Id)
    requires CanAsk(w, m, DeleteTried)
    ensures GoesOn(w, DoAsk(w, m, DeleteTried), m)
  {
    var w1 := CountRelease(w, w.threads[m].pc.sandbox);
    NextGoesOn(w1, m, w.threads[m].pc.attempt, w.threads[m].pc.last);
    assert GoesOn(w1, DoAsk(w, m, DeleteTried), m);
  }

  lemma ServeGoesOn(voice: Voice, w: World, m: Id, step: ServeStep)
    requires CanServe(voice, w, m, step)
    ensures Midway(w.threads[m].pc) && GoesOn(w, DoServe(voice, w, m, step), m)
  {
  }

  // Looking the turn up

  lemma HitAgrees(voice: Voice, w: World, m: Id)
    requires Inv(voice, w) && CanClaim(w, m, LookupHit)
    ensures Alone(w, DoClaim(w, m, LookupHit), m) && Agrees(DoClaim(w, m, LookupHit), m)
  {
    var t := w.threads[m];
    PcFacts(voice, w, m);
    RowOfTurn(voice, w, m);
    var n, r :| StoredTurn(voice, w, m, t, w.rows[TurnKeyOf(m, t)], n, r);
    SuccessRoundTrip(t.node.agent, n, r);
  }

  lemma MissAgrees(voice: Voice, w: World, m: Id)
    requires Inv(voice, w) && CanClaim(w, m, LookupMiss)
    ensures Alone(w, DoClaim(w, m, LookupMiss), m) && Agrees(DoClaim(w, m, LookupMiss), m)
  {
    PcFacts(voice, w, m);
  }

  lemma ClaimAgrees(voice: Voice, w: World, m: Id, step: ClaimStep)
    requires Inv(voice, w) && CanClaim(w, m, step) && AllAgree(w) && !step.LookupFails?
    ensures AllAgree(DoClaim(w, m, step))
  {
    if step.LookupHit? {
      HitAgrees(voice, w, m);
    } else if step.LookupMiss? {
      MissAgrees(voice, w, m);
    } else {
      assert Agrees(w, m);
      ClaimGoesOn(w, m, step);
      GoingOnAgrees(w, DoClaim(w, m, step), m);
    }
    AloneAgree(w, DoClaim(w, m, step), m);
  }

  // Recording, and leaving

  lemma OtherRowsKept(w: World, w': World, m: Id, x: Id)
    requires CanAsk(w, m, Record(true)) && w' == DoAsk(w, m, Record(true))
    requires x in w.threads && x != m && GoodId(x) && GoodId(m) && Agrees(w, x)
    ensures Agrees(w', x)
  {
    var t, t' := w.threads[m], w.threads[x];
    if t'.node.Speaker? {
      if TurnKeyOf(x, t') == TurnKeyOf(m, t) {
        TurnKeyInjective(x, t'.graph.currentTurn, t'.node.agent, m, t.graph.currentTurn, t.node.agent);
      }
      if Replaced(w, x) {
        var n :| Mentions(w.rows[TurnKeyOf(x, t')].rest, t'.node.agent, n) && n in w.pods && !Uses(w, x, n);
        assert !Uses(w', x, n);
      }
    }
  }

  lemma SerialisedMentions(a: Id, n: Name, r: TurnResult, n': Name)
    ensures Mentions(Serialise(SuccessUpdate(a, n, r)).rest, a, n') <==> n' == n
  {
    if Mentions(Serialise(SuccessUpdate(a, n, r)).rest, a, n') {
      MentionsOne(SuccessUpdate(a, n, r), a, n, n');
    }
  }

  /** A turn that was not on record is from now on; one that was keeps its first answer, which
      came from another sandbox. */
  lemma RecordedAgrees(voice: Voice, w: World, m: Id)
    requires Inv(voice, w) && CanAsk(w, m, Record(true)) && Agrees(w, m)
    ensures Agrees(DoAsk(w, m, Record(true)), m)
  {
    var t := w.threads[m];
    var u := SuccessUpdate(t.node.agent, t.pc.sandbox, t.pc.answer.result);
    RecordingFacts(voice, w, m);
    if t.work.exits > 0 {
      var n :| Mentions(w.rows[TurnKeyOf(m, t)].rest, t.node.agent, n) && n in w.pods && !Uses(w, m, n);
      SerialisedMentions(t.node.agent, t.pc.sandbox, t.pc.answer.result, n);
      assert !Uses(DoAsk(w, m, Record(true)), m, n);
    }
  }

  lemma RecordAgrees(voice: Voice, w: World, m: Id)
    requires Inv(voice, w) && CanAsk(w, m, Record(true)) && AllAgree(w)
    ensures AllAgree(DoAsk(w, m, Record(true)))
  {
    var w' := DoAsk(w, m, Record(true));
    assert Agrees(w, m);
    PcFacts(voice, w, m);
    forall x | x in w'.threads ensures Agrees(w', x) {
      if x == m {
        RecordedAgrees(voice, w, m);
      } else {
        PcFacts(voice, w, x);
        OtherRowsKept(w, w', m, x);
      }
    }
  }

  lemma LeaveAgrees(w: World, m: Id)
    requires CanAsk(w, m, Leave) && Agrees(w, m)
    requires w.threads[m].pc.update.sandboxes.Some?
    ensures Alone(w, DoAsk(w, m, Leave), m) && Agrees(DoAsk(w, m, Leave), m)
  {
  }

  lemma LeavingFacts(voice: Voice, w: World, m: Id) returns (r: TurnResult)
    requires Inv(voice, w) && m in w.threads && w.threads[m].pc.Leaving?
    ensures var t := w.threads[m];
            && InNode(t) && Leads(w, KeyOf(m, t), t.pc.sandbox) && t.pc.sandbox in w.pods
            && t.pc.update == SuccessUpdate(t.node.agent, t.pc.sandbox, r)
  {
    PcFacts(voice, w, m);
    var t := w.threads[m];
    r :| Spoken(voice, w, m, t, t.pc.update, t.pc.sandbox, r);
  }

  /** The lease whose sandbox gave the recorded answer is forgotten. */
  lemma LeaveRaisesAgrees(voice: Voice, w: World, m: Id, error: string)
    requires Inv(voice, w) && CanAsk(w, m, LeaveRaises(error)) && Agrees(w, m)
    ensures Alone(w, DoAsk(w, m, LeaveRaises(error)), m) && Agrees(DoAsk(w, m, LeaveRaises(error)), m)
  {
    var t := w.threads[m];
    var w' := DoAsk(w, m, LeaveRaises(error));
    var r := LeavingFacts(voice, w, m);
    LeaveRaisesAlone(w, m, error);
    var n := t.pc.sandbox;
    if t.work.exits == 0 {
      SerialisedMentions(t.node.agent, n, r, n);
    } else {
      n :| Mentions(w.rows[TurnKeyOf(m, t)].rest, t.node.agent, n) && n in w.pods && !Uses(w, m, n);
    }
    assert !Uses(w', m, n);
    assert Replaced(w', m);
  }

  lemma LeaveRaisesAlone(w: World, m: Id, error: string)
    requires CanAsk(w, m, LeaveRaises(error)) && KeyOf(m, w.threads[m]) in w.leases
    ensures var t, w' := w.threads[m], DoAsk(w, m, LeaveRaises(error));
            && Alone(w, w', m) && SameSpot(t, w'.threads[m]) && w'.pods == w.pods
            && w'.threads[m].pc.Deleting? && w'.threads[m].work.exits == t.work.exits + 1
            && w'.leases == w.leases - {KeyOf(m, t)}
  {
  }

  lemma ReturnAlone(w: World, m: Id)
    requires CanAsk(w, m, Return)
    ensures Alone(w, DoAsk(w, m, Return), m) && Agrees(DoAsk(w, m, Return), m)
  {
  }

  lemma AskAgrees(voice: Voice, w: World, m: Id, step: AskStep)
    requires Inv(voice, w) && CanAsk(w, m, step) && AllAgree(w) && step != Record(false)
    ensures AllAgree(DoAsk(w, m, step))
  {
    assert Agrees(w, m);
    if step.Record? {
      RecordAgrees(voice, w, m);
    } else {
      if step.Leave? {
        var r := LeavingFacts(voice, w, m);
        LeaveAgrees(w, m);
      } else if step.LeaveRaises? {
        LeaveRaisesAgrees(voice, w, m, step.error);
      } else if GoesOnByAsk(step) {
        AskGoesOn(w, m, step);
        GoingOnAgrees(w, DoAsk(w, m, step), m);
      } else {
        ReturnAlone(w, m);
      }
      AloneAgree(w, DoAsk(w, m, step), m);
    }
  }

  // The chair, the executor, and faults

  lemma ConductAgrees(w: World, m: Id, step: ConductStep)
    requires CanConduct(w, m, step)
    ensures Alone(w, DoConduct(w, m, step), m) && Agrees(DoConduct(w, m, step), m)
  {
    match step
    case Start(roster, g) => SetAlone(w, m, Thread(roster, g, Chair, AtChair, NoWork, true));
    case ChairDecides(replies) => DecisionAlone(w, m, replies);
    case ChairRaises => SetAlone(w, m, w.threads[m].(pc := Closing));
    case Persist(ok) => PersistAlone(w, m, ok);
    case Handled(stored) => SetAlone(w, m, GivenUpOn(w.threads[m], stored));
    case ReleaseOne(n) => ReleaseAlone(w, m, n);
    case Released => SetAlone(w, m, w.threads[m].(pc := Done));
    case Resume => SetAlone(w, m, EnterNode(w.threads[m]));
  }

  /** The thread stands where nothing is said about the record. */
  predicate Quiet(pc: Pc) {
    !Midway(pc) && !pc.Returning? && !pc.Leaving?
  }

  lemma SetAlone(w: World, m: Id, t': Thread)
    requires Quiet(t'.pc)
    ensures Alone(w, Set(w, m, t'), m) && Agrees(Set(w, m, t'), m)
  {
  }

  lemma PersistAlone(w: World, m: Id, ok: bool)
    requires CanConduct(w, m, Persist(ok))
    ensures Alone(w, DoConduct(w, m, Persist(ok)), m) && Agrees(DoConduct(w, m, Persist(ok)), m)
  {
  }

  lemma ReleaseAlone(w: World, m: Id, n: Name)
    requires CanConduct(w, m, ReleaseOne(n))
    ensures Alone(w, DoConduct(w, m, ReleaseOne(n)), m) && Agrees(DoConduct(w, m, ReleaseOne(n)), m)
  {
  }

  lemma DecisionAlone(w: World, m: Id, replies: Replies)
    requires Driven(w, m) && w.threads[m].pc.AtChair?
    ensures var w' := Set(w, m, Routed(w.threads[m], replies)); Alone(w, w', m) && Agrees(w', m)
  {
    SetAlone(w, m, Routed(w.threads[m], replies));
  }

  lemma FaultAgrees(w: World, e: Fault, x: Id)
    requires CanHappen(w, e) && x in w.threads && Agrees(w, x)
    ensures Agrees(DoHappen(w, e), x)
  {
    var t, w' := w.threads[x], DoHappen(w, e);
    if t.node.Speaker? && !e.Crash? && Replaced(w, x) {
      var n :| Mentions(w.rows[TurnKeyOf(x, t)].rest, t.node.agent, n) && n in w.pods && !Uses(w, x, n);
      assert !Uses(w', x, n);
    }
  }

  lemma StepAgrees(voice: Voice, w: World, act: Action)
    requires Inv(voice, w) && AllAgree(w) && Can(voice, w, act) && StoreStep(act)
    ensures AllAgree(Do(voice, w, act))
  {
    match act
    case Claim(m, step) => ClaimAgrees(voice, w, m, step);
    case Ask(m, step) => AskAgrees(voice, w, m, step);
    case Serve(m, step) =>
      assert Agrees(w, m);
      ServeGoesOn(voice, w, m, step);
      GoingOnAgrees(w, DoServe(voice, w, m, step), m);
      AloneAgree(w, DoServe(voice, w, m, step), m);
    case Conduct(m, step) =>
      ConductAgrees(w, m, step);
      AloneAgree(w, DoConduct(w, m, step), m);
    case Happens(e) =>
      forall x | x in w.threads ensures Agrees(DoHappen(w, e), x) {
        FaultAgrees(w, e, x);
      }
  }

  lemma {:induction false} AgreeAlongRuns(voice: Voice, w: World, acts: seq<Action>, w': World)
    requires Inv(voice, w) && AllAgree(w) && Runs(voice, w, acts, w') && StoreWorks(acts)
    ensures AllAgree(w')
    decreases |acts|
  {
    if acts != [] {
      assert acts[0] in acts;
      StepKeeps(voice, w, acts[0]);
      StepAgrees(voice, w, acts[0]);
      AgreeAlongRuns(voice, Do(voice, w, acts[0]), acts[1..], w');
    }
  }

  /** While the store works, whatever crashes around it, one thing decides how a turn and its
      record stand to each other: whether leaving the client raised behind an answer in this
      execution of the node. If it never did, a turn being worked on is not on record, and an
      answer handed back is the one on record; if it did, the turn is put to a persona
      although it is on record, and an answer handed back is not the recorded one. A failure
      is handed back for a turn on record in just the same case. */
  lemma AnswersAreOnRecord(voice: Voice, acts: seq<Action>, w: World, m: Id)
    requires Runs(voice, Initial, acts, w) && StoreWorks(acts) && Visiting(w, m)
    ensures var t := w.threads[m];
            && (Midway(t.pc) ==> (TurnKeyOf(m, t) in w.rows <==> t.work.exits > 0))
            && (t.pc.Returning? && t.pc.update.sandboxes.Some? ==>
                  TurnKeyOf(m, t) in w.rows
                  && (w.rows[TurnKeyOf(m, t)] == Serialise(t.pc.update) <==> t.work.exits == 0))
            && (t.pc.Returning? && t.pc.update.sandboxes.None? ==> (TurnKeyOf(m, t) in w.rows <==> t.work.exits > 0))
  {
    InitialInv(voice);
    AgreeAlongRuns(voice, Initial, acts, w);
    assert Agrees(w, m);
  }

  // Exits

  /** No client's closing raises. */
  predicate ClientsClose(acts: seq<Action>) {
    forall act :: act in acts ==> !(act.Ask? && act.ask.LeaveRaises?)
  }

  ghost predicate NoExits(w: World) {
    forall m :: m in w.threads ==> w.threads[m].work.exits == 0
  }

  lemma ClaimExits(w: World, m: Id, step: ClaimStep)
    requires NoExits(w) && CanClaim(w, m, step)
    ensures NoExits(DoClaim(w, m, step))
  {
  }

  lemma AskExits(w: World, m: Id, step: AskStep)
    requires NoExits(w) && CanAsk(w, m, step) && !step.LeaveRaises?
    ensures NoExits(DoAsk(w, m, step))
  {
  }

  lemma ServeExits(voice: Voice, w: World, m: Id, step: ServeStep)
    requires NoExits(w) && CanServe(voice, w, m, step)
    ensures NoExits(DoServe(voice, w, m, step))
  {
  }

  lemma ConductExits(w: World, m: Id, step: ConductStep)
    requires NoExits(w) && CanConduct(w, m, step)
    ensures NoExits(DoConduct(w, m, step))
  {
  }

  lemma StepExits(voice: Voice, w: World, act: Action)
    requires NoExits(w) && Can(voice, w, act) && !(act.Ask? && act.ask.LeaveRaises?)
    ensures NoExits(Do(voice, w, act))
  {
    match act
    case Claim(m, step) => ClaimExits(w, m, step);
    case Ask(m, step) => AskExits(w, m, step);
    case Serve(m, step) => ServeExits(voice, w, m, step);
    case Conduct(m, step) => ConductExits(w, m, step);
    case Happens(_) =>
  }

  lemma {:induction false} NoExitsAlongRuns(voice: Voice, w: World, acts: seq<Action>, w': World)
    requires NoExits(w) && Runs(voice, w, acts, w') && ClientsClose(acts)
    ensures NoExits(w')
    decreases |acts|
  {
    if acts != [] {
      assert acts[0] in acts;
      StepExits(voice, w, acts[0]);
      NoExitsAlongRuns(voice, Do(voice, w, acts[0]), acts[1..], w');
    }
  }

  /** Where neither the store nor the closing of a client fails, no turn is ever put to a
      persona again once it is on record, and every answer handed back is the recorded one,
      through any number of crashes, lost sandboxes and replays. */
  lemma RecordedTurnIsFinal(voice: Voice, acts: seq<Action>, w: World, m: Id)
    requires Runs(voice, Initial, acts, w) && StoreWorks(acts) && ClientsClose(acts) && Visiting(w, m)
    ensures var t := w.threads[m];
            && (Midway(t.pc) || GivingUp(t.pc) ==> TurnKeyOf(m, t) !in w.rows)
            && (t.pc.Returning? && t.pc.update.sandboxes.Some? ==>
                  TurnKeyOf(m, t) in w.rows && w.rows[TurnKeyOf(m, t)] == Serialise(t.pc.update))
  {
    NoExitsAlongRuns(voice, Initial, acts, w);
    AnswersAreOnRecord(voice, acts, w, m);
  }

  // The turn that is asked again

  /** A run without a failing store leads from one world to the other. */
  ghost predicate Gets(voice: Voice, w: World, w': World) {
    exists acts :: Runs(voice, w, acts, w') && StoreWorks(acts)
  }

  lemma ReachesGets(voice: Voice, w: World, w': World)
    requires Reaches(voice, w, w')
    ensures Gets(voice, w, w')
  {
    var acts :| Runs(voice, w, acts, w') && Calm(acts);
    assert StoreWorks(acts);
  }

  lemma GetsOn(voice: Voice, a: World, b: World, c: World)
    requires Gets(voice, a, b) && Gets(voice, b, c)
    ensures Gets(voice, a, c)
  {
    var xs :| Runs(voice, a, xs, b) && StoreWorks(xs);
    var ys :| Runs(voice, b, ys, c) && StoreWorks(ys);
    RunsConcat(voice, a, xs, b, ys, c);
    assert StoreWorks(xs + ys);
  }

  lemma AskGets(voice: Voice, w: World, m: Id, step: AskStep)
    requires CanAsk(w, m, step) && step != Record(false)
    ensures Gets(voice, w, DoAsk(w, m, step))
  {
    var act := Ask(m, step);
    var w' := Do(voice, w, act);
    assert [act][1..] == [];
    assert Runs(voice, w', [], w');
    assert Runs(voice, w, [act], w') && StoreWorks([act]);
  }

  /** Leaving raises on the first attempt: the lease is gone, and the node claims again. */
  lemma StartsAgain(voice: Voice, w: World, m: Id, error: string) returns (w': World)
    requires Inv(voice, w) && Visiting(w, m) && w.threads[m].pc.Leaving? && w.threads[m].pc.attempt == 0
    ensures Gets(voice, w, w') && Visiting(w', m) && SameCheckpoint(w, w', m)
    ensures w'.threads[m].pc == Leasing(1, error) && KeyOf(m, w.threads[m]) !in w'.leases
    ensures w'.rows == w.rows && w'.pods.Keys == w.pods.Keys
  {
    var r := LeavingFacts(voice, w, m);
    var w1 := DoAsk(w, m, LeaveRaises(error));
    AskGets(voice, w, m, LeaveRaises(error));
    w' := DoAsk(w1, m, DeleteTried);
    AskGets(voice, w1, m, DeleteTried);
    GetsOn(voice, w, w1, w');
  }

  /** What a replacement sandbox answers is on its way back, and a row that is there stays. */
  lemma AnswersInstead(voice: Voice, w: World, m: Id, n: Name, r: TurnResult) returns (w': World)
    requires Visiting(w, m) && w.threads[m].pc.Leasing? && KeyOf(m, w.threads[m]) !in w.leases && n !in w.pods
    requires TurnKeyOf(m, w.threads[m]) in w.rows && Answers(voice, m, w.threads[m], r)
    ensures Gets(voice, w, w') && Visiting(w', m) && SameCheckpoint(w, w', m) && w'.rows == w.rows
    ensures w'.threads[m].pc == Returning(SuccessUpdate(w.threads[m].node.agent, n, r))
  {
    var w1 := ClaimFresh(voice, w, m, n);
    var w2 := Question(voice, w1, m, n);
    ReachesTrans(voice, w, w1, w2);
    var w3 := Heard(voice, w2, m, n, r);
    ReachesTrans(voice, w, w2, w3);
    ReachesGets(voice, w, w3);
    w' := GoesOut(voice, w3, m);
    GetsOn(voice, w, w3, w');
  }

  lemma GoesOut(voice: Voice, w: World, m: Id) returns (w': World)
    requires Visiting(w, m) && w.threads[m].pc.Recording? && TurnKeyOf(m, w.threads[m]) in w.rows
    ensures var t := w.threads[m];
            && Gets(voice, w, w')
            && w' == Goto(w, m, Returning(SuccessUpdate(t.node.agent, t.pc.sandbox, t.pc.answer.result)))
  {
    var w1 := DoAsk(w, m, Record(true));
    AskGets(voice, w, m, Record(true));
    w' := DoAsk(w1, m, Leave);
    AskGets(voice, w1, m, Leave);
    GetsOn(voice, w, w1, w');
    assert w'.threads == w.threads[m := w'.threads[m]];
  }

  /** Whenever an answer is on its way out on the first attempt, with a store that never
      failed, closing the client may still raise, and then whatever the persona may say to the
      request when it is asked again is handed back while the record keeps the first answer. */
  lemma ClosingMayAskAgain(voice: Voice, acts: seq<Action>, w: World, m: Id, n: Name, r: TurnResult)
    requires Runs(voice, Initial, acts, w) && StoreWorks(acts) && Visiting(w, m)
    requires w.threads[m].pc.Leaving? && w.threads[m].pc.attempt == 0
    requires n !in w.pods && Answers(voice, m, w.threads[m], r)
    ensures exists more, w' :: && Runs(voice, w, more, w') && StoreWorks(more)
                               && SameCheckpoint(w, w', m) && w'.rows == w.rows
                               && TurnKeyOf(m, w'.threads[m]) in w'.rows
                               && w'.threads[m].pc == Returning(SuccessUpdate(w.threads[m].node.agent, n, r))
                               && w'.rows[TurnKeyOf(m, w'.threads[m])] != Serialise(w'.threads[m].pc.update)
  {
    var w' := AskedAgain(voice, acts, w, m, n, r);
    var more :| Runs(voice, w, more, w') && StoreWorks(more);
  }

  lemma AskedAgain(voice: Voice, acts: seq<Action>, w: World, m: Id, n: Name, r: TurnResult) returns (w': World)
    requires Runs(voice, Initial, acts, w) && StoreWorks(acts) && Visiting(w, m)
    requires w.threads[m].pc.Leaving? && w.threads[m].pc.attempt == 0
    requires n !in w.pods && Answers(voice, m, w.threads[m], r)
    ensures Gets(voice, w, w') && Visiting(w', m) && SameCheckpoint(w, w', m) && w'.rows == w.rows
    ensures TurnKeyOf(m, w'.threads[m]) in w'.rows
    ensures w'.threads[m].pc == Returning(SuccessUpdate(w.threads[m].node.agent, n, r))
    ensures w'.rows[TurnKeyOf(m, w'.threads[m])] != Serialise(w'.threads[m].pc.update)
  {
    ReachableNow(voice, acts, w);
    InitialInv(voice);
    AgreeAlongRuns(voice, Initial, acts, w);
    assert Agrees(w, m);
    var w1 := StartsAgain(voice, w, m, "");
    w' := AnswersInstead(voice, w1, m, n, r);
    GetsOn(voice, w, w1, w');
    RecordedFromAPod(voice, w, m, n, r);
  }

  /** The record names a sandbox there is, so not the replacement. */
  lemma RecordedFromAPod(voice: Voice, w: World, m: Id, n: Name, r: TurnResult)
    requires Inv(voice, w) && m in w.threads && w.threads[m].node.Speaker? && TurnKeyOf(m, w.threads[m]) in w.rows
    requires n !in w.pods
    ensures w.rows[TurnKeyOf(m, w.threads[m])] != Serialise(SuccessUpdate(w.threads[m].node.agent, n, r))
  {
    var t := w.threads[m];
    RowOfTurn(voice, w, m);
    var n', r' :| StoredTurn(voice, w, m, t, w.rows[TurnKeyOf(m, t)], n', r');
    SerialisedMentions(t.node.agent, n', r', n');
    SerialisedMentions(t.node.agent, n, r, n');
  }

  /** Another answer than the recorded one is handed back. */
  ghost predicate HandsBackAnother(w: World, m: Id) {
    && Visiting(w, m) && w.threads[m].pc.Returning? && TurnKeyOf(m, w.threads[m]) in w.rows
    && w.rows[TurnKeyOf(m, w.threads[m])] != Serialise(w.threads[m].pc.update)
  }

  /** There is such a run: one attendee, one recorded answer, and another handed back. */
  lemma RecordedTurnAskedAgain()
    ensures exists voice, acts, w, m :: Runs(voice, Initial, acts, w) && StoreWorks(acts) && HandsBackAnother(w, m)
  {
    var voice: Voice := (k, q, r) => true;
    var w, m := OneMeetingOpens(voice);
    var t := w.threads[m];
    var r := TurnResult(TurnKeyOf(m, t), t.node.agent, "", "", [], []);
    assert Answers(voice, m, t, r);
    var acts, w' := OpenedThenReasked(voice, w, m, r);
  }

  lemma OpenedThenReasked(voice: Voice, w: World, m: Id, r: TurnResult) returns (acts: seq<Action>, w': World)
    requires Reaches(voice, Initial, w) && Visiting(w, m) && w.threads[m].pc.Entered?
    requires w.rows == map[] && w.leases == map[] && w.pods == map[] && Answers(voice, m, w.threads[m], r)
    ensures Runs(voice, Initial, acts, w') && StoreWorks(acts) && HandsBackAnother(w', m)
  {
    var w1 := FirstAnswer(voice, w, m, r);
    ReachesTrans(voice, Initial, w, w1);
    ReachesGets(voice, Initial, w1);
    var first :| Runs(voice, Initial, first, w1) && StoreWorks(first);
    var n := UnusedName(w1.pods.Keys);
    w' := AskedAgain(voice, first, w1, m, n, r);
    GetsOn(voice, Initial, w1, w');
    acts :| Runs(voice, Initial, acts, w') && StoreWorks(acts);
  }

  /** From entering the node to an answer on its way out, on the first attempt. */
  lemma FirstAnswer(voice: Voice, w: World, m: Id, r: TurnResult) returns (w': World)
    requires Visiting(w, m) && w.threads[m].pc.Entered? && w.rows == map[] && w.leases == map[] && w.pods == map[]
    requires Answers(voice, m, w.threads[m], r)
    ensures Reaches(voice, w, w') && Visiting(w', m) && SameCheckpoint(w, w', m)
    ensures w'.threads[m].pc.Leaving? && w'.threads[m].pc.attempt == 0
  {
    var w1 := FirstQuestion(voice, w, m, "x");
    var w2 := Heard(voice, w1, m, "x", r);
    ReachesTrans(voice, w, w1, w2);
    w' := DoAsk(w2, m, Record(true));
    AskOne(voice, w2, m, Record(true));
    ReachesTrans(voice, w, w2, w');
  }

  lemma FirstQuestion(voice: Voice, w: World, m: Id, n: Name) returns (w': World)
    requires Visiting(w, m) && w.threads[m].pc.Entered? && w.rows == map[] && w.leases == map[] && w.pods == map[]
    ensures Reaches(voice, w, w') && SameCheckpoint(w, w', m) && Listening(w', m, n) && w'.threads[m].pc.attempt == 0
  {
    var w1 := Goto(w, m, Leasing(0, CLOSED));
    StepLookupMiss(voice, w, m);
    var w2 := ClaimFresh(voice, w1, m, n);
    ReachesTrans(voice, w, w1, w2);
    w' := Question(voice, w2, m, n);
    ReachesTrans(voice, w, w2, w');
  }
}
