/** An attendee's node as the backend runs it: replay guard, lease, bind, turn, and one
    retry against a replacement. The method is shown to do only what the state machine
    allows, so everything proved of the machine's runs holds of it. */
module AgentNode {
  import opened Wrappers
  import opened State
  import opened Meeting
  import opened Machine
  import opened Invariant
  import opened Manager
  import Cache = TurnCache

  predicate Own(acts: seq<Action>, m: Id) {
    forall act :: act in acts ==> !act.Happens? && act.m == m
  }

  /** The machine can go from one world to the other by steps of this meeting alone. */
  ghost predicate Goes(voice: Voice, w: World, w': World, m: Id) {
    exists acts :: Runs(voice, w, acts, w') && Own(acts, m)
  }

  lemma GoesNowhere(voice: Voice, w: World, m: Id)
    ensures Goes(voice, w, w, m)
  {
    assert Runs(voice, w, [], w) && Own([], m);
  }

  lemma GoesOn(voice: Voice, a: World, b: World, c: World, m: Id)
    requires Goes(voice, a, b, m) && Goes(voice, b, c, m)
    ensures Goes(voice, a, c, m)
  {
    var xs :| Runs(voice, a, xs, b) && Own(xs, m);
    var ys :| Runs(voice, b, ys, c) && Own(ys, m);
    RunsConcat(voice, a, xs, b, ys, c);
    assert Own(xs + ys, m);
  }

  lemma GoesStep(voice: Voice, w: World, act: Action, m: Id)
    requires Can(voice, w, act) && !act.Happens? && act.m == m
    ensures Goes(voice, w, Do(voice, w, act), m)
  {
    var w' := Do(voice, w, act);
    assert [act][1..] == [];
    assert Runs(voice, w', [], w');
    assert Runs(voice, w, [act], w');
    assert Own([act], m);
  }

  lemma Claims(voice: Voice, w: World, m: Id, step: ClaimStep)
    requires CanClaim(w, m, step)
    ensures Goes(voice, w, DoClaim(w, m, step), m)
  {
    GoesStep(voice, w, Claim(m, step), m);
  }

  lemma Asks(voice: Voice, w: World, m: Id, step: AskStep)
    requires CanAsk(w, m, step)
    ensures Goes(voice, w, DoAsk(w, m, step), m)
  {
    GoesStep(voice, w, Ask(m, step), m);
  }

  lemma Serves(voice: Voice, w: World, m: Id, step: ServeStep)
    requires CanServe(voice, w, m, step)
    ensures Goes(voice, w, DoServe(voice, w, m, step), m)
  {
    GoesStep(voice, w, Serve(m, step), m);
  }

  /** Still in the same turn of the same meeting, and everything else is as it was. */
  ghost predicate Within(w: World, w': World, m: Id) {
    && Visiting(w, m) && Visiting(w', m)
    && w'.threads == w.threads[m := w'.threads[m]]
    && w'.threads[m].roster == w.threads[m].roster && w'.threads[m].graph == w.threads[m].graph
    && w'.threads[m].node == w.threads[m].node && w'.orphans == w.orphans
  }

  lemma SameSpeaker(w: World, w': World, m: Id)
    requires Within(w, w', m)
    ensures WhoIs(w'.threads[m]) == WhoIs(w.threads[m]) && KeyOf(m, w'.threads[m]) == KeyOf(m, w.threads[m])
    ensures TurnKeyOf(m, w'.threads[m]) == TurnKeyOf(m, w.threads[m]) && RequestOf(w'.threads[m]) == RequestOf(w.threads[m])
  {
  }

  lemma WithinOn(a: World, b: World, c: World, m: Id)
    requires Within(a, b, m) && Within(b, c, m)
    ensures Within(a, c, m)
  {
    assert c.threads == a.threads[m := c.threads[m]];
  }

  // Looking the turn up

  lemma MissGoes(voice: Voice, w: World, m: Id)
    requires Visiting(w, m) && w.threads[m].pc.Entered?
    ensures Goes(voice, w, Goto(w, m, Leasing(0, CLOSED)), m) && Within(w, Goto(w, m, Leasing(0, CLOSED)), m)
  {
    Claims(voice, w, m, if TurnKeyOf(m, w.threads[m]) in w.rows then LookupFails else LookupMiss);
  }

  lemma HitGoes(voice: Voice, w: World, m: Id)
    requires Visiting(w, m) && w.threads[m].pc.Entered? && TurnKeyOf(m, w.threads[m]) in w.rows
    ensures var w' := Goto(w, m, Returning(Rehydrate(w.rows[TurnKeyOf(m, w.threads[m])])));
            Goes(voice, w, w', m) && Within(w, w', m)
  {
    Claims(voice, w, m, LookupHit);
  }

  // Acquiring a sandbox

  lemma ReuseGoes(voice: Voice, w: World, m: Id) returns (w': World)
    requires Visiting(w, m) && w.threads[m].pc.Leasing? && KeyOf(m, w.threads[m]) in w.leases
    ensures Goes(voice, w, w', m) && Within(w, w', m)
    ensures w'.leases == w.leases && w'.pods == w.pods && w'.rows == w.rows
    ensures var t := w.threads[m];
            w'.threads[m].pc == Leased(t.pc.attempt, t.pc.last, w.leases[KeyOf(m, t)].sandbox)
  {
    var t := w.threads[m];
    w' := Goto(w, m, Leased(t.pc.attempt, t.pc.last, w.leases[KeyOf(m, t)].sandbox));
    Claims(voice, w, m, Reuse);
  }

  lemma BeginGoes(voice: Voice, w: World, m: Id) returns (w': World)
    requires Visiting(w, m) && w.threads[m].pc.Leasing? && KeyOf(m, w.threads[m]) !in w.leases
    ensures Goes(voice, w, w', m) && Within(w, w', m)
    ensures w'.leases == w.leases && w'.pods == w.pods && w'.rows == w.rows && w'.stranded == w.stranded
    ensures w'.threads[m].pc == Creating(w.threads[m].pc.attempt, w.threads[m].pc.last)
  {
    w' := DoClaim(w, m, BeginCreate);
    Claims(voice, w, m, BeginCreate);
  }

  lemma CreatedGoes(voice: Voice, w: World, m: Id, pods: map<Name, Pod>, n: Name) returns (w': World)
    requires Visiting(w, m) && w.threads[m].pc.Creating? && NewPod(w.pods, pods, n, KeyOf(m, w.threads[m]))
    ensures Goes(voice, w, w', m) && Within(w, w', m)
    ensures w'.leases == w.leases && w'.pods == pods && w'.rows == w.rows && w'.stranded == w.stranded
    ensures w'.threads[m].pc == ReadBack(w.threads[m].pc.attempt, w.threads[m].pc.last, n)
  {
    var t := w.threads[m];
    var persona, cache :| Warm(m, persona, cache) && pods == w.pods[n := Pod(KeyOf(m, t), true, persona, cache, 0, 0)];
    w' := Goto(w.(pods := pods), m, ReadBack(t.pc.attempt, t.pc.last, n));
    Claims(voice, w, m, Created(n, persona, cache));
  }

  lemma TakenGoes(voice: Voice, w: World, m: Id) returns (w': World)
    requires Visiting(w, m) && w.threads[m].pc.ReadBack?
    ensures Goes(voice, w, w', m) && Within(w, w', m)
    ensures w'.leases == w.leases[KeyOf(m, w.threads[m]) := Lease(w.threads[m].pc.sandbox, false)]
    ensures w'.pods == w.pods && w'.rows == w.rows
    ensures var pc := w.threads[m].pc; w'.threads[m].pc == Leased(pc.attempt, pc.last, pc.sandbox)
  {
    w' := DoClaim(w, m, ReadBackOk);
    Claims(voice, w, m, ReadBackOk);
  }

  /** A claim that comes through ends in a lease on the sandbox. */
  lemma AcquireGoes(voice: Voice, w: World, m: Id, leases: map<Key, Lease>, pods: map<Name, Pod>, n: Name) returns (w': World)
    requires Visiting(w, m) && w.threads[m].pc.Leasing?
    requires var k := KeyOf(m, w.threads[m]);
             if k in w.leases then leases == w.leases && pods == w.pods && n == w.leases[k].sandbox
             else NewPod(w.pods, pods, n, k) && leases == w.leases[k := Lease(n, false)]
    ensures Goes(voice, w, w', m) && Within(w, w', m)
    ensures w'.leases == leases && w'.pods == pods && w'.rows == w.rows
    ensures w'.threads[m].pc == Leased(w.threads[m].pc.attempt, w.threads[m].pc.last, n)
  {
    if KeyOf(m, w.threads[m]) in w.leases {
      w' := ReuseGoes(voice, w, m);
    } else {
      var w1 := BeginGoes(voice, w, m);
      var w2 := CreatedGoes(voice, w1, m, pods, n);
      GoesOn(voice, w, w1, w2, m);
      WithinOn(w, w1, w2, m);
      w' := TakenGoes(voice, w2, m);
      GoesOn(voice, w, w2, w', m);
      WithinOn(w, w2, w', m);
    }
  }

  /** The node gives up with a recorded failure. */
  ghost predicate GaveUp(w: World, w': World, m: Id, message: string) {
    Within(w, w', m) && w'.threads[m].pc == Returning(FailureUpdate(WhoIs(w.threads[m]), message))
  }

  lemma CreateFailedGoes(voice: Voice, w: World, m: Id, error: string) returns (w': World)
    requires Visiting(w, m) && w.threads[m].pc.Creating?
    ensures Goes(voice, w, w', m) && GaveUp(w, w', m, NoSandbox(error))
    ensures w'.leases == w.leases && w'.pods == w.pods && w'.rows == w.rows
  {
    w' := Fail(w, m, NoSandbox(error));
    Claims(voice, w, m, CreateFails(error));
  }

  lemma ReadBackFailedGoes(voice: Voice, w: World, m: Id, error: string) returns (w': World)
    requires Visiting(w, m) && w.threads[m].pc.ReadBack?
    ensures Goes(voice, w, w', m) && GaveUp(w, w', m, NoSandbox(error))
    ensures w'.leases == w.leases && w'.pods == w.pods && w'.rows == w.rows
  {
    w' := DoClaim(w, m, ReadBackFails(error));
    Claims(voice, w, m, ReadBackFails(error));
  }

  /** A claim that fails, before or after its sandbox was created. */
  lemma AcquireFails(voice: Voice, w: World, m: Id, pods: map<Name, Pod>, error: string) returns (w': World)
    requires Visiting(w, m) && w.threads[m].pc.Leasing? && KeyOf(m, w.threads[m]) !in w.leases
    requires pods == w.pods || exists n :: NewPod(w.pods, pods, n, KeyOf(m, w.threads[m]))
    ensures Goes(voice, w, w', m) && GaveUp(w, w', m, NoSandbox(error))
    ensures w'.leases == w.leases && w'.pods == pods && w'.rows == w.rows
  {
    var w1 := BeginGoes(voice, w, m);
    assert WhoIs(w1.threads[m]) == WhoIs(w.threads[m]);
    if pods == w.pods {
      w' := CreateFailedGoes(voice, w1, m, error);
      GoesOn(voice, w, w1, w', m);
      WithinOn(w, w1, w', m);
    } else {
      var n :| NewPod(w.pods, pods, n, KeyOf(m, w.threads[m]));
      var w2 := CreatedGoes(voice, w1, m, pods, n);
      GoesOn(voice, w, w1, w2, m);
      WithinOn(w, w1, w2, m);
      w' := ReadBackFailedGoes(voice, w2, m, error);
      GoesOn(voice, w, w2, w', m);
      WithinOn(w, w2, w', m);
    }
  }

  // Binding and asking

  /** The node still holds the sandbox, on the same attempt. */
  ghost predicate Holds(w: World, m: Id, attempt: nat, last: string, n: Name) {
    && Visiting(w, m) && var pc := w.threads[m].pc;
    Holding(pc) && pc.attempt == attempt && pc.last == last && pc.sandbox == n
  }

  lemma SendGoes(voice: Voice, w: World, m: Id) returns (w': World)
    requires Visiting(w, m) && w.threads[m].pc.Leased?
    ensures var pc := w.threads[m].pc;
            && Goes(voice, w, w', m) && Within(w, w', m) && Holds(w', m, pc.attempt, pc.last, pc.sandbox)
            && w'.leases == w.leases && w'.pods == w.pods && w'.rows == w.rows
            && (if KeyOf(m, w.threads[m]) in w.leases && w.leases[KeyOf(m, w.threads[m])].bound then w'.threads[m].pc.Asking?
                else w'.threads[m].pc.Binding?)
  {
    w' := DoAsk(w, m, SendRequest);
    Asks(voice, w, m, SendRequest);
  }

  lemma BindServedGoes(voice: Voice, w: World, m: Id) returns (w': World)
    requires Visiting(w, m) && w.threads[m].pc.Binding?
    requires var n := w.threads[m].pc.sandbox; n in w.pods && w.pods[n].alive
    ensures var pc := w.threads[m].pc;
            && Goes(voice, w, w', m) && Within(w, w', m) && Holds(w', m, pc.attempt, pc.last, pc.sandbox)
            && w'.threads[m].pc.BindServed?
            && w'.leases == w.leases && w'.rows == w.rows
            && w'.pods == w.pods[pc.sandbox := Rebind(w.pods[pc.sandbox], KeyOf(m, w.threads[m]))]
  {
    w' := DoServe(voice, w, m, ServeBind);
    Serves(voice, w, m, ServeBind);
  }

  lemma BindRepliedGoes(voice: Voice, w: World, m: Id) returns (w': World)
    requires Visiting(w, m) && w.threads[m].pc.BindServed?
    ensures var pc, k := w.threads[m].pc, KeyOf(m, w.threads[m]);
            && Goes(voice, w, w', m) && Within(w, w', m) && Holds(w', m, pc.attempt, pc.last, pc.sandbox)
            && w'.threads[m].pc.Asking?
            && w'.pods == w.pods && w'.rows == w.rows
            && w'.leases == if k in w.leases then w.leases[k := Lease(w.leases[k].sandbox, true)] else w.leases
  {
    w' := DoAsk(w, m, BindReplied);
    Asks(voice, w, m, BindReplied);
  }

  /** The sandbox's answer, as the machine has it. */
  lemma HeardGoes(voice: Voice, w: World, m: Id, a: Answer, pods: map<Name, Pod>) returns (w': World)
    requires Visiting(w, m) && w.threads[m].pc.Asking?
    requires var t := w.threads[m];
             Heard(voice, w.pods, t.pc.sandbox, TurnKeyOf(m, t), t.graph.currentTurn, RequestOf(t), a, pods)
    ensures var pc := w.threads[m].pc;
            && Goes(voice, w, w', m) && Within(w, w', m)
            && w'.threads[m].pc == Answering(pc.attempt, pc.last, pc.sandbox, Spoke(a))
            && w'.leases == w.leases && w'.rows == w.rows && w'.pods == pods
  {
    var t := w.threads[m];
    w' := Goto(w.(pods := pods), m, Answering(t.pc.attempt, t.pc.last, t.pc.sandbox, Spoke(a)));
    if CachedTurn(w, m).Some? {
      Serves(voice, w, m, ServeReplay);
    } else {
      assert a == Answer(a.result, BoundPersona(w, m), t.graph.currentTurn);
      Serves(voice, w, m, ServeResult(a.result));
    }
  }

  lemma DeclinedGoes(voice: Voice, w: World, m: Id, message: string) returns (w': World)
    requires Visiting(w, m) && w.threads[m].pc.Asking?
    requires var t := w.threads[m];
             Listens(w.pods, t.pc.sandbox) && Cache.Lookup(w.pods[t.pc.sandbox].cache, TurnKeyOf(m, t)).None?
    ensures Goes(voice, w, w', m) && GaveUp(w, w', m, message)
    ensures w'.leases == w.leases && w'.pods == w.pods && w'.rows == w.rows
  {
    var t := w.threads[m];
    var w1 := Goto(w, m, Answering(t.pc.attempt, t.pc.last, t.pc.sandbox, Refused(message)));
    Serves(voice, w, m, ServeError(message));
    w' := RefusalGoes(voice, w1, m);
    GoesOn(voice, w, w1, w', m);
    WithinOn(w, w1, w', m);
    assert WhoIs(w1.threads[m]) == WhoIs(w.threads[m]);
  }

  lemma RefusalGoes(voice: Voice, w: World, m: Id) returns (w': World)
    requires Visiting(w, m) && w.threads[m].pc.Answering? && w.threads[m].pc.reply.Refused?
    ensures Goes(voice, w, w', m) && GaveUp(w, w', m, w.threads[m].pc.reply.message)
    ensures w'.leases == w.leases && w'.pods == w.pods && w'.rows == w.rows
  {
    w' := Fail(w, m, w.threads[m].pc.reply.message);
    Asks(voice, w, m, Deliver);
  }

  lemma ClosedGoes(voice: Voice, w: World, m: Id) returns (w': World)
    requires Visiting(w, m) && (w.threads[m].pc.Asking? || w.threads[m].pc.Answering?)
    ensures Goes(voice, w, w', m) && GaveUp(w, w', m, w.threads[m].pc.last)
    ensures w'.leases == w.leases && w'.pods == w.pods && w'.rows == w.rows
  {
    w' := Fail(w, m, w.threads[m].pc.last);
    Asks(voice, w, m, CloseStream);
  }

  /** An answer that came through, recorded or not: the node is on its way out with it. */
  ghost predicate Outbound(w: World, m: Id, attempt: nat, last: string, n: Name, u: Update) {
    Visiting(w, m) && w.threads[m].pc == Leaving(attempt, last, n, u)
  }

  lemma RecordGoes(voice: Voice, w: World, m: Id, rows: map<string, Stored>) returns (w': World)
    requires Visiting(w, m) && w.threads[m].pc.Answering? && w.threads[m].pc.reply.Spoke?
    requires var t := w.threads[m];
             var u := SuccessUpdate(t.node.agent, t.pc.sandbox, t.pc.reply.answer.result);
             rows == w.rows || (TurnKeyOf(m, t) !in w.rows && rows == w.rows[TurnKeyOf(m, t) := Serialise(u)])
    ensures Goes(voice, w, w', m) && Within(w, w', m)
    ensures var t := w.threads[m];
            var u := SuccessUpdate(t.node.agent, t.pc.sandbox, t.pc.reply.answer.result);
            Outbound(w', m, t.pc.attempt, t.pc.last, t.pc.sandbox, u)
    ensures w'.leases == w.leases && w'.pods == w.pods && w'.rows == rows
  {
    var t := w.threads[m];
    var w1 := Goto(w, m, Recording(t.pc.attempt, t.pc.last, t.pc.sandbox, t.pc.reply.answer));
    Asks(voice, w, m, Deliver);
    w' := WrittenGoes(voice, w1, m, rows);
    GoesOn(voice, w, w1, w', m);
    WithinOn(w, w1, w', m);
  }

  lemma WrittenGoes(voice: Voice, w: World, m: Id, rows: map<string, Stored>) returns (w': World)
    requires Visiting(w, m) && w.threads[m].pc.Recording?
    requires var t := w.threads[m];
             var u := SuccessUpdate(t.node.agent, t.pc.sandbox, t.pc.answer.result);
             rows == w.rows || (TurnKeyOf(m, t) !in w.rows && rows == w.rows[TurnKeyOf(m, t) := Serialise(u)])
    ensures Goes(voice, w, w', m) && Within(w, w', m)
    ensures var t := w.threads[m];
            var u := SuccessUpdate(t.node.agent, t.pc.sandbox, t.pc.answer.result);
            Outbound(w', m, t.pc.attempt, t.pc.last, t.pc.sandbox, u)
    ensures w'.leases == w.leases && w'.pods == w.pods && w'.rows == rows
  {
    var step := Record(rows != w.rows);
    w' := DoAsk(w, m, step);
    Asks(voice, w, m, step);
  }

  lemma LeaveGoes(voice: Voice, w: World, m: Id) returns (w': World)
    requires Visiting(w, m) && w.threads[m].pc.Leaving?
    ensures Goes(voice, w, w', m) && Within(w, w', m) && w'.threads[m].pc == Returning(w.threads[m].pc.update)
    ensures w'.leases == w.leases && w'.pods == w.pods && w'.rows == w.rows
  {
    w' := Goto(w, m, Returning(w.threads[m].pc.update));
    Asks(voice, w, m, Leave);
  }

  // After an exception

  /** The lease is forgotten and its sandbox given up; then once more, or not at all. */
  ghost predicate StartsOver(w: World, w': World, m: Id, attempt: nat, error: string) {
    && Within(w, w', m)
    && w'.threads[m].pc == (if attempt == 0 then Leasing(1, error) else Returning(FailureUpdate(WhoIs(w.threads[m]), error)))
    && var k := KeyOf(m, w.threads[m]);
    && k in w.leases && w.leases[k].sandbox in w.pods
    && w'.leases == w.leases - {k} && w'.rows == w.rows
    && w'.pods == w.pods[w.leases[k].sandbox := Counted(w.pods[w.leases[k].sandbox])]
  }

  lemma RaiseGoes(voice: Voice, w: World, m: Id, error: string) returns (w': World)
    requires Visiting(w, m) && (Holding(w.threads[m].pc) || w.threads[m].pc.Leaving?)
    requires var k := KeyOf(m, w.threads[m]); k in w.leases && w.leases[k].sandbox in w.pods
    ensures Goes(voice, w, w', m) && StartsOver(w, w', m, w.threads[m].pc.attempt, error)
  {
    var t := w.threads[m];
    var step := if t.pc.Leaving? then LeaveRaises(error) else Raise(error);
    var w1 := DoAsk(w, m, step);
    Asks(voice, w, m, step);
    assert w1.threads == w.threads[m := w1.threads[m]];
    w' := DeleteGoes(voice, w1, m);
    GoesOn(voice, w, w1, w', m);
    WithinOn(w, w1, w', m);
    assert WhoIs(w1.threads[m]) == WhoIs(t);
  }

  lemma DeleteGoes(voice: Voice, w: World, m: Id) returns (w': World)
    requires Visiting(w, m) && w.threads[m].pc.Deleting? && w.threads[m].pc.sandbox in w.pods
    ensures Goes(voice, w, w', m) && Within(w, w', m)
    ensures w'.threads[m].pc == if w.threads[m].pc.attempt == 0 then Leasing(1, w.threads[m].pc.last)
                                else Returning(FailureUpdate(WhoIs(w.threads[m]), w.threads[m].pc.last))
    ensures w'.leases == w.leases && w'.rows == w.rows
    ensures w'.pods == w.pods[w.threads[m].pc.sandbox := Counted(w.pods[w.threads[m].pc.sandbox])]
  {
    var pc := w.threads[m].pc;
    w' := NextAttempt(CountRelease(w, pc.sandbox), m, pc.attempt, pc.last);
    assert WhoIs(CountRelease(w, pc.sandbox).threads[m]) == WhoIs(w.threads[m]);
    Asks(voice, w, m, DeleteTried);
  }

  // The code

  /** The backend's objects hold what the machine's world says they hold. */
  class Backend {
    const manager: SandboxManager
    const cluster: Cluster
    const store: TurnStore
    const voice: Voice

    constructor (voice: Voice)
      ensures fresh(manager) && fresh(cluster) && fresh(store) && this.voice == voice
      ensures Mirrors(Initial)
    {
      manager := new SandboxManager();
      cluster := new Cluster();
      store := new TurnStore();
      this.voice := voice;
    }

    ghost predicate Mirrors(w: World)
      reads manager, cluster, store
    {
      w.leases == manager.leases && w.pods == cluster.pods && w.rows == store.rows
    }

    /** The bind a fresh lease needs, marked once it has been answered. */
    method BindFirst(k: Key, n: Name, ghost w: World) returns (r: Result<(), string>, ghost w': World)
      requires Mirrors(w) && Visiting(w, k.meeting) && w.threads[k.meeting].pc.Binding?
      requires k == KeyOf(k.meeting, w.threads[k.meeting]) && n == w.threads[k.meeting].pc.sandbox && Leads(w, k, n)
      modifies manager, cluster
      ensures Mirrors(w') && Goes(voice, w, w', k.meeting) && Within(w, w', k.meeting)
      ensures w'.leases.Keys == w.leases.Keys && w'.pods.Keys == w.pods.Keys
      ensures forall x :: x in w.leases ==> w'.leases[x].sandbox == w.leases[x].sandbox
      ensures var pc := w.threads[k.meeting].pc; Holds(w', k.meeting, pc.attempt, pc.last, n)
      ensures r.Ok? ==> w'.threads[k.meeting].pc.Asking?
    {
      ghost var m := k.meeting;
      w' := w;
      GoesNowhere(voice, w, m);
      assert w.threads == w.threads[m := w.threads[m]];
      r := cluster.Bind(n, k);
      if cluster.pods != w.pods || r.Ok? {
        w' := BindServedGoes(voice, w, m);
      }
      if r.Ok? {
        ghost var w1 := w';
        manager.MarkBound(k);
        w' := BindRepliedGoes(voice, w1, m);
        GoesOn(voice, w, w1, w', m);
        WithinOn(w, w1, w', m);
      }
    }

    /** Bind if needed, then ask. An exception anywhere leaves the node holding what it held. */
    method Attempt(k: Key, n: Name, key: string, request: TurnRequest, turn: nat, ghost w: World) returns (r: Outcome, ghost w': World)
      requires Mirrors(w) && Visiting(w, k.meeting) && w.threads[k.meeting].pc.Leased?
      requires var t := w.threads[k.meeting];
               && k == KeyOf(k.meeting, t) && n == t.pc.sandbox && key == TurnKeyOf(k.meeting, t)
               && request == RequestOf(t) && turn == t.graph.currentTurn && Leads(w, k, n)
      modifies manager, cluster
      ensures Mirrors(w') && Goes(voice, w, w', k.meeting) && Within(w, w', k.meeting)
      ensures w'.leases.Keys == w.leases.Keys && w'.pods.Keys == w.pods.Keys
      ensures forall x :: x in w.leases ==> w'.leases[x].sandbox == w.leases[x].sandbox
      ensures var t, t' := w.threads[k.meeting], w'.threads[k.meeting];
              match r
              case Answered(a) => t'.pc == Answering(t.pc.attempt, t.pc.last, n, Spoke(a))
              case Declined(message) => GaveUp(w, w', k.meeting, message)
              case Closed => GaveUp(w, w', k.meeting, t.pc.last)
              case Broke(_) => Holds(w', k.meeting, t.pc.attempt, t.pc.last, n)
    {
      ghost var m := k.meeting;
      var needed := manager.NeedsBind(k);
      w' := SendGoes(voice, w, m);
      if needed {
        ghost var w1 := w';
        var bound;
        bound, w' := BindFirst(k, n, w1);
        GoesOn(voice, w, w1, w', m);
        WithinOn(w, w1, w', m);
        if bound.Err? {
          return Broke(bound.error), w';
        }
      }
      ghost var asked := w';
      var out := cluster.Turn(voice, n, key, turn, request);
      w' := Reply(k.meeting, asked, out, cluster.pods);
      GoesOn(voice, w, asked, w', m);
      WithinOn(w, asked, w', m);
      r := out;
    }

    /** The world after the sandbox was asked. */
    lemma Reply(m: Id, w: World, out: Outcome, pods: map<Name, Pod>) returns (w': World)
      requires Visiting(w, m) && w.threads[m].pc.Asking?
      requires var t := w.threads[m];
               var n, key, turn, request := t.pc.sandbox, TurnKeyOf(m, t), t.graph.currentTurn, RequestOf(t);
               match out
               case Answered(a) => Heard(voice, w.pods, n, key, turn, request, a, pods)
               case Declined(_) => Listens(w.pods, n) && Cache.Lookup(w.pods[n].cache, key).None? && pods == w.pods
               case _ => pods == w.pods || HeardSome(voice, w.pods, n, key, turn, request, pods)
      ensures Goes(voice, w, w', m) && Within(w, w', m) && w'.leases == w.leases && w'.rows == w.rows && w'.pods == pods
      ensures pods.Keys == w.pods.Keys
      ensures var pc := w.threads[m].pc;
              match out
              case Answered(a) => w'.threads[m].pc == Answering(pc.attempt, pc.last, pc.sandbox, Spoke(a))
              case Declined(message) => GaveUp(w, w', m, message)
              case Closed => GaveUp(w, w', m, pc.last)
              case Broke(_) => Holds(w', m, pc.attempt, pc.last, pc.sandbox)
    {
      match out
      case Answered(a) => w' := HeardGoes(voice, w, m, a, pods);
      case Declined(message) => w' := DeclinedGoes(voice, w, m, message);
      case Broke(_) => w' := Unheard(m, w, pods);
      case Closed =>
        var w1 := Unheard(m, w, pods);
        w' := ClosedGoes(voice, w1, m);
        GoesOn(voice, w, w1, w', m);
        WithinOn(w, w1, w', m);
        assert WhoIs(w1.threads[m]) == WhoIs(w.threads[m]);
    }

    /** Nothing came through, but the sandbox may have answered. */
    lemma Unheard(m: Id, w: World, pods: map<Name, Pod>) returns (w': World)
      requires Visiting(w, m) && w.threads[m].pc.Asking?
      requires var t := w.threads[m];
               pods == w.pods || HeardSome(voice, w.pods, t.pc.sandbox, TurnKeyOf(m, t), t.graph.currentTurn, RequestOf(t), pods)
      ensures Goes(voice, w, w', m) && Within(w, w', m) && w'.leases == w.leases && w'.rows == w.rows && w'.pods == pods
      ensures pods.Keys == w.pods.Keys
      ensures var pc, pc' := w.threads[m].pc, w'.threads[m].pc;
              Holds(w', m, pc.attempt, pc.last, pc.sandbox) && (pc'.Asking? || pc'.Answering?)
    {
      if pods == w.pods {
        w' := w;
        GoesNowhere(voice, w, m);
        assert w.threads == w.threads[m := w.threads[m]];
      } else {
        var t := w.threads[m];
        var a :| Heard(voice, w.pods, t.pc.sandbox, TurnKeyOf(m, t), t.graph.currentTurn, RequestOf(t), a, pods);
        w' := HeardGoes(voice, w, m, a, pods);
      }
    }

    /** The way out of the client's block, with an update to hand back: closing the client may
        raise, which sets aside an answer that had come through. */
    method LeaveClient(k: Key, n: Name, who: Attendee, attempt: nat, last: string, u: Update, ghost w: World)
      returns (v: Verdict, ghost w': World)
      requires Mirrors(w) && Outbound(w, k.meeting, attempt, last, n, u)
      requires k == KeyOf(k.meeting, w.threads[k.meeting]) && who == WhoIs(w.threads[k.meeting])
      requires Leads(w, k, n) && n in w.pods
      modifies manager, cluster
      ensures Mirrors(w') && Goes(voice, w, w', k.meeting) && Within(w, w', k.meeting)
      ensures v == HandBack(u) || exists error :: v == GivenUp(attempt, who, error)
      ensures w'.leases == w.leases || w'.leases == w.leases - {k}
      ensures w'.pods == w.pods || w'.pods == w.pods[n := Counted(w.pods[n])]
      ensures Follows(v, w'.threads[k.meeting].pc, attempt, last, who)
    {
      var raised := cluster.CloseClient();
      match raised {
        case None =>
          v := HandBack(u);
          w' := LeaveGoes(voice, w, k.meeting);
        case Some(error) =>
          manager.Invalidate(k, cluster);
          v := GivenUp(attempt, who, error);
          w' := RaiseGoes(voice, w, k.meeting, error);
      }
    }

    /** An answer that came through is recorded, and the client left with it. */
    method KeepAnswer(k: Key, n: Name, key: string, who: Attendee, attempt: nat, last: string, a: Answer, ghost w: World)
      returns (v: Verdict, ghost w': World)
      requires Mirrors(w) && Visiting(w, k.meeting) && k == KeyOf(k.meeting, w.threads[k.meeting])
      requires key == TurnKeyOf(k.meeting, w.threads[k.meeting]) && who == WhoIs(w.threads[k.meeting])
      requires Leads(w, k, n) && n in w.pods && w.threads[k.meeting].pc == Answering(attempt, last, n, Spoke(a))
      modifies manager, cluster, store
      ensures Mirrors(w') && Goes(voice, w, w', k.meeting) && Within(w, w', k.meeting)
      ensures Follows(v, w'.threads[k.meeting].pc, attempt, last, who)
      ensures forall x :: x in w'.leases ==> x in w.leases && w'.leases[x].sandbox == w.leases[x].sandbox
      ensures w'.pods.Keys == w.pods.Keys
    {
      var u := SuccessUpdate(k.agent, n, a.result);
      store.Record(key, Serialise(u));
      ghost var w1 := RecordGoes(voice, w, k.meeting, store.rows);
      SameSpeaker(w, w1, k.meeting);
      v, w' := LeaveClient(k, n, who, attempt, last, u, w1);
      GoesOn(voice, w, w1, w', k.meeting);
      WithinOn(w, w1, w', k.meeting);
    }

    /** What becomes of an attempt, once there is a sandbox to make it with. */
    method Settle(k: Key, n: Name, key: string, who: Attendee, attempt: nat, last: string, outcome: Outcome, ghost w: World)
      returns (v: Verdict, ghost w': World)
      requires Mirrors(w) && Visiting(w, k.meeting) && k == KeyOf(k.meeting, w.threads[k.meeting])
      requires key == TurnKeyOf(k.meeting, w.threads[k.meeting]) && who == WhoIs(w.threads[k.meeting])
      requires Leads(w, k, n) && n in w.pods
      requires var t := w.threads[k.meeting];
               match outcome
               case Answered(a) => t.pc == Answering(attempt, last, n, Spoke(a))
               case Declined(message) => t.pc == Returning(FailureUpdate(who, message))
               case Closed => t.pc == Returning(FailureUpdate(who, last))
               case Broke(_) => Holds(w, k.meeting, attempt, last, n)
      modifies manager, cluster, store
      ensures Mirrors(w') && Goes(voice, w, w', k.meeting) && Within(w, w', k.meeting)
      ensures Follows(v, w'.threads[k.meeting].pc, attempt, last, who)
      ensures forall x :: x in w'.leases ==> x in w.leases && w'.leases[x].sandbox == w.leases[x].sandbox
      ensures w'.pods.Keys == w.pods.Keys
    {
      ghost var m := k.meeting;
      w' := w;
      GoesNowhere(voice, w, m);
      assert w.threads == w.threads[m := w.threads[m]];
      match outcome {
        case Answered(a) =>
          v, w' := KeepAnswer(k, n, key, who, attempt, last, a, w);
        case Declined(message) =>
          v := HandBack(FailureUpdate(who, message));
        case Closed =>
          v := Break;
        case Broke(error) =>
          manager.Invalidate(k, cluster);
          w' := RaiseGoes(voice, w, m, error);
          v := GivenUp(attempt, who, error);
      }
    }

    /** One pass through the retry loop. */
    method Iterate(m: Id, roster: seq<Attendee>, graph: Graph, agent: Id, who: Attendee, attempt: nat, last: string, ghost w: World)
      returns (v: Verdict, ghost w': World)
      requires Mirrors(w) && Visiting(w, m) && w.threads[m].pc == Leasing(attempt, last) && who == WhoIs(w.threads[m])
      requires var t := w.threads[m]; t.roster == roster && t.graph == graph && t.node == Speaker(agent) && graph.meetingId == m
      requires forall k :: k in w.leases ==> w.leases[k].sandbox in w.pods
      modifies manager, cluster, store
      ensures Mirrors(w') && Goes(voice, w, w', m) && Within(w, w', m)
      ensures Follows(v, w'.threads[m].pc, attempt, last, who)
      ensures forall k :: k in w'.leases ==> w'.leases[k].sandbox in w'.pods
    {
      var k := Key(m, agent);
      var lease := manager.Acquire(k, cluster);
      if lease.Err? {
        w' := AcquireFails(voice, w, m, cluster.pods, lease.error);
        return HandBack(FailureUpdate(who, NoSandbox(lease.error))), w';
      }
      ghost var w1 := AcquireGoes(voice, w, m, manager.leases, cluster.pods, lease.value);
      SameSpeaker(w, w1, m);
      AcquiredLeads(w, w1, k, lease.value);
      v, w' := UseSandbox(k, lease.value, TurnKey(m, graph.currentTurn, agent), RequestFor(graph, roster, agent),
                          graph.currentTurn, who, attempt, last, w1);
      GoesOn(voice, w, w1, w', m);
      WithinOn(w, w1, w', m);
    }

    /** Every lease after the acquisition is on a sandbox there is. */
    lemma AcquiredLeads(w: World, w1: World, k: Key, n: Name)
      requires forall x :: x in w.leases ==> w.leases[x].sandbox in w.pods
      requires if k in w.leases then w1.leases == w.leases && w1.pods == w.pods && n == w.leases[k].sandbox
               else NewPod(w.pods, w1.pods, n, k) && w1.leases == w.leases[k := Lease(n, false)]
      ensures Leads(w1, k, n) && forall x :: x in w1.leases ==> w1.leases[x].sandbox in w1.pods
    {
    }

    /** An attempt with a leased sandbox, to its end. */
    method UseSandbox(k: Key, n: Name, key: string, request: TurnRequest, turn: nat, who: Attendee, attempt: nat, last: string,
                      ghost w: World)
      returns (v: Verdict, ghost w': World)
      requires Mirrors(w) && Visiting(w, k.meeting) && w.threads[k.meeting].pc == Leased(attempt, last, n)
      requires var t := w.threads[k.meeting];
               && k == KeyOf(k.meeting, t) && key == TurnKeyOf(k.meeting, t) && request == RequestOf(t)
               && turn == t.graph.currentTurn && who == WhoIs(t)
      requires Leads(w, k, n) && forall x :: x in w.leases ==> w.leases[x].sandbox in w.pods
      modifies manager, cluster, store
      ensures Mirrors(w') && Goes(voice, w, w', k.meeting) && Within(w, w', k.meeting)
      ensures Follows(v, w'.threads[k.meeting].pc, attempt, last, who)
      ensures forall x :: x in w'.leases ==> w'.leases[x].sandbox in w'.pods
    {
      var outcome;
      ghost var w1;
      outcome, w1 := Attempt(k, n, key, request, turn, w);
      SameSpeaker(w, w1, k.meeting);
      v, w' := Settle(k, n, key, who, attempt, last, outcome, w1);
      GoesOn(voice, w, w1, w', k.meeting);
      WithinOn(w, w1, w', k.meeting);
    }

    /** One execution of an attendee's node, from entering it to the update it hands back:
        the durable record if there is one, else at most two attempts. */
    method Run(m: Id, roster: seq<Attendee>, graph: Graph, agent: Id, ghost w: World) returns (u: Update, ghost w': World)
      requires Mirrors(w) && Visiting(w, m) && w.threads[m].pc.Entered?
      requires var t := w.threads[m]; t.roster == roster && t.graph == graph && t.node == Speaker(agent) && graph.meetingId == m
      requires forall k :: k in w.leases ==> w.leases[k].sandbox in w.pods
      modifies manager, cluster, store
      ensures Mirrors(w') && Goes(voice, w, w', m) && Within(w, w', m)
      ensures w'.threads[m].pc == Returning(u)
    {
      var who := FindAttendee(roster, agent);
      var cached := store.Lookup(TurnKey(m, graph.currentTurn, agent));
      if cached.Some? {
        HitGoes(voice, w, m);
        return cached.value, Goto(w, m, Returning(cached.value));
      }
      MissGoes(voice, w, m);
      w' := Goto(w, m, Leasing(0, CLOSED));
      var last := CLOSED;
      var attempt := 0;
      while attempt < 2
        invariant 0 <= attempt <= 2
        invariant Mirrors(w') && Goes(voice, w, w', m) && Within(w, w', m)
        invariant w'.threads[m].pc == if attempt < 2 then Leasing(attempt, last) else Returning(FailureUpdate(who, last))
        invariant forall k :: k in w'.leases ==> w'.leases[k].sandbox in w'.pods
      {
        ghost var w1 := w';
        SameSpeaker(w, w1, m);
        var verdict;
        verdict, w' := Iterate(m, roster, graph, agent, who, attempt, last, w1);
        GoesOn(voice, w, w1, w', m);
        WithinOn(w, w1, w', m);
        match verdict {
          case HandBack(update) => return update, w';
          case Break => break;
          case Retry(error) =>
            last := error;
            attempt := attempt + 1;
        }
      }
      u := FailureUpdate(who, last);
    }
  }

  /** How one pass through the loop ended. */
  datatype Verdict = HandBack(update: Update) | Break | Retry(error: string)

  /** After an exception: a retry against a replacement, once. */
  function GivenUp(attempt: nat, who: Attendee, error: string): Verdict {
    if attempt == 0 then Retry(error) else HandBack(FailureUpdate(who, error))
  }

  /** Where the machine stands after a pass: only a first attempt is ever retried. */
  ghost predicate Follows(v: Verdict, pc: Pc, attempt: nat, last: string, who: Attendee) {
    match v
    case HandBack(u) => pc == Returning(u)
    case Break => pc == Returning(FailureUpdate(who, last))
    case Retry(error) => attempt == 0 && pc == Leasing(1, error)
  }
}
