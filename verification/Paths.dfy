/** Calm paths of the protocol: one lemma per action a node takes when nothing is in its
    way, and the way from entering a node to handing back a given update. */
module Paths {
  import opened Wrappers
  import opened State
  import opened Supervisor
  import opened Meeting
  import opened Machine
  import opened Invariant
  import Cache = TurnCache

  /** A calm run leads from one world to the other. */
  ghost predicate Reaches(voice: Voice, w: World, w': World) {
    exists acts :: Runs(voice, w, acts, w') && Calm(acts)
  }

  lemma ReachesSelf(voice: Voice, w: World)
    ensures Reaches(voice, w, w)
  {
    assert Runs(voice, w, [], w) && Calm([]);
  }

  lemma ReachesTrans(voice: Voice, a: World, b: World, c: World)
    requires Reaches(voice, a, b) && Reaches(voice, b, c)
    ensures Reaches(voice, a, c)
  {
    var xs :| Runs(voice, a, xs, b) && Calm(xs);
    var ys :| Runs(voice, b, ys, c) && Calm(ys);
    RunsConcat(voice, a, xs, b, ys, c);
    assert Calm(xs + ys);
  }

  lemma OneStep(voice: Voice, w: World, act: Action, w': World)
    requires Can(voice, w, act) && Do(voice, w, act) == w' && Ordinary(act)
    ensures Reaches(voice, w, w')
  {
    assert [act][1..] == [];
    assert Runs(voice, w', [], w');
    assert Runs(voice, w, [act], w');
    assert Calm([act]);
  }

  lemma ClaimOne(voice: Voice, w: World, m: Id, step: ClaimStep)
    requires CanClaim(w, m, step) && !step.LookupFails?
    ensures Reaches(voice, w, DoClaim(w, m, step))
  {
    OneStep(voice, w, Claim(m, step), DoClaim(w, m, step));
  }

  lemma AskOne(voice: Voice, w: World, m: Id, step: AskStep)
    requires CanAsk(w, m, step) && step != Record(false) && !step.LeaveRaises?
    ensures Reaches(voice, w, DoAsk(w, m, step))
  {
    OneStep(voice, w, Ask(m, step), DoAsk(w, m, step));
  }

  lemma ServeOne(voice: Voice, w: World, m: Id, step: ServeStep)
    requires CanServe(voice, w, m, step)
    ensures Reaches(voice, w, DoServe(voice, w, m, step))
  {
    OneStep(voice, w, Serve(m, step), DoServe(voice, w, m, step));
  }

  lemma ConductOne(voice: Voice, w: World, m: Id, step: ConductStep)
    requires CanConduct(w, m, step) && !step.Resume?
    ensures Reaches(voice, w, DoConduct(w, m, step))
  {
    OneStep(voice, w, Conduct(m, step), DoConduct(w, m, step));
  }

  // What a path through one attendee's node leaves alone

  /** The meeting stands in the same node with the same checkpoint; every other meeting,
      persona and row is untouched, and the only new claim is the given one. */
  ghost predicate Around(w: World, w': World, m: Id, k: Key, n: Name) {
    && w'.up == w.up && w'.rows == w.rows
    && m in w.threads && w'.threads.Keys == w.threads.Keys
    && (forall x :: x in w.threads && x != m ==> w'.threads[x] == w.threads[x])
    && w'.threads[m].roster == w.threads[m].roster && w'.threads[m].graph == w.threads[m].graph
    && w'.threads[m].node == w.threads[m].node
    && Beside(w, w', k, n)
  }

  /** Only one persona's lease and sandboxes may differ, and only one claim is new. */
  ghost predicate Beside(w: World, w': World, k: Key, n: Name) {
    && (forall x: Key :: x != k ==> (x in w'.leases <==> x in w.leases) && (x in w.leases ==> w'.leases[x] == w.leases[x]))
    && w'.pods.Keys == w.pods.Keys + {n}
    && (forall x :: x in w.pods ==> w'.pods[x].owner == w.pods[x].owner)
    && (forall x :: x in w.pods && w.pods[x].owner != k ==> w'.pods[x] == w.pods[x])
    && w'.pods[n].owner == k
  }

  lemma AroundTrans(a: World, b: World, c: World, m: Id, k: Key, n: Name)
    requires Around(a, b, m, k, n) && Around(b, c, m, k, n)
    ensures Around(a, c, m, k, n)
  {
  }

  /** The lease's sandbox is up, knows the persona if it should, and has not answered
      the turn yet. */
  ghost predicate Ready(w: World, m: Id, n: Name) {
    && Visiting(w, m)
    && var t := w.threads[m];
    && KeyOf(m, t) in w.leases && w.leases[KeyOf(m, t)].sandbox == n
    && n in w.pods && w.pods[n].owner == KeyOf(m, t) && w.pods[n].alive
    && (w.leases[KeyOf(m, t)].bound ==> w.pods[n].persona == Some(KeyOf(m, t)))
    && Cache.Lookup(w.pods[n].cache, TurnKeyOf(m, t)).None?
  }

  // Claiming a fresh sandbox

  function Creation(w: World, m: Id): World
    requires m in w.threads && w.threads[m].pc.Leasing?
  {
    var t := w.threads[m];
    Set(w, m, t.(pc := Creating(t.pc.attempt, t.pc.last), work := t.work.(claims := t.work.claims + 1)))
  }

  lemma StepBeginCreate(voice: Voice, w: World, m: Id)
    requires Visiting(w, m) && w.threads[m].pc.Leasing? && KeyOf(m, w.threads[m]) !in w.leases
    ensures Reaches(voice, w, Creation(w, m))
  {
    ClaimOne(voice, w, m, BeginCreate);
  }

  function FreshPod(k: Key): Pod {
    Pod(k, true, None, [], 0, 0)
  }

  lemma StepCreated(voice: Voice, w: World, m: Id, n: Name)
    requires Visiting(w, m) && w.threads[m].pc.Creating? && n !in w.pods
    ensures var t := w.threads[m];
            Reaches(voice, w, Goto(w.(pods := w.pods[n := FreshPod(KeyOf(m, t))]), m, ReadBack(t.pc.attempt, t.pc.last, n)))
  {
    ClaimOne(voice, w, m, Created(n, None, []));
  }

  lemma StepReadBackOk(voice: Voice, w: World, m: Id)
    requires Visiting(w, m) && w.threads[m].pc.ReadBack?
    ensures var t := w.threads[m];
            Reaches(voice, w, Goto(w.(leases := w.leases[KeyOf(m, t) := Lease(t.pc.sandbox, false)]), m,
                                   Leased(t.pc.attempt, t.pc.last, t.pc.sandbox)))
  {
    ClaimOne(voice, w, m, ReadBackOk);
  }

  /** With no lease, a node can always claim a sandbox nobody has heard of. */
  lemma ClaimFresh(voice: Voice, w: World, m: Id, n: Name) returns (w': World)
    requires Visiting(w, m) && w.threads[m].pc.Leasing? && KeyOf(m, w.threads[m]) !in w.leases && n !in w.pods
    ensures Reaches(voice, w, w') && Around(w, w', m, KeyOf(m, w.threads[m]), n)
    ensures w'.threads[m].pc.Leased? && w'.threads[m].pc.sandbox == n && Ready(w', m, n)
    ensures w'.threads[m].pc.attempt == w.threads[m].pc.attempt
  {
    var w1 := Creation(w, m);
    StepBeginCreate(voice, w, m);
    var t1 := w1.threads[m];
    var w2 := Goto(w1.(pods := w1.pods[n := FreshPod(KeyOf(m, t1))]), m, ReadBack(t1.pc.attempt, t1.pc.last, n));
    StepCreated(voice, w1, m, n);
    ReachesTrans(voice, w, w1, w2);
    var t2 := w2.threads[m];
    w' := Goto(w2.(leases := w2.leases[KeyOf(m, t2) := Lease(n, false)]), m, Leased(t2.pc.attempt, t2.pc.last, n));
    StepReadBackOk(voice, w2, m);
    ReachesTrans(voice, w, w2, w');
  }

  // Getting hold of a given sandbox

  lemma StepLookupMiss(voice: Voice, w: World, m: Id)
    requires Visiting(w, m) && w.threads[m].pc.Entered? && TurnKeyOf(m, w.threads[m]) !in w.rows
    ensures Reaches(voice, w, Goto(w, m, Leasing(0, CLOSED)))
  {
    ClaimOne(voice, w, m, LookupMiss);
  }

  lemma StepReuse(voice: Voice, w: World, m: Id)
    requires Visiting(w, m) && w.threads[m].pc.Leasing? && KeyOf(m, w.threads[m]) in w.leases
    ensures var t := w.threads[m];
            Reaches(voice, w, Goto(w, m, Leased(t.pc.attempt, t.pc.last, w.leases[KeyOf(m, t)].sandbox)))
  {
    ClaimOne(voice, w, m, Reuse);
  }

  /** The lease is given up, and the node is back at claiming. */
  function Forgotten(w: World, m: Id, error: string): World
    requires Visiting(w, m) && KeyOf(m, w.threads[m]) in w.leases
    requires w.leases[KeyOf(m, w.threads[m])].sandbox in w.pods
  {
    var t := w.threads[m];
    var k := KeyOf(m, t);
    Goto(CountRelease(w.(leases := w.leases - {k}), w.leases[k].sandbox), m, Leasing(1, error))
  }

  lemma StepRaise(voice: Voice, w: World, m: Id, error: string)
    requires Visiting(w, m) && w.threads[m].pc.Leased? && KeyOf(m, w.threads[m]) in w.leases
    ensures var t := w.threads[m];
            var k := KeyOf(m, t);
            Reaches(voice, w, Goto(w.(leases := w.leases - {k}), m, Deleting(t.pc.attempt, error, w.leases[k].sandbox)))
  {
    AskOne(voice, w, m, Raise(error));
  }

  lemma StepDeleteTried(voice: Voice, w: World, m: Id)
    requires Visiting(w, m) && w.threads[m].pc.Deleting? && w.threads[m].pc.sandbox in w.pods
    requires w.threads[m].pc.attempt == 0
    ensures var t := w.threads[m]; Reaches(voice, w, Goto(CountRelease(w, t.pc.sandbox), m, Leasing(1, t.pc.last)))
  {
    AskOne(voice, w, m, DeleteTried);
  }

  lemma Forget(voice: Voice, w: World, m: Id, error: string)
    requires Visiting(w, m) && w.threads[m].pc.Leased? && w.threads[m].pc.attempt == 0
    requires KeyOf(m, w.threads[m]) in w.leases && w.leases[KeyOf(m, w.threads[m])].sandbox in w.pods
    ensures Reaches(voice, w, Forgotten(w, m, error))
  {
    var t := w.threads[m];
    var k := KeyOf(m, t);
    var w1 := Goto(w.(leases := w.leases - {k}), m, Deleting(0, error, w.leases[k].sandbox));
    StepRaise(voice, w, m, error);
    StepDeleteTried(voice, w1, m);
    var w2 := Goto(CountRelease(w1, w.leases[k].sandbox), m, Leasing(1, error));
    ReachesTrans(voice, w, w1, w2);
    assert w2.threads == Forgotten(w, m, error).threads;
    assert w2 == Forgotten(w, m, error);
  }

  /** Whatever sandbox the node holds, it can come to hold a given other one. */
  lemma Replace(voice: Voice, w: World, m: Id, n: Name) returns (w': World)
    requires Visiting(w, m) && w.threads[m].pc.Leased? && w.threads[m].pc.attempt == 0 && n !in w.pods
    requires var k := KeyOf(m, w.threads[m]);
             k in w.leases && w.leases[k].sandbox in w.pods && w.pods[w.leases[k].sandbox].owner == k
    ensures Reaches(voice, w, w') && Around(w, w', m, KeyOf(m, w.threads[m]), n)
    ensures w'.threads[m].pc.Leased? && w'.threads[m].pc.sandbox == n && Ready(w', m, n)
  {
    var w1 := Forgotten(w, m, CLOSED);
    Forget(voice, w, m, CLOSED);
    w' := ClaimFresh(voice, w1, m, n);
    ReachesTrans(voice, w, w1, w');
  }

  /** From entering the node to holding a given sandbox: its own, or one nobody has. */
  lemma Obtain(voice: Voice, w: World, m: Id, n: Name) returns (w': World)
    requires Visiting(w, m) && w.threads[m].pc.Entered? && TurnKeyOf(m, w.threads[m]) !in w.rows
    requires var k := KeyOf(m, w.threads[m]); k in w.leases ==> Ready(w, m, w.leases[k].sandbox)
    requires n !in w.pods || Leads(w, KeyOf(m, w.threads[m]), n)
    ensures Reaches(voice, w, w') && Around(w, w', m, KeyOf(m, w.threads[m]), n)
    ensures w'.threads[m].pc.Leased? && w'.threads[m].pc.sandbox == n && Ready(w', m, n)
  {
    var w1 := Goto(w, m, Leasing(0, CLOSED));
    StepLookupMiss(voice, w, m);
    if KeyOf(m, w.threads[m]) !in w.leases {
      w' := ClaimFresh(voice, w1, m, n);
    } else {
      w' := Exchange(voice, w1, m, n);
    }
    ReachesTrans(voice, w, w1, w');
  }

  /** With a sound lease, the node keeps its sandbox or exchanges it for the given one. */
  lemma Exchange(voice: Voice, w: World, m: Id, n: Name) returns (w': World)
    requires Visiting(w, m) && w.threads[m].pc == Leasing(0, CLOSED) && KeyOf(m, w.threads[m]) in w.leases
    requires Ready(w, m, w.leases[KeyOf(m, w.threads[m])].sandbox)
    requires n !in w.pods || Leads(w, KeyOf(m, w.threads[m]), n)
    ensures Reaches(voice, w, w') && Around(w, w', m, KeyOf(m, w.threads[m]), n)
    ensures w'.threads[m].pc.Leased? && w'.threads[m].pc.sandbox == n && Ready(w', m, n)
  {
    var held := w.leases[KeyOf(m, w.threads[m])].sandbox;
    var w1 := Goto(w, m, Leased(0, CLOSED, held));
    StepReuse(voice, w, m);
    if held == n {
      w' := w1;
    } else {
      w' := Replace(voice, w1, m, n);
      ReachesTrans(voice, w, w1, w');
    }
  }

  // Putting the question

  /** The request has reached the sandbox, which is ready to think. */
  ghost predicate Listening(w: World, m: Id, n: Name) {
    Ready(w, m, n) && Reached(w, m) && w.threads[m].pc.sandbox == n && w.pods[n].persona == Some(KeyOf(m, w.threads[m]))
  }

  lemma StepSendBound(voice: Voice, w: World, m: Id)
    requires Visiting(w, m) && w.threads[m].pc.Leased?
    requires var k := KeyOf(m, w.threads[m]); k in w.leases && w.leases[k].bound
    ensures Reaches(voice, w, Set(w, m, AskNow(w.threads[m])))
  {
    AskOne(voice, w, m, SendRequest);
  }

  function BindNow(t: Thread): Thread
    requires t.pc.Leased?
  {
    t.(pc := Binding(t.pc.attempt, t.pc.last, t.pc.sandbox), work := t.work.(binds := t.work.binds + 1))
  }

  lemma StepSendUnbound(voice: Voice, w: World, m: Id)
    requires Visiting(w, m) && w.threads[m].pc.Leased?
    requires var k := KeyOf(m, w.threads[m]); k in w.leases && !w.leases[k].bound
    ensures Reaches(voice, w, Set(w, m, BindNow(w.threads[m])))
  {
    AskOne(voice, w, m, SendRequest);
  }

  lemma StepServeBind(voice: Voice, w: World, m: Id)
    requires Visiting(w, m) && w.threads[m].pc.Binding?
    requires var n := w.threads[m].pc.sandbox; n in w.pods && w.pods[n].alive
    ensures var t := w.threads[m];
            var n := t.pc.sandbox;
            Reaches(voice, w, Goto(w.(pods := w.pods[n := Rebind(w.pods[n], KeyOf(m, t))]), m,
                                   BindServed(t.pc.attempt, t.pc.last, n)))
  {
    ServeOne(voice, w, m, ServeBind);
  }

  lemma StepBindReplied(voice: Voice, w: World, m: Id)
    requires Visiting(w, m) && w.threads[m].pc.BindServed? && KeyOf(m, w.threads[m]) in w.leases
    ensures var t := w.threads[m];
            var k := KeyOf(m, t);
            Reaches(voice, w, Set(w.(leases := w.leases[k := w.leases[k].(bound := true)]), m, AskNow(t)))
  {
    AskOne(voice, w, m, BindReplied);
  }

  lemma RebindForgetsNothingNew(p: Pod, k: Key, key: string)
    requires Cache.Lookup(p.cache, key).None?
    ensures Cache.Lookup(Rebind(p, k).cache, key).None?
  {
  }

  lemma BindThenAsk(voice: Voice, w: World, m: Id, n: Name) returns (w': World)
    requires Ready(w, m, n) && w.threads[m].pc.Leased? && w.threads[m].pc.sandbox == n
    requires !w.leases[KeyOf(m, w.threads[m])].bound
    ensures Reaches(voice, w, w') && Around(w, w', m, KeyOf(m, w.threads[m]), n) && Listening(w', m, n)
    ensures w'.threads[m].pc.attempt == w.threads[m].pc.attempt
  {
    var t := w.threads[m];
    var k := KeyOf(m, t);
    var w1 := Set(w, m, BindNow(t));
    StepSendUnbound(voice, w, m);
    var w2 := Goto(w1.(pods := w1.pods[n := Rebind(w.pods[n], k)]), m, BindServed(t.pc.attempt, t.pc.last, n));
    StepServeBind(voice, w1, m);
    ReachesTrans(voice, w, w1, w2);
    RebindForgetsNothingNew(w.pods[n], k, TurnKeyOf(m, t));
    w' := Set(w2.(leases := w2.leases[k := w2.leases[k].(bound := true)]), m, AskNow(w2.threads[m]));
    StepBindReplied(voice, w2, m);
    ReachesTrans(voice, w, w2, w');
  }

  lemma Question(voice: Voice, w: World, m: Id, n: Name) returns (w': World)
    requires Ready(w, m, n) && w.threads[m].pc.Leased? && w.threads[m].pc.sandbox == n
    ensures Reaches(voice, w, w') && Around(w, w', m, KeyOf(m, w.threads[m]), n) && Listening(w', m, n)
    ensures w'.threads[m].pc.attempt == w.threads[m].pc.attempt
  {
    if w.leases[KeyOf(m, w.threads[m])].bound {
      w' := Set(w, m, AskNow(w.threads[m]));
      StepSendBound(voice, w, m);
    } else {
      w' := BindThenAsk(voice, w, m, n);
    }
  }

  // The answer, and back to the chair

  /** The meeting has taken the update and is back at the chair; the persona holds the
      given sandbox, in good order; and nothing else happened to anybody else. */
  ghost predicate Committed(w: World, w': World, m: Id, k: Key, n: Name, u: Update) {
    && w'.up == w.up
    && m in w.threads && w'.threads.Keys == w.threads.Keys
    && (forall x :: x in w.threads && x != m ==> w'.threads[x] == w.threads[x])
    && w'.threads[m].roster == w.threads[m].roster && w'.threads[m].graph == Apply(w.threads[m].graph, u)
    && w'.threads[m].node == Chair && w'.threads[m].pc == AtChair
    && Beside(w, w', k, n)
    && Leads(w', k, n) && Sound(w', k)
  }

  /** A lease whose sandbox can serve it. */
  ghost predicate Sound(w: World, k: Key) {
    && k in w.leases
    && var l := w.leases[k];
    && l.sandbox in w.pods && w.pods[l.sandbox].owner == k && w.pods[l.sandbox].alive
    && (l.bound ==> w.pods[l.sandbox].persona == Some(k))
  }

  lemma AroundThenCommitted(a: World, b: World, c: World, m: Id, k: Key, n: Name, u: Update)
    requires Around(a, b, m, k, n) && Committed(b, c, m, k, n, u)
    ensures Committed(a, c, m, k, n, u)
  {
  }

  lemma StepServeResult(voice: Voice, w: World, m: Id, r: TurnResult)
    requires CanServe(voice, w, m, ServeResult(r))
    ensures var t := w.threads[m];
            var n, answer := t.pc.sandbox, Answer(r, BoundPersona(w, m), t.graph.currentTurn);
            Reaches(voice, w, Goto(w.(pods := w.pods[n := Remember(w.pods[n], TurnKeyOf(m, t), answer)]), m,
                                   Answering(t.pc.attempt, t.pc.last, n, Spoke(answer))))
  {
    ServeOne(voice, w, m, ServeResult(r));
  }

  lemma StepServeError(voice: Voice, w: World, m: Id, message: string)
    requires CanServe(voice, w, m, ServeError(message))
    ensures var t := w.threads[m];
            Reaches(voice, w, Goto(w, m, Answering(t.pc.attempt, t.pc.last, t.pc.sandbox, Refused(message))))
  {
    ServeOne(voice, w, m, ServeError(message));
  }

  lemma StepDeliverAnswer(voice: Voice, w: World, m: Id)
    requires Visiting(w, m) && w.threads[m].pc.Answering? && w.threads[m].pc.reply.Spoke?
    ensures var pc := w.threads[m].pc; Reaches(voice, w, Goto(w, m, Recording(pc.attempt, pc.last, pc.sandbox, pc.reply.answer)))
  {
    AskOne(voice, w, m, Deliver);
  }

  lemma StepDeliverRefusal(voice: Voice, w: World, m: Id)
    requires Visiting(w, m) && w.threads[m].pc.Answering? && w.threads[m].pc.reply.Refused?
    ensures Reaches(voice, w, Fail(w, m, w.threads[m].pc.reply.message))
  {
    AskOne(voice, w, m, Deliver);
  }

  lemma StepRecord(voice: Voice, w: World, m: Id)
    requires Visiting(w, m) && w.threads[m].pc.Recording? && TurnKeyOf(m, w.threads[m]) !in w.rows
    ensures var t := w.threads[m];
            var u := SuccessUpdate(t.node.agent, t.pc.sandbox, t.pc.answer.result);
            Reaches(voice, w, Goto(w.(rows := w.rows[TurnKeyOf(m, t) := Serialise(u)]), m,
                                   Leaving(t.pc.attempt, t.pc.last, t.pc.sandbox, u)))
  {
    AskOne(voice, w, m, Record(true));
  }

  lemma StepLeave(voice: Voice, w: World, m: Id)
    requires Visiting(w, m) && w.threads[m].pc.Leaving?
    ensures Reaches(voice, w, Goto(w, m, Returning(w.threads[m].pc.update)))
  {
    AskOne(voice, w, m, Leave);
  }

  lemma StepReturn(voice: Voice, w: World, m: Id)
    requires Visiting(w, m) && w.threads[m].pc.Returning?
    ensures var t := w.threads[m];
            Reaches(voice, w, Set(w, m, EnterNode(t.(graph := Apply(t.graph, t.pc.update), node := Chair))))
  {
    AskOne(voice, w, m, Return);
  }

  lemma Heard(voice: Voice, w: World, m: Id, n: Name, r: TurnResult) returns (w': World)
    requires Listening(w, m, n) && Answers(voice, m, w.threads[m], r)
    ensures var t := w.threads[m];
            var answer := Answer(r, KeyOf(m, t), t.graph.currentTurn);
            && Reaches(voice, w, w')
            && w' == Goto(w.(pods := w.pods[n := Remember(w.pods[n], TurnKeyOf(m, t), answer)]), m,
                          Recording(t.pc.attempt, t.pc.last, n, answer))
  {
    var t := w.threads[m];
    var answer := Answer(r, KeyOf(m, t), t.graph.currentTurn);
    StepServeResult(voice, w, m, r);
    var w1 := Goto(w.(pods := w.pods[n := Remember(w.pods[n], TurnKeyOf(m, t), answer)]), m,
                   Answering(t.pc.attempt, t.pc.last, n, Spoke(answer)));
    StepDeliverAnswer(voice, w1, m);
    w' := Goto(w1, m, Recording(t.pc.attempt, t.pc.last, n, answer));
    ReachesTrans(voice, w, w1, w');
    assert w'.threads == w.threads[m := w'.threads[m]];
  }

  lemma Answered(voice: Voice, w: World, m: Id, n: Name, r: TurnResult) returns (w': World)
    requires Listening(w, m, n) && TurnKeyOf(m, w.threads[m]) !in w.rows && Answers(voice, m, w.threads[m], r)
    ensures var t := w.threads[m];
            && Reaches(voice, w, w')
            && Committed(w, w', m, KeyOf(m, t), n, SuccessUpdate(t.node.agent, n, r))
            && w'.rows.Keys == w.rows.Keys + {TurnKeyOf(m, t)}
  {
    var w2 := Heard(voice, w, m, n, r);
    w' := Noted(voice, w2, m);
    ReachesTrans(voice, w, w2, w');
    NotedCommits(w, w2, w', m, n, r);
  }

  lemma Noted(voice: Voice, w: World, m: Id) returns (w': World)
    requires Visiting(w, m) && w.threads[m].pc.Recording? && TurnKeyOf(m, w.threads[m]) !in w.rows
    ensures var t := w.threads[m];
            var u := SuccessUpdate(t.node.agent, t.pc.sandbox, t.pc.answer.result);
            && Reaches(voice, w, w') && m in w'.threads
            && w' == Set(w.(rows := w.rows[TurnKeyOf(m, t) := Serialise(u)]), m, w'.threads[m])
            && w'.threads[m].roster == t.roster && w'.threads[m].graph == Apply(t.graph, u)
            && w'.threads[m].node == Chair && w'.threads[m].pc == AtChair
  {
    var t := w.threads[m];
    var u := SuccessUpdate(t.node.agent, t.pc.sandbox, t.pc.answer.result);
    var w1 := Goto(w.(rows := w.rows[TurnKeyOf(m, t) := Serialise(u)]), m,
                   Leaving(t.pc.attempt, t.pc.last, t.pc.sandbox, u));
    StepRecord(voice, w, m);
    w' := HandedBack(voice, w1, m);
    ReachesTrans(voice, w, w1, w');
    assert w'.threads == w.threads[m := w'.threads[m]];
  }

  lemma HandedBack(voice: Voice, w: World, m: Id) returns (w': World)
    requires Visiting(w, m) && w.threads[m].pc.Leaving?
    ensures var t := w.threads[m];
            && Reaches(voice, w, w') && m in w'.threads && w' == Set(w, m, w'.threads[m])
            && w'.threads[m].roster == t.roster && w'.threads[m].graph == Apply(t.graph, t.pc.update)
            && w'.threads[m].node == Chair && w'.threads[m].pc == AtChair
  {
    var u := w.threads[m].pc.update;
    var w1 := Goto(w, m, Returning(u));
    StepLeave(voice, w, m);
    var t1 := w1.threads[m];
    w' := Set(w1, m, EnterNode(t1.(graph := Apply(t1.graph, u), node := Chair)));
    StepReturn(voice, w1, m);
    ReachesTrans(voice, w, w1, w');
    assert w'.threads == w.threads[m := w'.threads[m]];
  }

  lemma NotedCommits(w: World, w2: World, w': World, m: Id, n: Name, r: TurnResult)
    requires Listening(w, m, n)
    requires var t := w.threads[m];
             var k, answer := KeyOf(m, t), Answer(r, KeyOf(m, t), t.graph.currentTurn);
             && w2 == Goto(w.(pods := w.pods[n := Remember(w.pods[n], TurnKeyOf(m, t), answer)]), m,
                           Recording(t.pc.attempt, t.pc.last, n, answer))
             && var u := SuccessUpdate(t.node.agent, n, r);
             && m in w'.threads
             && w' == Set(w2.(rows := w2.rows[TurnKeyOf(m, t) := Serialise(u)]), m, w'.threads[m])
             && w'.threads[m].roster == t.roster && w'.threads[m].graph == Apply(t.graph, u)
             && w'.threads[m].node == Chair && w'.threads[m].pc == AtChair
    ensures var t := w.threads[m];
            && Committed(w, w', m, KeyOf(m, t), n, SuccessUpdate(t.node.agent, n, r))
            && w'.rows.Keys == w.rows.Keys + {TurnKeyOf(m, t)}
  {
  }

  lemma Declined(voice: Voice, w: World, m: Id, n: Name, message: string) returns (w': World)
    requires Listening(w, m, n)
    ensures var t := w.threads[m];
            && Reaches(voice, w, w')
            && Committed(w, w', m, KeyOf(m, t), n, FailureUpdate(WhoIs(t), message))
            && w'.rows == w.rows
  {
    var t := w.threads[m];
    StepServeError(voice, w, m, message);
    var w1 := Goto(w, m, Answering(t.pc.attempt, t.pc.last, n, Refused(message)));
    w' := Refusal(voice, w1, m, message);
    ReachesTrans(voice, w, w1, w');
    assert WhoIs(w1.threads[m]) == WhoIs(t);
    RefusalCommits(w, w1, w', m, n, message);
  }

  lemma Refusal(voice: Voice, w: World, m: Id, message: string) returns (w': World)
    requires Visiting(w, m) && w.threads[m].pc.Answering? && w.threads[m].pc.reply == Refused(message)
    ensures var t := w.threads[m];
            && Reaches(voice, w, w') && m in w'.threads
            && w' == Set(w, m, w'.threads[m])
            && w'.threads[m].roster == t.roster && w'.threads[m].graph == Apply(t.graph, FailureUpdate(WhoIs(t), message))
            && w'.threads[m].node == Chair && w'.threads[m].pc == AtChair
  {
    StepDeliverRefusal(voice, w, m);
    var w1 := Fail(w, m, message);
    var t1 := w1.threads[m];
    w' := Set(w1, m, EnterNode(t1.(graph := Apply(t1.graph, t1.pc.update), node := Chair)));
    StepReturn(voice, w1, m);
    ReachesTrans(voice, w, w1, w');
    assert w'.threads == w.threads[m := w'.threads[m]];
  }

  lemma RefusalCommits(w: World, w1: World, w': World, m: Id, n: Name, message: string)
    requires Listening(w, m, n)
    requires var t := w.threads[m];
             && w1 == Goto(w, m, Answering(t.pc.attempt, t.pc.last, n, Refused(message)))
             && m in w'.threads && w' == Set(w1, m, w'.threads[m])
             && w'.threads[m].roster == t.roster && w'.threads[m].graph == Apply(t.graph, FailureUpdate(WhoIs(t), message))
             && w'.threads[m].node == Chair && w'.threads[m].pc == AtChair
    ensures var t := w.threads[m];
            Committed(w, w', m, KeyOf(m, t), n, FailureUpdate(WhoIs(t), message)) && w'.rows == w.rows
  {
  }

  // The whole way

  /** A node that has just been entered with a sound lease or none can hand back any
      answer the persona may give, from its own sandbox or one nobody has. */
  lemma SuccessPath(voice: Voice, w: World, m: Id, n: Name, r: TurnResult) returns (w': World)
    requires Visiting(w, m) && w.threads[m].pc.Entered? && TurnKeyOf(m, w.threads[m]) !in w.rows
    requires var k := KeyOf(m, w.threads[m]); k in w.leases ==> Ready(w, m, w.leases[k].sandbox)
    requires n !in w.pods || Leads(w, KeyOf(m, w.threads[m]), n)
    requires Answers(voice, m, w.threads[m], r)
    ensures var t := w.threads[m];
            && Reaches(voice, w, w')
            && Committed(w, w', m, KeyOf(m, t), n, SuccessUpdate(t.node.agent, n, r))
            && w'.rows.Keys == w.rows.Keys + {TurnKeyOf(m, t)}
  {
    var w1 := Obtain(voice, w, m, n);
    var w2 := Question(voice, w1, m, n);
    ReachesTrans(voice, w, w1, w2);
    AroundTrans(w, w1, w2, m, KeyOf(m, w.threads[m]), n);
    w' := Answered(voice, w2, m, n, r);
    ReachesTrans(voice, w, w2, w');
    AroundThenCommitted(w, w2, w', m, KeyOf(m, w.threads[m]), n, SuccessUpdate(w.threads[m].node.agent, n, r));
  }

  /** And it can hand back any failure. */
  lemma FailurePath(voice: Voice, w: World, m: Id, n: Name, message: string) returns (w': World)
    requires Visiting(w, m) && w.threads[m].pc.Entered? && TurnKeyOf(m, w.threads[m]) !in w.rows
    requires var k := KeyOf(m, w.threads[m]); k in w.leases ==> Ready(w, m, w.leases[k].sandbox)
    requires n !in w.pods || Leads(w, KeyOf(m, w.threads[m]), n)
    ensures var t := w.threads[m];
            && Reaches(voice, w, w')
            && Committed(w, w', m, KeyOf(m, t), n, FailureUpdate(WhoIs(t), message))
            && w'.rows == w.rows
  {
    var w1 := Obtain(voice, w, m, n);
    var w2 := Question(voice, w1, m, n);
    ReachesTrans(voice, w, w1, w2);
    AroundTrans(w, w1, w2, m, KeyOf(m, w.threads[m]), n);
    w' := Declined(voice, w2, m, n, message);
    ReachesTrans(voice, w, w2, w');
    assert WhoIs(w2.threads[m]) == WhoIs(w.threads[m]);
    AroundThenCommitted(w, w2, w', m, KeyOf(m, w.threads[m]), n, FailureUpdate(WhoIs(w.threads[m]), message));
  }
}
