/** The turn protocol as a distributed state machine: the backend's meetings and its
    lease table, the durable turn store, the cluster's sandboxes, and everything that
    can go wrong between them. Each action is what one actor does without being
    interrupted; between any two actions the backend may crash, a sandbox may be lost
    or restarted in place, and any other meeting may move. */
module Machine {
  import opened Wrappers
  import opened Text
  import opened State
  import opened Supervisor
  import opened Meeting
  import Cache = TurnCache

  type Name = string

  /** The persona of one attendee in one meeting. */
  datatype Key = Key(meeting: Id, agent: Id)

  /** A sandbox held for one persona, and whether the persona was bound into it. */
  datatype Lease = Lease(sandbox: Name, bound: bool)

  /** A finished turn, with the persona that produced it and the turn it was for. */
  datatype Answer = Answer(result: TurnResult, author: Key, turn: nat)

  /** A claimed sandbox: whom it was claimed for, what runs in it, and how often its
      deletion was attempted by the manager and by startup sweeps. */
  datatype Pod = Pod(owner: Key, alive: bool, persona: Option<Key>, cache: Cache.Entries<Answer>,
                     releases: nat, sweeps: nat)

  /** What the personas may say when asked: any relation between a persona, a request
      and a result. */
  type Voice = (Key, TurnRequest, TurnResult) -> bool

  datatype SandboxReply = Spoke(answer: Answer) | Refused(message: string)

  /** The checkpoint's next node. */
  datatype Node = Chair | Speaker(agent: Id) | End

  /** Where the process driving a meeting stands. In an attendee's node, `attempt` is
      the loop index and `last` the error to report if nothing better turns up. In Handling,
      storing the meeting's status has raised, and the executor is about to store a failure. */
  datatype Pc =
    | AtChair
    | Entered
    | Leasing(attempt: nat, last: string)
    | Creating(attempt: nat, last: string)
    | ReadBack(attempt: nat, last: string, sandbox: Name)
    | Leased(attempt: nat, last: string, sandbox: Name)
    | Binding(attempt: nat, last: string, sandbox: Name)
    | BindServed(attempt: nat, last: string, sandbox: Name)
    | Asking(attempt: nat, last: string, sandbox: Name)
    | Answering(attempt: nat, last: string, sandbox: Name, reply: SandboxReply)
    | Recording(attempt: nat, last: string, sandbox: Name, answer: Answer)
    | Leaving(attempt: nat, last: string, sandbox: Name, update: Update)
    | Deleting(attempt: nat, last: string, sandbox: Name)
    | Returning(update: Update)
    | Closing
    | Handling
    | Releasing(todo: set<Name>)
    | Done
    | Abandoned
    | Halted

  /** Calls made by the current execution of an attendee's node, and how often leaving the
      sandbox's client raised behind an answer that had come through. */
  datatype Work = Work(claims: nat, binds: nat, asks: nat, exits: nat)

  const NoWork := Work(0, 0, 0, 0)

  /** One meeting: its checkpoint, the process driving it, and whether its row is live. */
  datatype Thread = Thread(roster: seq<Attendee>, graph: Graph, node: Node, pc: Pc, work: Work, live: bool)

  /** `orphans` and `stranded` are history: claims a crash left behind, and claims whose
      read-back failed. */
  datatype World = World(
    up: bool,
    threads: map<Id, Thread>,
    leases: map<Key, Lease>,
    rows: map<string, Stored>,
    pods: map<Name, Pod>,
    orphans: set<Name>,
    stranded: set<Name>)

  const Initial := World(true, map[], map[], map[], map[], {}, {})

  /** Getting hold of a sandbox, up to having its handle. */
  datatype ClaimStep =
    | LookupHit
    | LookupMiss
    | LookupFails
    | Reuse
    | BeginCreate
    | CreateFails(error: string)
    | Created(sandbox: Name, persona: Option<Key>, cache: Cache.Entries<Answer>)
    | ReadBackFails(error: string)
    | ReadBackOk

  /** Using it for one turn, and handing the update back. */
  datatype AskStep =
    | SendRequest
    | BindReplied
    | Deliver
    | CloseStream
    | Raise(error: string)
    | DeleteTried
    | Record(ok: bool)
    | Leave
    | LeaveRaises(error: string)
    | Return

  /** What the sandbox does with a request that reaches it. */
  datatype ServeStep =
    | ServeBind
    | ServeReplay
    | ServeResult(result: TurnResult)
    | ServeError(message: string)

  /** The chair and the executor. */
  datatype ConductStep =
    | Start(roster: seq<Attendee>, graph: Graph)
    | ChairDecides(replies: Replies)
    | ChairRaises
    | Persist(ok: bool)
    | Handled(stored: bool)
    | ReleaseOne(sandbox: Name)
    | Released
    | Resume

  datatype Fault =
    | PodLost(sandbox: Name)
    | PodRestarted(sandbox: Name)
    | Crash
    | Startup(reaped: bool, listing: set<Name>)

  datatype Action =
    | Claim(m: Id, claim: ClaimStep)
    | Ask(m: Id, ask: AskStep)
    | Serve(m: Id, serve: ServeStep)
    | Conduct(m: Id, conduct: ConductStep)
    | Happens(fault: Fault)

  const CLOSED := "Sandbox closed the stream without a result"

  // Reading a meeting's thread

  function KeyOf(m: Id, t: Thread): Key
    requires t.node.Speaker?
  {
    Key(m, t.node.agent)
  }

  function TurnKeyOf(m: Id, t: Thread): string
    requires t.node.Speaker?
  {
    TurnKey(m, t.graph.currentTurn, t.node.agent)
  }

  function RequestOf(t: Thread): TurnRequest
    requires t.node.Speaker?
  {
    RequestFor(t.graph, t.roster, t.node.agent)
  }

  function WhoIs(t: Thread): Attendee
    requires t.node.Speaker? && Attends(t.node.agent, t.roster)
  {
    FindAttendee(t.roster, t.node.agent)
  }

  /** The thread is in its attendee's node, which the roster knows. */
  predicate InNode(t: Thread) {
    t.node.Speaker? && Attends(t.node.agent, t.roster)
  }

  predicate Holding(pc: Pc) {
    pc.Leased? || pc.Binding? || pc.BindServed? || pc.Asking? || pc.Answering?
  }

  /** A claimed sandbox comes from a warm pool. It may have served somebody in another
      meeting before; what its cache holds then is that persona's own turns. */
  ghost predicate Warm(m: Id, persona: Option<Key>, cache: Cache.Entries<Answer>) {
    && Cache.Bounded(cache, Cache.MAX_ENTRIES)
    && (persona.None? ==> cache == [])
    && (forall e :: e in cache ==> CachedBy(e, persona) && e.1.author.meeting != m)
    && (persona.Some? ==> persona.value.meeting != m)
  }

  /** A cached entry stands under its own turn's key and belongs to the bound agent. */
  ghost predicate CachedBy(e: (string, Answer), persona: Option<Key>) {
    && persona.Some?
    && e.1.author.agent == persona.value.agent
    && ':' !in e.1.author.meeting
    && e.0 == TurnKey(e.1.author.meeting, e.1.turn, e.1.author.agent)
  }

  predicate Ended(pc: Pc) {
    pc.Done? || pc.Abandoned?
  }

  function Hands(pc: Pc): set<Name> {
    match pc
    case ReadBack(_, _, n) => {n}
    case Deleting(_, _, n) => {n}
    case Releasing(todo) => todo
    case _ => {}
  }

  ghost predicate OnLease(w: World, n: Name) {
    exists k :: k in w.leases && w.leases[k].sandbox == n
  }

  ghost predicate InHand(w: World, n: Name) {
    exists m :: m in w.threads && n in Hands(w.threads[m].pc)
  }

  // When an action is possible

  /** The meeting is being driven, and stands where the action needs it. */
  predicate Driven(w: World, m: Id) {
    w.up && m in w.threads
  }

  ghost predicate FreshStart(w: World, m: Id, roster: seq<Attendee>, g: Graph) {
    && m !in w.threads && GoodId(m) && GoodRoster(roster)
    && g.meetingId == m && g.messages == [] && g.eventLog == [] && g.nextSpeakerReason == None
    && forall t, a :: TurnKey(m, t, a) !in w.rows
  }

  /** The meeting is driven and stands in an attendee's node. */
  predicate Visiting(w: World, m: Id) {
    Driven(w, m) && InNode(w.threads[m])
  }

  ghost predicate CanClaim(w: World, m: Id, step: ClaimStep) {
    Visiting(w, m) &&
    var t := w.threads[m];
    match step
    case LookupHit => t.pc.Entered? && TurnKeyOf(m, t) in w.rows
    case LookupMiss => t.pc.Entered? && TurnKeyOf(m, t) !in w.rows
    case LookupFails => t.pc.Entered?
    case Reuse => t.pc.Leasing? && KeyOf(m, t) in w.leases
    case BeginCreate => t.pc.Leasing? && KeyOf(m, t) !in w.leases
    case CreateFails(_) => t.pc.Creating?
    case Created(n, persona, cache) => t.pc.Creating? && n !in w.pods && Warm(m, persona, cache)
    case ReadBackFails(_) => t.pc.ReadBack?
    case ReadBackOk => t.pc.ReadBack?
  }

  predicate CanAsk(w: World, m: Id, step: AskStep) {
    Visiting(w, m) &&
    var pc := w.threads[m].pc;
    match step
    case SendRequest => pc.Leased?
    case BindReplied => pc.BindServed?
    case Deliver => pc.Answering?
    case CloseStream => pc.Asking? || pc.Answering?
    case Raise(_) => Holding(pc)
    case DeleteTried => pc.Deleting? && pc.sandbox in w.pods
    case Record(_) => pc.Recording?
    case Leave => pc.Leaving?
    case LeaveRaises(_) => pc.Leaving?
    case Return => pc.Returning?
  }

  predicate CanServe(voice: Voice, w: World, m: Id, step: ServeStep) {
    match step
    case ServeBind => Visiting(w, m) && w.threads[m].pc.Binding?
                      && w.threads[m].pc.sandbox in w.pods && w.pods[w.threads[m].pc.sandbox].alive
    case ServeReplay => Reached(w, m) && CachedTurn(w, m).Some?
    case ServeResult(r) => Reached(w, m) && CachedTurn(w, m).None?
                           && r.turnKey == TurnKeyOf(m, w.threads[m])
                           && r.agentId == BoundPersona(w, m).agent
                           && voice(BoundPersona(w, m), RequestOf(w.threads[m]), r)
    case ServeError(_) => Reached(w, m) && CachedTurn(w, m).None?
  }

  ghost predicate CanConduct(w: World, m: Id, step: ConductStep) {
    match step
    case Start(roster, g) => w.up && FreshStart(w, m, roster, g)
    case ChairDecides(_) => Driven(w, m) && w.threads[m].pc.AtChair?
    case ChairRaises => Driven(w, m) && w.threads[m].pc.AtChair?
    case Persist(_) => Driven(w, m) && w.threads[m].pc.Closing?
    case Handled(_) => Driven(w, m) && w.threads[m].pc.Handling?
    case ReleaseOne(n) => Driven(w, m) && w.threads[m].pc.Releasing? && n in w.threads[m].pc.todo && n in w.pods
    case Released => Driven(w, m) && w.threads[m].pc.Releasing? && w.threads[m].pc.todo == {}
    case Resume => Driven(w, m) && w.threads[m].pc.Halted? && w.threads[m].live
  }

  predicate CanHappen(w: World, e: Fault) {
    match e
    case PodLost(n) => n in w.pods
    case PodRestarted(n) => n in w.pods
    case Crash => w.up
    case Startup(reaped, listing) => !w.up && listing <= w.pods.Keys && (!reaped ==> listing == {})
  }

  ghost predicate Can(voice: Voice, w: World, act: Action) {
    match act
    case Claim(m, step) => CanClaim(w, m, step)
    case Ask(m, step) => CanAsk(w, m, step)
    case Serve(m, step) => CanServe(voice, w, m, step)
    case Conduct(m, step) => CanConduct(w, m, step)
    case Happens(e) => CanHappen(w, e)
  }

  /** A turn request has reached a live sandbox with a persona bound in it. An unbound
      sandbox refuses, which the backend sees as an error: that is Raise. */
  predicate Reached(w: World, m: Id) {
    && Visiting(w, m) && w.threads[m].pc.Asking?
    && w.threads[m].pc.sandbox in w.pods
    && w.pods[w.threads[m].pc.sandbox].alive && w.pods[w.threads[m].pc.sandbox].persona.Some?
  }

  function BoundPersona(w: World, m: Id): Key
    requires Reached(w, m)
  {
    w.pods[w.threads[m].pc.sandbox].persona.value
  }

  function CachedTurn(w: World, m: Id): Option<Answer>
    requires Reached(w, m)
  {
    Cache.Lookup(w.pods[w.threads[m].pc.sandbox].cache, TurnKeyOf(m, w.threads[m]))
  }

  // What an action does

  function Set(w: World, m: Id, t: Thread): World {
    w.(threads := w.threads[m := t])
  }

  function Goto(w: World, m: Id, pc: Pc): World
    requires m in w.threads
  {
    Set(w, m, w.threads[m].(pc := pc))
  }

  function Fail(w: World, m: Id, message: string): World
    requires m in w.threads && InNode(w.threads[m])
  {
    Goto(w, m, Returning(FailureUpdate(WhoIs(w.threads[m]), message)))
  }

  function EnterNode(t: Thread): Thread {
    t.(work := NoWork, pc := match t.node case Chair => AtChair case Speaker(_) => Entered case End => Closing)
  }

  /** What the sandbox does with a bind: a change of agent clears the cache. */
  function Rebind(p: Pod, k: Key): Pod {
    p.(persona := Some(k), cache := if p.persona.Some? && p.persona.value.agent != k.agent then [] else p.cache)
  }

  function MeetingSandboxes(w: World, m: Id): set<Name> {
    set k | k in w.leases && k.meeting == m :: w.leases[k].sandbox
  }

  ghost function Lost(w: World): set<Name> {
    set n | n in w.pods && (OnLease(w, n) || InHand(w, n))
  }

  /** Meetings found live at startup are abandoned by definition. */
  function Reaped(threads: map<Id, Thread>): map<Id, Thread> {
    map m | m in threads :: threads[m].(live := false)
  }

  /** A sandbox labelled with a meeting that is not live. */
  predicate Stale(w: World, p: Pod) {
    p.owner.meeting !in w.threads || !w.threads[p.owner.meeting].live
  }

  ghost function DoClaim(w: World, m: Id, step: ClaimStep): World
    requires CanClaim(w, m, step)
  {
    var t := w.threads[m];
    match step
    case LookupHit => Goto(w, m, Returning(Rehydrate(w.rows[TurnKeyOf(m, t)])))
    case LookupMiss => Goto(w, m, Leasing(0, CLOSED))
    case LookupFails => Goto(w, m, Leasing(0, CLOSED))
    case Reuse => Goto(w, m, Leased(t.pc.attempt, t.pc.last, w.leases[KeyOf(m, t)].sandbox))
    case BeginCreate => Set(w, m, t.(pc := Creating(t.pc.attempt, t.pc.last), work := t.work.(claims := t.work.claims + 1)))
    case CreateFails(error) => Fail(w, m, NoSandbox(error))
    case Created(n, persona, cache) =>
      Goto(w.(pods := w.pods[n := Pod(KeyOf(m, t), true, persona, cache, 0, 0)]), m, ReadBack(t.pc.attempt, t.pc.last, n))
    case ReadBackFails(error) => Fail(w.(stranded := w.stranded + {t.pc.sandbox}), m, NoSandbox(error))
    case ReadBackOk =>
      Goto(w.(leases := w.leases[KeyOf(m, t) := Lease(t.pc.sandbox, false)]), m,
           Leased(t.pc.attempt, t.pc.last, t.pc.sandbox))
  }

  function NoSandbox(error: string): string {
    "No sandbox available: " + error
  }

  function AskNow(t: Thread): Thread
    requires t.pc.Leased? || t.pc.BindServed?
  {
    t.(pc := Asking(t.pc.attempt, t.pc.last, t.pc.sandbox), work := t.work.(asks := t.work.asks + 1))
  }

  /** After a failed attempt: once more against a replacement, or give up. */
  function NextAttempt(w: World, m: Id, attempt: nat, error: string): World
    requires m in w.threads && InNode(w.threads[m])
  {
    if attempt == 0 then Goto(w, m, Leasing(1, error)) else Fail(w, m, error)
  }

  /** An exception inside the client's block: the lease is forgotten, its sandbox given up. */
  function GiveUp(w: World, m: Id, attempt: nat, error: string): World
    requires m in w.threads && InNode(w.threads[m])
  {
    var k := KeyOf(m, w.threads[m]);
    if k in w.leases then Goto(w.(leases := w.leases - {k}), m, Deleting(attempt, error, w.leases[k].sandbox))
    else NextAttempt(w, m, attempt, error)
  }

  function Exited(t: Thread): Thread {
    t.(work := t.work.(exits := t.work.exits + 1))
  }

  function Counted(p: Pod): Pod {
    p.(releases := p.releases + 1)
  }

  function CountRelease(w: World, n: Name): World
    requires n in w.pods
  {
    w.(pods := w.pods[n := Counted(w.pods[n])])
  }

  function DoAsk(w: World, m: Id, step: AskStep): World
    requires CanAsk(w, m, step)
  {
    var t := w.threads[m];
    var k := KeyOf(m, t);
    match step
    case SendRequest =>
      if k in w.leases && w.leases[k].bound then Set(w, m, AskNow(t))
      else Set(w, m, t.(pc := Binding(t.pc.attempt, t.pc.last, t.pc.sandbox), work := t.work.(binds := t.work.binds + 1)))
    case BindReplied =>
      Set(w.(leases := if k in w.leases then w.leases[k := w.leases[k].(bound := true)] else w.leases), m, AskNow(t))
    case Deliver =>
      (match t.pc.reply
       case Spoke(answer) => Goto(w, m, Recording(t.pc.attempt, t.pc.last, t.pc.sandbox, answer))
       case Refused(message) => Fail(w, m, message))
    case CloseStream => Fail(w, m, t.pc.last)
    case Raise(error) => GiveUp(w, m, t.pc.attempt, error)
    case DeleteTried => NextAttempt(CountRelease(w, t.pc.sandbox), m, t.pc.attempt, t.pc.last)
    case Record(ok) =>
      var u := SuccessUpdate(t.node.agent, t.pc.sandbox, t.pc.answer.result);
      Goto(if ok && TurnKeyOf(m, t) !in w.rows then w.(rows := w.rows[TurnKeyOf(m, t) := Serialise(u)]) else w,
           m, Leaving(t.pc.attempt, t.pc.last, t.pc.sandbox, u))
    case Leave => Goto(w, m, Returning(t.pc.update))
    case LeaveRaises(error) => GiveUp(Set(w, m, Exited(t)), m, t.pc.attempt, error)
    case Return => Set(w, m, EnterNode(t.(graph := Apply(t.graph, t.pc.update), node := Chair)))
  }

  function DoServe(voice: Voice, w: World, m: Id, step: ServeStep): World
    requires CanServe(voice, w, m, step)
  {
    var t := w.threads[m];
    var n := t.pc.sandbox;
    var p := w.pods[n];
    match step
    case ServeBind => Goto(w.(pods := w.pods[n := Rebind(p, KeyOf(m, t))]), m, BindServed(t.pc.attempt, t.pc.last, n))
    case ServeReplay =>
      Goto(w.(pods := w.pods[n := p.(cache := Cache.MoveToEnd(p.cache, TurnKeyOf(m, t)))]), m,
           Answering(t.pc.attempt, t.pc.last, n, Spoke(CachedTurn(w, m).value)))
    case ServeResult(r) =>
      var answer := Answer(r, BoundPersona(w, m), t.graph.currentTurn);
      Goto(w.(pods := w.pods[n := Remember(p, TurnKeyOf(m, t), answer)]), m,
           Answering(t.pc.attempt, t.pc.last, n, Spoke(answer)))
    case ServeError(message) => Goto(w, m, Answering(t.pc.attempt, t.pc.last, n, Refused(message)))
  }

  function Remember(p: Pod, key: string, answer: Answer): Pod {
    p.(cache := Cache.AfterPut(p.cache, key, answer, Cache.MAX_ENTRIES))
  }

  /** The chair's decision, merged and routed. */
  function Routed(t: Thread, replies: Replies): Thread
    requires t.pc.AtChair?
  {
    var g := Apply(t.graph, Supervise(t.graph, t.roster, replies));
    EnterNode(t.(graph := g, node := match Route(g, t.roster) case None => End case Some(a) => Speaker(a)))
  }

  function DropLeases(w: World, m: Id): World {
    w.(leases := map k | k in w.leases && k.meeting != m :: w.leases[k])
  }

  /** The executor is gone, and with it whoever might have released the leases. */
  function GivenUpOn(t: Thread, stored: bool): Thread {
    t.(pc := Abandoned, live := t.live && !stored)
  }

  ghost function DoConduct(w: World, m: Id, step: ConductStep): World
    requires CanConduct(w, m, step)
  {
    match step
    case Start(roster, g) => Set(w, m, Thread(roster, g, Chair, AtChair, NoWork, true))
    case ChairDecides(replies) => Set(w, m, Routed(w.threads[m], replies))
    case ChairRaises => Goto(w, m, Closing)
    case Persist(ok) =>
      if ok then Set(DropLeases(w, m), m, w.threads[m].(pc := Releasing(MeetingSandboxes(w, m)), live := false))
      else Goto(w, m, Handling)
    case Handled(stored) => Set(w, m, GivenUpOn(w.threads[m], stored))
    case ReleaseOne(n) => Goto(CountRelease(w, n), m, Releasing(w.threads[m].pc.todo - {n}))
    case Released => Goto(w, m, Done)
    case Resume => Set(w, m, EnterNode(w.threads[m]))
  }

  ghost function Crashed(w: World): World {
    w.(up := false, leases := map[], orphans := w.orphans + Lost(w),
       threads := map m | m in w.threads ::
         if Ended(w.threads[m].pc) then w.threads[m] else w.threads[m].(pc := Halted))
  }

  function Started(w: World, reaped: bool, listing: set<Name>): World {
    var w' := w.(up := true, threads := if reaped then Reaped(w.threads) else w.threads);
    w'.(pods := map n | n in w.pods ::
      if n in listing && Stale(w', w.pods[n]) then w.pods[n].(sweeps := w.pods[n].sweeps + 1) else w.pods[n])
  }

  ghost function DoHappen(w: World, e: Fault): World
    requires CanHappen(w, e)
  {
    match e
    case PodLost(n) => w.(pods := w.pods[n := w.pods[n].(alive := false)])
    case PodRestarted(n) => w.(pods := w.pods[n := w.pods[n].(persona := None, cache := [])])
    case Crash => Crashed(w)
    case Startup(reaped, listing) => Started(w, reaped, listing)
  }

  ghost function Do(voice: Voice, w: World, act: Action): World
    requires Can(voice, w, act)
  {
    match act
    case Claim(m, step) => DoClaim(w, m, step)
    case Ask(m, step) => DoAsk(w, m, step)
    case Serve(m, step) => DoServe(voice, w, m, step)
    case Conduct(m, step) => DoConduct(w, m, step)
    case Happens(e) => DoHappen(w, e)
  }

  // Runs

  ghost predicate Runs(voice: Voice, w: World, acts: seq<Action>, w': World)
    decreases |acts|
  {
    if acts == [] then w' == w
    else Can(voice, w, acts[0]) && Runs(voice, Do(voice, w, acts[0]), acts[1..], w')
  }

  lemma RunsConcat(voice: Voice, w0: World, xs: seq<Action>, w1: World, ys: seq<Action>, w2: World)
    requires Runs(voice, w0, xs, w1) && Runs(voice, w1, ys, w2)
    ensures Runs(voice, w0, xs + ys, w2)
    decreases |xs|
  {
    if xs == [] {
      assert xs + ys == ys;
    } else {
      assert (xs + ys)[1..] == xs[1..] + ys;
      RunsConcat(voice, Do(voice, w0, xs[0]), xs[1..], w1, ys, w2);
    }
  }

  /** An action of a system where nothing outside the protocol goes wrong: no crash, hence
      nothing to restart or resume, no sandbox lost, no failing store, and no exception on
      leaving a client whose answer has come through. */
  predicate Ordinary(act: Action) {
    match act
    case Claim(_, step) => !step.LookupFails?
    case Ask(_, step) => step != Record(false) && !step.LeaveRaises?
    case Serve(_, _) => true
    case Conduct(_, step) => !step.Resume?
    case Happens(_) => false
  }

  predicate Calm(acts: seq<Action>) {
    forall act :: act in acts ==> Ordinary(act)
  }
}
