/** What holds in every reachable state of the protocol. */
module Invariant {
  import opened Wrappers
  import opened State
  import opened Supervisor
  import opened Meeting
  import opened Machine
  import Cache = TurnCache

  /** A claim still in somebody's keeping: nobody has deleted, lost or stranded it. */
  ghost predicate Kept(w: World, n: Name, k: Key) {
    && n in w.pods && w.pods[n].owner == k
    && w.pods[n].releases == 0 && n !in w.orphans && n !in w.stranded
  }

  /** The update says what the attendee said to this very request, from one of the
      persona's own sandboxes. */
  ghost predicate Spoken(voice: Voice, w: World, m: Id, t: Thread, u: Update, n: Name, r: TurnResult) {
    && InNode(t)
    && u == SuccessUpdate(t.node.agent, n, r)
    && n in w.pods && w.pods[n].owner == KeyOf(m, t)
    && Answers(voice, m, t, r)
  }

  ghost predicate Answers(voice: Voice, m: Id, t: Thread, r: TurnResult)
    requires t.node.Speaker?
  {
    && voice(KeyOf(m, t), RequestOf(t), r)
    && r.turnKey == TurnKeyOf(m, t) && r.agentId == t.node.agent
  }

  /** What an attendee's node may hand back: an answer, or a recorded failure. */
  ghost predicate Possible(voice: Voice, w: World, m: Id, t: Thread, u: Update) {
    && InNode(t)
    && ((exists message :: u == FailureUpdate(WhoIs(t), message))
        || exists n, r :: Spoken(voice, w, m, t, u, n, r))
  }

  ghost predicate SpokenFrom(voice: Voice, w: World, m: Id, t: Thread, u: Update, n: Name) {
    exists r :: Spoken(voice, w, m, t, u, n, r)
  }

  ghost predicate Leads(w: World, k: Key, n: Name) {
    k in w.leases && w.leases[k].sandbox == n
  }

  ghost predicate NoLeases(w: World, m: Id) {
    forall k :: k in w.leases ==> k.meeting != m
  }

  /** Calls made so far, bounded by the attempt the node is on. */
  predicate WorkOk(t: Thread) {
    match t.pc
    case Entered => t.work == NoWork
    case Leasing(i, _) => i <= 1 && t.work.claims <= i && t.work.binds <= i && t.work.asks <= i
    case Creating(i, _) => i <= 1 && t.work.claims <= i + 1 && t.work.binds <= i && t.work.asks <= i
    case ReadBack(i, _, _) => i <= 1 && t.work.claims <= i + 1 && t.work.binds <= i && t.work.asks <= i
    case Leased(i, _, _) => i <= 1 && t.work.claims <= i + 1 && t.work.binds <= i && t.work.asks <= i
    case Binding(i, _, _) => i <= 1 && t.work.claims <= i + 1 && t.work.binds <= i + 1 && t.work.asks <= i
    case BindServed(i, _, _) => i <= 1 && t.work.claims <= i + 1 && t.work.binds <= i + 1 && t.work.asks <= i
    case Asking(i, _, _) => i <= 1 && t.work.claims <= i + 1 && t.work.binds <= i + 1 && t.work.asks <= i + 1
    case Answering(i, _, _, _) => i <= 1 && t.work.claims <= i + 1 && t.work.binds <= i + 1 && t.work.asks <= i + 1
    case Deleting(i, _, _) => i <= 1 && t.work.claims <= i + 1 && t.work.binds <= i + 1 && t.work.asks <= i + 1
    case Recording(i, _, _, _) => i <= 1 && t.work.claims <= i + 1 && t.work.binds <= i + 1 && t.work.asks <= i + 1
    case Leaving(i, _, _, _) => i <= 1 && t.work.claims <= i + 1 && t.work.binds <= i + 1 && t.work.asks <= i + 1
    case _ => t.work.claims <= 2 && t.work.binds <= 2 && t.work.asks <= 2
  }

  ghost predicate PcOk(voice: Voice, w: World, m: Id, t: Thread) {
    match t.pc
    case AtChair => t.node.Chair?
    case Entered => InNode(t)
    case Leasing(_, _) => InNode(t)
    case Creating(_, _) => InNode(t) && KeyOf(m, t) !in w.leases
    case ReadBack(_, _, n) => InNode(t) && KeyOf(m, t) !in w.leases && Kept(w, n, KeyOf(m, t))
    case Leased(_, _, n) => InNode(t) && Leads(w, KeyOf(m, t), n)
    case Binding(_, _, n) => InNode(t) && Leads(w, KeyOf(m, t), n) && !w.leases[KeyOf(m, t)].bound
    case BindServed(_, _, n) => InNode(t) && Leads(w, KeyOf(m, t), n) && n in w.pods
                                && PersonaIs(w.pods[n], KeyOf(m, t))
    case Asking(_, _, n) => InNode(t) && Leads(w, KeyOf(m, t), n) && w.leases[KeyOf(m, t)].bound
    case Answering(_, _, n, reply) => InNode(t) && Leads(w, KeyOf(m, t), n) && w.leases[KeyOf(m, t)].bound
                                      && (reply.Spoke? ==> reply.answer.author == KeyOf(m, t)
                                                           && Answers(voice, m, t, reply.answer.result))
    case Deleting(_, _, n) => InNode(t) && KeyOf(m, t) !in w.leases && Kept(w, n, KeyOf(m, t))
    case Recording(_, _, n, answer) => InNode(t) && Leads(w, KeyOf(m, t), n) && answer.author == KeyOf(m, t)
                                       && Answers(voice, m, t, answer.result)
    case Leaving(_, _, n, u) => InNode(t) && Leads(w, KeyOf(m, t), n) && SpokenFrom(voice, w, m, t, u, n)
    case Returning(u) => Possible(voice, w, m, t, u)
    case Closing => !t.node.Speaker?
    case Handling => !t.node.Speaker?
    case Releasing(todo) => !t.node.Speaker? && NoLeases(w, m)
                            && forall n :: n in todo ==> n in w.pods && w.pods[n].owner.meeting == m
                                                         && Kept(w, n, w.pods[n].owner)
    case Done => !t.node.Speaker? && NoLeases(w, m)
    case Abandoned => !t.node.Speaker?
    case Halted => NoLeases(w, m) && (t.node.Speaker? ==> InNode(t))
  }

  /** Bound or restarted in place, but never somebody else. */
  predicate PersonaIs(p: Pod, k: Key) {
    p.persona.None? || p.persona == Some(k)
  }

  ghost predicate ThreadOk(voice: Voice, w: World, m: Id) {
    m in w.threads && var t := w.threads[m];
    && GoodId(m) && GoodRoster(t.roster)
    && t.graph.meetingId == m && t.graph.nextSpeakerReason == None
    && WorkOk(t) && PcOk(voice, w, m, t)
  }

  ghost predicate LeaseOk(w: World, k: Key) {
    k in w.leases && var l := w.leases[k];
    && Kept(w, l.sandbox, k)
    && (l.bound ==> PersonaIs(w.pods[l.sandbox], k))
  }

  /** A claim has somewhere to be, and only one place at a time. */
  ghost predicate Placed(w: World, n: Name) {
    n in w.pods && var p := w.pods[n];
    && p.releases <= 1
    && (Leads(w, p.owner, n) || HeldBy(w, p.owner.meeting, n)
        || p.releases == 1 || n in w.orphans || n in w.stranded)
    && (n in w.orphans ==> p.releases == 0 && n !in w.stranded)
    && (n in w.stranded ==> p.releases == 0)
  }

  ghost predicate HeldBy(w: World, m: Id, n: Name) {
    m in w.threads && n in Hands(w.threads[m].pc)
  }

  /** What a sandbox remembers of its own persona's turns was said in this meeting, no
      later than now, and to the present request if it is for the present turn. */
  ghost predicate CacheOk(voice: Voice, w: World, n: Name) {
    n in w.pods && var p := w.pods[n];
    && Cache.Bounded(p.cache, Cache.MAX_ENTRIES)
    && (p.persona.None? ==> p.cache == [])
    && (forall e :: e in p.cache ==>
          && CachedBy(e, p.persona)
          && (e.1.author.meeting == p.owner.meeting ==> e.1.author == p.owner)
          && (e.1.author == p.owner ==> Current(voice, w, e.1.author, e.1.turn, e.1.result)))
  }

  ghost predicate Current(voice: Voice, w: World, k: Key, turn: nat, r: TurnResult) {
    k.meeting in w.threads && var t := w.threads[k.meeting];
    && turn <= t.graph.currentTurn
    && (turn == t.graph.currentTurn && t.node == Speaker(k.agent) ==> Answers(voice, k.meeting, t, r))
  }

  ghost predicate RowsOk(voice: Voice, w: World, m: Id) {
    m in w.threads && var t := w.threads[m];
    forall turn: nat, a: Id {:trigger RowOk(voice, w, m, t, turn, a)} ::
      TurnKey(m, turn, a) in w.rows ==> RowOk(voice, w, m, t, turn, a)
  }

  ghost predicate RowOk(voice: Voice, w: World, m: Id, t: Thread, turn: nat, a: Id)
    requires TurnKey(m, turn, a) in w.rows
  {
    && turn <= t.graph.currentTurn
    && (turn == t.graph.currentTurn && t.node.Speaker? ==>
          && t.node == Speaker(a)
          && exists n, r :: StoredTurn(voice, w, m, t, w.rows[TurnKey(m, turn, a)], n, r))
  }

  ghost predicate StoredTurn(voice: Voice, w: World, m: Id, t: Thread, row: Stored, n: Name, r: TurnResult) {
    InNode(t) && row == Serialise(SuccessUpdate(t.node.agent, n, r))
    && Spoken(voice, w, m, t, SuccessUpdate(t.node.agent, n, r), n, r)
  }

  ghost predicate LeasesOk(w: World, m: Id) {
    forall k {:trigger LeaseOk(w, k)} :: k in w.leases && k.meeting == m ==> LeaseOk(w, k)
  }

  ghost predicate PlacesOk(w: World, m: Id) {
    forall n {:trigger Placed(w, n)} :: n in w.pods && w.pods[n].owner.meeting == m ==> Placed(w, n)
  }

  ghost predicate CachesOk(voice: Voice, w: World, m: Id) {
    forall n {:trigger CacheOk(voice, w, n)} :: n in w.pods && w.pods[n].owner.meeting == m ==> CacheOk(voice, w, n)
  }

  /** Everything the invariant says about one meeting. */
  ghost predicate MeetingOk(voice: Voice, w: World, m: Id) {
    ThreadOk(voice, w, m) && RowsOk(voice, w, m) && LeasesOk(w, m) && PlacesOk(w, m) && CachesOk(voice, w, m)
  }

  ghost predicate Inv(voice: Voice, w: World) {
    && (forall m {:trigger MeetingOk(voice, w, m)} :: m in w.threads ==> MeetingOk(voice, w, m))
    && (forall k :: k in w.leases ==> k.meeting in w.threads)
    && (forall n :: n in w.pods ==> w.pods[n].owner.meeting in w.threads)
    && w.orphans <= w.pods.Keys && w.stranded <= w.pods.Keys
    && (!w.up ==> w.leases == map[] && forall m :: m in w.threads ==> Ended(w.threads[m].pc) || w.threads[m].pc.Halted?)
  }

  // One meeting's step leaves the others alone

  /** The step changes only what belongs to one meeting. */
  ghost predicate Local(w: World, w': World, m: Id) {
    && w.up == w'.up
    && w'.threads.Keys == w.threads.Keys + {m}
    && (forall x :: x in w.threads && x != m ==> w'.threads[x] == w.threads[x])
    && (forall k: Key :: k.meeting != m ==> (k in w'.leases <==> k in w.leases))
    && (forall k: Key :: k.meeting != m && k in w.leases ==> w'.leases[k] == w.leases[k])
    && (forall n :: n in w.pods ==> n in w'.pods && w'.pods[n].owner == w.pods[n].owner)
    && (forall n :: n in w.pods && w.pods[n].owner.meeting != m ==> w'.pods[n] == w.pods[n])
    && (forall n :: n in w'.pods && n !in w.pods ==> w'.pods[n].owner.meeting == m)
    && (forall key :: key in w.rows ==> key in w'.rows && w'.rows[key] == w.rows[key])
    && (forall x, turn, a :: GoodId(x) && x != m && TurnKey(x, turn, a) in w'.rows ==> TurnKey(x, turn, a) in w.rows)
    && (forall n :: n in w.pods && w.pods[n].owner.meeting != m ==>
          (n in w'.orphans <==> n in w.orphans) && (n in w'.stranded <==> n in w.stranded))
    && w'.orphans <= w'.pods.Keys && w'.stranded <= w'.pods.Keys
  }

  // What each part of a meeting's invariant depends on

  /** The meeting's checkpoint is the same in both worlds. */
  predicate SameCheckpoint(w: World, w': World, m: Id) {
    m in w.threads && m in w'.threads &&
    w'.threads[m].roster == w.threads[m].roster &&
    w'.threads[m].graph == w.threads[m].graph &&
    w'.threads[m].node == w.threads[m].node
  }

  ghost predicate OwnersKept(w: World, w': World) {
    forall n :: n in w.pods ==> n in w'.pods && w'.pods[n].owner == w.pods[n].owner
  }

  lemma SpokenKept(voice: Voice, w: World, w': World, m: Id, u: Update, n: Name, r: TurnResult)
    requires SameCheckpoint(w, w', m) && OwnersKept(w, w')
    requires Spoken(voice, w, m, w.threads[m], u, n, r)
    ensures Spoken(voice, w', m, w'.threads[m], u, n, r)
  {
  }

  lemma RowsKept(voice: Voice, w: World, w': World, m: Id)
    requires RowsOk(voice, w, m) && SameCheckpoint(w, w', m) && OwnersKept(w, w')
    requires forall turn, a :: TurnKey(m, turn, a) in w'.rows ==>
               TurnKey(m, turn, a) in w.rows && w'.rows[TurnKey(m, turn, a)] == w.rows[TurnKey(m, turn, a)]
    ensures RowsOk(voice, w', m)
  {
    var t, t' := w.threads[m], w'.threads[m];
    forall turn: nat, a: Id | TurnKey(m, turn, a) in w'.rows ensures RowOk(voice, w', m, t', turn, a) {
      assert RowOk(voice, w, m, t, turn, a);
      if turn == t.graph.currentTurn && t.node.Speaker? {
        var n, r :| StoredTurn(voice, w, m, t, w.rows[TurnKey(m, turn, a)], n, r);
        SpokenKept(voice, w, w', m, SuccessUpdate(t.node.agent, n, r), n, r);
        assert StoredTurn(voice, w', m, t', w'.rows[TurnKey(m, turn, a)], n, r);
      }
    }
  }

  lemma LeasesKept(w: World, w': World, m: Id)
    requires LeasesOk(w, m)
    requires forall k :: k in w'.leases && k.meeting == m ==> k in w.leases && w'.leases[k] == w.leases[k]
    requires forall n :: n in w.pods && w.pods[n].owner.meeting == m ==> n in w'.pods && w'.pods[n] == w.pods[n]
    requires w'.orphans == w.orphans && w'.stranded == w.stranded
    ensures LeasesOk(w', m)
  {
    forall k | k in w'.leases && k.meeting == m ensures LeaseOk(w', k) {
      assert LeaseOk(w, k);
    }
  }

  lemma CachesKept(voice: Voice, w: World, w': World, m: Id)
    requires CachesOk(voice, w, m) && SameCheckpoint(w, w', m)
    requires forall n :: n in w'.pods && w'.pods[n].owner.meeting == m ==>
               n in w.pods && w.pods[n].owner == w'.pods[n].owner
               && w'.pods[n].cache == w.pods[n].cache && w'.pods[n].persona == w.pods[n].persona
    ensures CachesOk(voice, w', m)
  {
    forall n | n in w'.pods && w'.pods[n].owner.meeting == m ensures CacheOk(voice, w', n) {
      assert CacheOk(voice, w, n);
    }
  }

  lemma PlacesKept(w: World, w': World, m: Id)
    requires PlacesOk(w, m) && m in w.threads && m in w'.threads
    requires Hands(w.threads[m].pc) <= Hands(w'.threads[m].pc)
    requires forall k: Key :: k.meeting == m && k in w.leases ==> k in w'.leases && w'.leases[k].sandbox == w.leases[k].sandbox
    requires forall n :: n in w'.pods && w'.pods[n].owner.meeting == m ==>
               n in w.pods && w.pods[n].owner == w'.pods[n].owner && w'.pods[n].releases == w.pods[n].releases
    requires w'.orphans == w.orphans && w'.stranded == w.stranded
    ensures PlacesOk(w', m)
  {
    forall n | n in w'.pods && w'.pods[n].owner.meeting == m ensures Placed(w', n) {
      assert Placed(w, n);
    }
  }

  // Other meetings

  lemma OthersKept(voice: Voice, w: World, w': World, m: Id, x: Id)
    requires MeetingOk(voice, w, x) && Local(w, w', m) && x != m
    ensures MeetingOk(voice, w', x)
  {
    OtherPcKept(voice, w, w', m, x);
    RowsKept(voice, w, w', x);
    OtherHoldingsKept(voice, w, w', m, x);
  }

  lemma OtherHoldingsKept(voice: Voice, w: World, w': World, m: Id, x: Id)
    requires MeetingOk(voice, w, x) && Local(w, w', m) && x != m
    ensures LeasesOk(w', x) && PlacesOk(w', x) && CachesOk(voice, w', x)
  {
    forall k | k in w'.leases && k.meeting == x ensures LeaseOk(w', k) {
      assert LeaseOk(w, k);
    }
    forall n | n in w'.pods && w'.pods[n].owner.meeting == x ensures Placed(w', n) && CacheOk(voice, w', n) {
      assert n in w.pods && Placed(w, n) && CacheOk(voice, w, n);
    }
  }

  lemma OtherPcKept(voice: Voice, w: World, w': World, m: Id, x: Id)
    requires MeetingOk(voice, w, x) && Local(w, w', m) && x != m
    ensures ThreadOk(voice, w', x)
  {
    var t := w.threads[x];
    if t.node.Speaker? && KeyOf(x, t) in w.leases {
      assert LeaseOk(w, KeyOf(x, t));
    }
    if t.pc.Returning? || t.pc.Leaving? {
      forall n, r | Spoken(voice, w, x, t, t.pc.update, n, r) ensures Spoken(voice, w', x, t, t.pc.update, n, r) {
        SpokenKept(voice, w, w', x, t.pc.update, n, r);
      }
    }
  }

  lemma LocalStepKeeps(voice: Voice, w: World, w': World, m: Id)
    requires Inv(voice, w) && Local(w, w', m) && MeetingOk(voice, w', m)
    requires w.up || (w'.threads == w.threads && w'.leases == w.leases)
    ensures Inv(voice, w')
  {
    forall x | x in w'.threads ensures MeetingOk(voice, w', x) {
      if x != m {
        assert MeetingOk(voice, w, x);
        OthersKept(voice, w, w', m, x);
      }
    }
  }
}
