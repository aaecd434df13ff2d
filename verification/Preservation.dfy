/** Every action of the protocol keeps the invariant. */
module Preservation {
  import opened Wrappers
  import opened State
  import opened Supervisor
  import opened Meeting
  import opened Machine
  import opened Invariant
  import Cache = TurnCache

  // Actions that only move the program counter

  lemma SetIsLocal(w: World, m: Id, t': Thread)
    requires m in w.threads && w.orphans <= w.pods.Keys && w.stranded <= w.pods.Keys
    ensures Local(w, Set(w, m, t'), m)
  {
  }

  /** Moving on inside a node, without letting go of anything. */
  lemma PcStep(voice: Voice, w: World, m: Id, t': Thread)
    requires Inv(voice, w) && w.up && m in w.threads
    requires var t := w.threads[m]; t'.roster == t.roster && t'.graph == t.graph && t'.node == t.node && Hands(t.pc) <= Hands(t'.pc)
    requires WorkOk(t') && PcOk(voice, Set(w, m, t'), m, t')
    ensures Inv(voice, Set(w, m, t'))
  {
    var w' := Set(w, m, t');
    assert MeetingOk(voice, w, m);
    RowsKept(voice, w, w', m);
    LeasesKept(w, w', m);
    CachesKept(voice, w, w', m);
    PlacesKept(w, w', m);
    SetIsLocal(w, m, t');
    LocalStepKeeps(voice, w, w', m);
  }

  lemma FailureIsPossible(voice: Voice, w: World, m: Id, t: Thread, message: string)
    requires InNode(t)
    ensures Possible(voice, w, m, t, FailureUpdate(WhoIs(t), message))
  {
  }

  lemma FailStep(voice: Voice, w: World, m: Id, message: string)
    requires Inv(voice, w) && w.up && m in w.threads && InNode(w.threads[m]) && Hands(w.threads[m].pc) == {}
    ensures Inv(voice, Fail(w, m, message))
  {
    var t := w.threads[m];
    assert MeetingOk(voice, w, m);
    var t' := t.(pc := Returning(FailureUpdate(WhoIs(t), message)));
    assert WhoIs(t') == WhoIs(t);
    FailureIsPossible(voice, Set(w, m, t'), m, t', message);
    PcStep(voice, w, m, t');
  }

  predicate MovesOnly(step: ClaimStep) {
    step.LookupMiss? || step.LookupFails? || step.Reuse? || step.BeginCreate?
  }

  lemma ClaimMoveKeeps(voice: Voice, w: World, m: Id, step: ClaimStep)
    requires Inv(voice, w) && CanClaim(w, m, step) && MovesOnly(step)
    ensures Inv(voice, DoClaim(w, m, step))
  {
    assert MeetingOk(voice, w, m);
    var w' := DoClaim(w, m, step);
    PcStep(voice, w, m, w'.threads[m]);
  }

  lemma SendRequestKeeps(voice: Voice, w: World, m: Id)
    requires Inv(voice, w) && CanAsk(w, m, SendRequest)
    ensures Inv(voice, DoAsk(w, m, SendRequest))
  {
    PcFacts(voice, w, m);
    SentOk(voice, w, m);
    PcStep(voice, w, m, DoAsk(w, m, SendRequest).threads[m]);
  }

  lemma SentOk(voice: Voice, w: World, m: Id)
    requires ThreadOk(voice, w, m) && CanAsk(w, m, SendRequest)
    ensures var w', t := DoAsk(w, m, SendRequest), w.threads[m];
            && m in w'.threads && w' == Set(w, m, w'.threads[m]) && SameSpot(t, w'.threads[m])
            && Hands(t.pc) == {} && WorkOk(w'.threads[m]) && PcOk(voice, w', m, w'.threads[m])
  {
  }

  lemma LookupHitKeeps(voice: Voice, w: World, m: Id)
    requires Inv(voice, w) && CanClaim(w, m, LookupHit)
    ensures Inv(voice, DoClaim(w, m, LookupHit))
  {
    var t := w.threads[m];
    var a := t.node.agent;
    assert MeetingOk(voice, w, m);
    assert RowOk(voice, w, m, t, t.graph.currentTurn, a);
    var row := w.rows[TurnKeyOf(m, t)];
    var n, r :| StoredTurn(voice, w, m, t, row, n, r);
    SuccessRoundTrip(a, n, r);
    var t' := t.(pc := Returning(Rehydrate(row)));
    SpokenKept(voice, w, Set(w, m, t'), m, t'.pc.update, n, r);
    assert Possible(voice, Set(w, m, t'), m, t', t'.pc.update);
    PcStep(voice, w, m, t');
  }

  lemma CreateFailsKeeps(voice: Voice, w: World, m: Id, error: string)
    requires Inv(voice, w) && CanClaim(w, m, CreateFails(error))
    ensures Inv(voice, DoClaim(w, m, CreateFails(error)))
  {
    assert MeetingOk(voice, w, m);
    FailStep(voice, w, m, NoSandbox(error));
  }

  lemma DeliverKeeps(voice: Voice, w: World, m: Id)
    requires Inv(voice, w) && CanAsk(w, m, Deliver)
    ensures Inv(voice, DoAsk(w, m, Deliver))
  {
    var t := w.threads[m];
    assert MeetingOk(voice, w, m);
    match t.pc.reply
    case Spoke(answer) => PcStep(voice, w, m, t.(pc := Recording(t.pc.attempt, t.pc.last, t.pc.sandbox, answer)));
    case Refused(message) => FailStep(voice, w, m, message);
  }

  lemma CloseStreamKeeps(voice: Voice, w: World, m: Id)
    requires Inv(voice, w) && CanAsk(w, m, CloseStream)
    ensures Inv(voice, DoAsk(w, m, CloseStream))
  {
    assert MeetingOk(voice, w, m);
    FailStep(voice, w, m, w.threads[m].pc.last);
  }

  // Actions that change the lease table

  function WithLeases(w: World, leases: map<Key, Lease>, m: Id, t': Thread): World {
    Set(w.(leases := leases), m, t')
  }

  ghost predicate OthersLeases(w: World, leases: map<Key, Lease>, m: Id) {
    forall k: Key :: k.meeting != m ==> (k in leases <==> k in w.leases) && (k in leases ==> leases[k] == w.leases[k])
  }

  predicate SameSpot(t: Thread, t': Thread) {
    t'.roster == t.roster && t'.graph == t.graph && t'.node == t.node
  }

  lemma LeaseStep(voice: Voice, w: World, leases: map<Key, Lease>, m: Id, t': Thread)
    requires Inv(voice, w) && w.up && m in w.threads && SameSpot(w.threads[m], t')
    requires OthersLeases(w, leases, m)
    requires var w' := WithLeases(w, leases, m, t');
             WorkOk(t') && PcOk(voice, w', m, t') && LeasesOk(w', m) && PlacesOk(w', m)
    ensures Inv(voice, WithLeases(w, leases, m, t'))
  {
    var w' := WithLeases(w, leases, m, t');
    assert MeetingOk(voice, w, m);
    RowsKept(voice, w, w', m);
    CachesKept(voice, w, w', m);
    LeaseChangeIsLocal(w, leases, m, t');
    LocalStepKeeps(voice, w, w', m);
  }

  lemma LeaseChangeIsLocal(w: World, leases: map<Key, Lease>, m: Id, t': Thread)
    requires m in w.threads && OthersLeases(w, leases, m)
    requires w.orphans <= w.pods.Keys && w.stranded <= w.pods.Keys
    ensures Local(w, WithLeases(w, leases, m, t'), m)
  {
  }

  /** A claim in hand becomes the persona's lease. */
  lemma LeaseTaken(w: World, k: Key, n: Name, t': Thread)
    requires k.meeting in w.threads && LeasesOk(w, k.meeting) && PlacesOk(w, k.meeting)
    requires Kept(w, n, k) && k !in w.leases && Hands(w.threads[k.meeting].pc) == {n}
    ensures var w' := WithLeases(w, w.leases[k := Lease(n, false)], k.meeting, t');
            LeasesOk(w', k.meeting) && PlacesOk(w', k.meeting)
  {
    var w' := WithLeases(w, w.leases[k := Lease(n, false)], k.meeting, t');
    forall x | x in w'.leases && x.meeting == k.meeting ensures LeaseOk(w', x) {
      assert x != k ==> LeaseOk(w, x);
    }
    forall x | x in w'.pods && w'.pods[x].owner.meeting == k.meeting ensures Placed(w', x) {
      assert Placed(w, x);
    }
  }

  /** The lease's persona is now known to be bound. */
  lemma LeaseBound(w: World, k: Key, t': Thread)
    requires k.meeting in w.threads && LeasesOk(w, k.meeting) && PlacesOk(w, k.meeting)
    requires k in w.leases && w.leases[k].sandbox in w.pods && PersonaIs(w.pods[w.leases[k].sandbox], k)
    requires Hands(w.threads[k.meeting].pc) == {}
    ensures var w' := WithLeases(w, w.leases[k := w.leases[k].(bound := true)], k.meeting, t');
            LeasesOk(w', k.meeting) && PlacesOk(w', k.meeting)
  {
    var w' := WithLeases(w, w.leases[k := w.leases[k].(bound := true)], k.meeting, t');
    forall x | x in w'.leases && x.meeting == k.meeting ensures LeaseOk(w', x) {
      assert LeaseOk(w, x);
    }
    forall x | x in w'.pods && w'.pods[x].owner.meeting == k.meeting ensures Placed(w', x) {
      assert Placed(w, x);
    }
  }

  /** The lease is forgotten, and its claim is in hand until its deletion is tried. */
  lemma LeaseForgotten(w: World, k: Key, t': Thread)
    requires k.meeting in w.threads && LeasesOk(w, k.meeting) && PlacesOk(w, k.meeting) && k in w.leases
    requires Hands(w.threads[k.meeting].pc) == {} && Hands(t'.pc) == {w.leases[k].sandbox}
    ensures var w' := WithLeases(w, w.leases - {k}, k.meeting, t');
            LeasesOk(w', k.meeting) && PlacesOk(w', k.meeting)
  {
    var w' := WithLeases(w, w.leases - {k}, k.meeting, t');
    forall x | x in w'.leases && x.meeting == k.meeting ensures LeaseOk(w', x) {
      assert LeaseOk(w, x);
    }
    forall x | x in w'.pods && w'.pods[x].owner.meeting == k.meeting ensures Placed(w', x) {
      assert Placed(w, x);
    }
  }

  lemma TakingKeeps(voice: Voice, w: World, m: Id)
    requires Inv(voice, w) && Visiting(w, m) && w.threads[m].pc.ReadBack?
    ensures var t := w.threads[m];
            Inv(voice, WithLeases(w, w.leases[KeyOf(m, t) := Lease(t.pc.sandbox, false)], m,
                                  t.(pc := Leased(t.pc.attempt, t.pc.last, t.pc.sandbox))))
  {
    var t := w.threads[m];
    var k, n := KeyOf(m, t), t.pc.sandbox;
    var t' := t.(pc := Leased(t.pc.attempt, t.pc.last, n));
    assert MeetingOk(voice, w, m);
    LeaseTaken(w, k, n, t');
    LeaseStep(voice, w, w.leases[k := Lease(n, false)], m, t');
  }

  lemma ReadBackOkKeeps(voice: Voice, w: World, m: Id)
    requires Inv(voice, w) && CanClaim(w, m, ReadBackOk)
    ensures Inv(voice, DoClaim(w, m, ReadBackOk))
  {
    TakingKeeps(voice, w, m);
  }

  lemma BindRepliedKeeps(voice: Voice, w: World, m: Id)
    requires Inv(voice, w) && CanAsk(w, m, BindReplied)
    ensures Inv(voice, DoAsk(w, m, BindReplied))
  {
    var t := w.threads[m];
    var k := KeyOf(m, t);
    assert MeetingOk(voice, w, m);
    LeaseBound(w, k, AskNow(t));
    LeaseStep(voice, w, w.leases[k := w.leases[k].(bound := true)], m, AskNow(t));
  }

  /** Inside the client's block, with a sandbox leased. */
  predicate Inside(pc: Pc) {
    Holding(pc) || pc.Leaving?
  }

  lemma ForgettingKeeps(voice: Voice, w: World, m: Id, error: string)
    requires Inv(voice, w) && Visiting(w, m) && Inside(w.threads[m].pc)
    ensures var t := w.threads[m];
            var k := KeyOf(m, t);
            k in w.leases &&
            Inv(voice, WithLeases(w, w.leases - {k}, m, t.(pc := Deleting(t.pc.attempt, error, w.leases[k].sandbox))))
  {
    var t := w.threads[m];
    var k := KeyOf(m, t);
    assert MeetingOk(voice, w, m);
    assert LeaseOk(w, k);
    var t' := t.(pc := Deleting(t.pc.attempt, error, w.leases[k].sandbox));
    LeaseForgotten(w, k, t');
    LeaseStep(voice, w, w.leases - {k}, m, t');
  }

  lemma RaiseKeeps(voice: Voice, w: World, m: Id, error: string)
    requires Inv(voice, w) && CanAsk(w, m, Raise(error))
    ensures Inv(voice, DoAsk(w, m, Raise(error)))
  {
    ForgettingKeeps(voice, w, m, error);
  }

  // Actions that change one of the meeting's sandboxes

  function WithPod(w: World, n: Name, p: Pod, m: Id, t': Thread): World {
    Set(w.(pods := w.pods[n := p]), m, t')
  }

  lemma PodStep(voice: Voice, w: World, n: Name, p: Pod, m: Id, t': Thread)
    requires Inv(voice, w) && m in w.threads && SameSpot(w.threads[m], t') && (w.up || t' == w.threads[m])
    requires p.owner.meeting == m && (n in w.pods ==> w.pods[n].owner == p.owner)
    requires var w' := WithPod(w, n, p, m, t');
             WorkOk(t') && PcOk(voice, w', m, t') && LeasesOk(w', m) && PlacesOk(w', m) && CacheOk(voice, w', n)
    ensures Inv(voice, WithPod(w, n, p, m, t'))
  {
    var w' := WithPod(w, n, p, m, t');
    assert MeetingOk(voice, w, m);
    RowsKept(voice, w, w', m);
    OtherCachesKept(voice, w, n, p, m, t');
    PodChangeIsLocal(w, n, p, m, t');
    assert t' == w.threads[m] ==> w'.threads == w.threads;
    LocalStepKeeps(voice, w, w', m);
  }

  lemma OtherCachesKept(voice: Voice, w: World, n: Name, p: Pod, m: Id, t': Thread)
    requires CachesOk(voice, w, m) && m in w.threads && SameSpot(w.threads[m], t')
    requires CacheOk(voice, WithPod(w, n, p, m, t'), n)
    ensures CachesOk(voice, WithPod(w, n, p, m, t'), m)
  {
    var w' := WithPod(w, n, p, m, t');
    forall x | x in w'.pods && w'.pods[x].owner.meeting == m ensures CacheOk(voice, w', x) {
      if x != n {
        assert CacheOk(voice, w, x);
      }
    }
  }

  lemma PodChangeIsLocal(w: World, n: Name, p: Pod, m: Id, t': Thread)
    requires m in w.threads && p.owner.meeting == m && (n in w.pods ==> w.pods[n].owner == p.owner)
    requires w.orphans <= w.pods.Keys && w.stranded <= w.pods.Keys
    ensures Local(w, WithPod(w, n, p, m, t'), m)
  {
  }

  /** A sandbox whose owner, persona history and release count stand changes no place. */
  lemma PodKeepsPlaces(w: World, n: Name, p: Pod, m: Id, t': Thread)
    requires m in w.threads && LeasesOk(w, m) && PlacesOk(w, m)
    requires p.owner.meeting == m && (n in w.pods ==> w.pods[n].owner == p.owner && w.pods[n].releases == p.releases)
    requires n !in w.pods ==> n in Hands(t'.pc) && p.releases == 0 && n !in w.orphans && n !in w.stranded
    requires Hands(w.threads[m].pc) <= Hands(t'.pc)
    requires forall k :: k in w.leases && w.leases[k].sandbox == n && w.leases[k].bound ==> PersonaIs(p, k)
    ensures LeasesOk(WithPod(w, n, p, m, t'), m) && PlacesOk(WithPod(w, n, p, m, t'), m)
  {
    var w' := WithPod(w, n, p, m, t');
    forall x | x in w'.leases && x.meeting == m ensures LeaseOk(w', x) {
      assert LeaseOk(w, x);
    }
    forall x | x in w'.pods && w'.pods[x].owner.meeting == m ensures Placed(w', x) {
      assert x != n ==> Placed(w, x);
      assert x == n && n in w.pods ==> Placed(w, x);
    }
  }

  /** The deletion of a claim in hand is tried once, and it is in hand no longer. */
  lemma PodReleased(w: World, n: Name, m: Id, t': Thread)
    requires m in w.threads && LeasesOk(w, m) && PlacesOk(w, m)
    requires n in w.pods && w.pods[n].owner.meeting == m && Kept(w, n, w.pods[n].owner)
    requires n in Hands(w.threads[m].pc) && Hands(t'.pc) == Hands(w.threads[m].pc) - {n}
    requires !Leads(w, w.pods[n].owner, n)
    ensures var w' := WithPod(w, n, Counted(w.pods[n]), m, t'); LeasesOk(w', m) && PlacesOk(w', m)
  {
    var w' := WithPod(w, n, Counted(w.pods[n]), m, t');
    forall x | x in w'.leases && x.meeting == m ensures LeaseOk(w', x) {
      assert LeaseOk(w, x);
    }
    forall x | x in w'.pods && w'.pods[x].owner.meeting == m ensures Placed(w', x) {
      assert Placed(w, x);
    }
  }

  lemma CreatedKeeps(voice: Voice, w: World, m: Id, n: Name, persona: Option<Key>, cache: Cache.Entries<Answer>)
    requires Inv(voice, w) && CanClaim(w, m, Created(n, persona, cache))
    ensures Inv(voice, DoClaim(w, m, Created(n, persona, cache)))
  {
    var t := w.threads[m];
    var p := Pod(KeyOf(m, t), true, persona, cache, 0, 0);
    var t' := t.(pc := ReadBack(t.pc.attempt, t.pc.last, n));
    assert MeetingOk(voice, w, m);
    assert forall k :: k in w.leases && k.meeting == m ==> LeaseOk(w, k);
    UnknownSandboxUnleased(voice, w, n);
    PodKeepsPlaces(w, n, p, m, t');
    PodStep(voice, w, n, p, m, t');
  }

  lemma UnknownSandboxUnleased(voice: Voice, w: World, n: Name)
    requires Inv(voice, w) && n !in w.pods
    ensures forall k :: k in w.leases ==> w.leases[k].sandbox != n
  {
    forall k | k in w.leases ensures w.leases[k].sandbox != n {
      assert MeetingOk(voice, w, k.meeting);
      assert LeaseOk(w, k);
    }
  }

  lemma ReadBackFailsKeeps(voice: Voice, w: World, m: Id, error: string)
    requires Inv(voice, w) && CanClaim(w, m, ReadBackFails(error))
    ensures Inv(voice, DoClaim(w, m, ReadBackFails(error)))
  {
    StrandingKeeps(voice, w, m, NoSandbox(error));
  }

  function WithStranded(w: World, n: Name, m: Id, t': Thread): World {
    Set(w.(stranded := w.stranded + {n}), m, t')
  }

  lemma StrandingKeeps(voice: Voice, w: World, m: Id, message: string)
    requires Inv(voice, w) && Visiting(w, m) && w.threads[m].pc.ReadBack?
    ensures var t := w.threads[m];
            Inv(voice, WithStranded(w, t.pc.sandbox, m, t.(pc := Returning(FailureUpdate(WhoIs(t), message)))))
  {
    var t := w.threads[m];
    var t' := t.(pc := Returning(FailureUpdate(WhoIs(t), message)));
    var w' := WithStranded(w, t.pc.sandbox, m, t');
    assert MeetingOk(voice, w, m);
    assert WhoIs(t') == WhoIs(t);
    FailureIsPossible(voice, w', m, t', message);
    RowsKept(voice, w, w', m);
    CachesKept(voice, w, w', m);
    Stranded(w, KeyOf(m, t), t.pc.sandbox, t');
    StrandingIsLocal(w, t.pc.sandbox, m, t');
    LocalStepKeeps(voice, w, w', m);
  }

  lemma StrandingIsLocal(w: World, n: Name, m: Id, t': Thread)
    requires m in w.threads && n in w.pods && w.pods[n].owner.meeting == m
    requires w.orphans <= w.pods.Keys && w.stranded <= w.pods.Keys
    ensures Local(w, WithStranded(w, n, m, t'), m)
  {
  }

  lemma Stranded(w: World, k: Key, n: Name, t': Thread)
    requires k.meeting in w.threads && LeasesOk(w, k.meeting) && PlacesOk(w, k.meeting)
    requires Kept(w, n, k) && k !in w.leases && Hands(w.threads[k.meeting].pc) == {n} && Hands(t'.pc) == {}
    ensures var w' := WithStranded(w, n, k.meeting, t'); LeasesOk(w', k.meeting) && PlacesOk(w', k.meeting)
  {
    var w' := WithStranded(w, n, k.meeting, t');
    forall x | x in w'.leases && x.meeting == k.meeting ensures LeaseOk(w', x) {
      assert LeaseOk(w, x);
    }
    forall x | x in w'.pods && w'.pods[x].owner.meeting == k.meeting ensures Placed(w', x) {
      assert Placed(w, x);
    }
  }

  /** A counted release touches neither persona nor cache. */
  lemma CountingKeeps(voice: Voice, w: World, m: Id, n: Name, t': Thread)
    requires Inv(voice, w) && w.up && m in w.threads && SameSpot(w.threads[m], t')
    requires n in w.pods && w.pods[n].owner.meeting == m && Kept(w, n, w.pods[n].owner) && !Leads(w, w.pods[n].owner, n)
    requires n in Hands(w.threads[m].pc) && Hands(t'.pc) == Hands(w.threads[m].pc) - {n}
    requires WorkOk(t') && PcOk(voice, WithPod(w, n, Counted(w.pods[n]), m, t'), m, t')
    ensures Inv(voice, WithPod(w, n, Counted(w.pods[n]), m, t'))
  {
    InvParts(voice, w, m);
    CountedCacheOk(voice, w, n, m, t');
    PodReleased(w, n, m, t');
    PodStep(voice, w, n, Counted(w.pods[n]), m, t');
  }

  lemma InvParts(voice: Voice, w: World, m: Id)
    requires Inv(voice, w) && m in w.threads
    ensures LeasesOk(w, m) && PlacesOk(w, m) && CachesOk(voice, w, m)
  {
    assert MeetingOk(voice, w, m);
  }

  lemma CountedCacheOk(voice: Voice, w: World, n: Name, m: Id, t': Thread)
    requires CachesOk(voice, w, m) && n in w.pods && w.pods[n].owner.meeting == m
    requires m in w.threads && SameSpot(w.threads[m], t')
    ensures CacheOk(voice, WithPod(w, n, Counted(w.pods[n]), m, t'), n)
  {
    assert CacheOk(voice, w, n);
  }

  lemma FirstDeleted(voice: Voice, w: World, m: Id)
    requires Inv(voice, w) && Visiting(w, m) && w.threads[m].pc.Deleting? && w.threads[m].pc.attempt == 0
    ensures var t := w.threads[m];
            t.pc.sandbox in w.pods &&
            Inv(voice, WithPod(w, t.pc.sandbox, Counted(w.pods[t.pc.sandbox]), m, t.(pc := Leasing(1, t.pc.last))))
  {
    var t := w.threads[m];
    assert MeetingOk(voice, w, m);
    CountingKeeps(voice, w, m, t.pc.sandbox, t.(pc := Leasing(1, t.pc.last)));
  }

  lemma LastDeleted(voice: Voice, w: World, m: Id)
    requires Inv(voice, w) && Visiting(w, m) && w.threads[m].pc.Deleting?
    ensures var t := w.threads[m];
            t.pc.sandbox in w.pods &&
            Inv(voice, WithPod(w, t.pc.sandbox, Counted(w.pods[t.pc.sandbox]), m,
                               t.(pc := Returning(FailureUpdate(WhoIs(t), t.pc.last)))))
  {
    var t := w.threads[m];
    assert MeetingOk(voice, w, m);
    var t' := t.(pc := Returning(FailureUpdate(WhoIs(t), t.pc.last)));
    assert WhoIs(t') == WhoIs(t);
    FailureIsPossible(voice, WithPod(w, t.pc.sandbox, Counted(w.pods[t.pc.sandbox]), m, t'), m, t', t.pc.last);
    CountingKeeps(voice, w, m, t.pc.sandbox, t');
  }

  lemma DeleteTriedKeeps(voice: Voice, w: World, m: Id)
    requires Inv(voice, w) && CanAsk(w, m, DeleteTried)
    ensures Inv(voice, DoAsk(w, m, DeleteTried))
  {
    if w.threads[m].pc.attempt == 0 {
      FirstDeleted(voice, w, m);
    } else {
      LastDeleted(voice, w, m);
    }
  }

  // What sandboxes do

  /** Two leases never share a sandbox: it belongs to its owner's lease. */
  lemma LeaseOwns(voice: Voice, w: World, k: Key)
    requires Inv(voice, w) && k in w.leases
    ensures Kept(w, w.leases[k].sandbox, k)
    ensures w.leases[k].bound ==> PersonaIs(w.pods[w.leases[k].sandbox], k)
  {
    assert MeetingOk(voice, w, k.meeting);
    assert LeaseOk(w, k);
  }

  lemma LeasesOn(voice: Voice, w: World, n: Name)
    requires Inv(voice, w)
    ensures forall k :: k in w.leases && w.leases[k].sandbox == n ==> n in w.pods && w.pods[n].owner == k
  {
    forall k | k in w.leases && w.leases[k].sandbox == n {
      LeaseOwns(voice, w, k);
    }
  }

  lemma PodOk(voice: Voice, w: World, n: Name)
    requires Inv(voice, w) && n in w.pods
    ensures CacheOk(voice, w, n) && w.pods[n].owner.meeting in w.threads
  {
    InvParts(voice, w, w.pods[n].owner.meeting);
  }

  lemma PcFacts(voice: Voice, w: World, m: Id)
    requires Inv(voice, w) && m in w.threads
    ensures ThreadOk(voice, w, m)
  {
    assert MeetingOk(voice, w, m);
  }

  lemma ReboundCacheOk(voice: Voice, w: World, n: Name, k: Key, t': Thread)
    requires CacheOk(voice, w, n) && w.pods[n].owner == k && k.meeting in w.threads && SameSpot(w.threads[k.meeting], t')
    ensures CacheOk(voice, WithPod(w, n, Rebind(w.pods[n], k), k.meeting, t'), n)
  {
  }

  lemma ServeBindKeeps(voice: Voice, w: World, m: Id)
    requires Inv(voice, w) && CanServe(voice, w, m, ServeBind)
    ensures Inv(voice, DoServe(voice, w, m, ServeBind))
  {
    var t := w.threads[m];
    var k, n := KeyOf(m, t), t.pc.sandbox;
    var t' := t.(pc := BindServed(t.pc.attempt, t.pc.last, n));
    PcFacts(voice, w, m);
    LeaseOwns(voice, w, k);
    PodOk(voice, w, n);
    ReboundCacheOk(voice, w, n, k, t');
    InvParts(voice, w, m);
    LeasesOn(voice, w, n);
    PodKeepsPlaces(w, n, Rebind(w.pods[n], k), m, t');
    PodStep(voice, w, n, Rebind(w.pods[n], k), m, t');
  }

  /** A turn request only ever reaches the persona it is meant for. */
  lemma ReachedPersona(voice: Voice, w: World, m: Id)
    requires Inv(voice, w) && Reached(w, m)
    ensures BoundPersona(w, m) == KeyOf(m, w.threads[m])
    ensures w.pods[w.threads[m].pc.sandbox].owner == KeyOf(m, w.threads[m])
    ensures Leads(w, KeyOf(m, w.threads[m]), w.threads[m].pc.sandbox) && w.leases[KeyOf(m, w.threads[m])].bound
    ensures GoodId(m)
  {
    PcFacts(voice, w, m);
    LeaseOwns(voice, w, KeyOf(m, w.threads[m]));
  }

  /** What the cache returns for this turn was said by this persona to this request. */
  lemma CachedTurnAnswers(voice: Voice, w: World, m: Id)
    requires Inv(voice, w) && Reached(w, m) && CachedTurn(w, m).Some?
    ensures var a := CachedTurn(w, m).value;
            a.author == KeyOf(m, w.threads[m]) && a.turn == w.threads[m].graph.currentTurn
            && Answers(voice, m, w.threads[m], a.result)
  {
    var t, n, a := w.threads[m], w.threads[m].pc.sandbox, CachedTurn(w, m).value;
    ReachedPersona(voice, w, m);
    PodOk(voice, w, n);
    var e := (TurnKeyOf(m, t), a);
    assert e in w.pods[n].cache && CachedBy(e, w.pods[n].persona);
    TurnKeyInjective(m, t.graph.currentTurn, t.node.agent, a.author.meeting, a.turn, a.author.agent);
    assert Current(voice, w, a.author, a.turn, a.result);
  }

  function Answered(t: Thread, answer: Answer): Thread
    requires t.pc.Asking?
  {
    t.(pc := Answering(t.pc.attempt, t.pc.last, t.pc.sandbox, Spoke(answer)))
  }

  lemma ServedPlaces(voice: Voice, w: World, m: Id, p: Pod, t': Thread)
    requires Inv(voice, w) && Reached(w, m) && Hands(t'.pc) == {}
    requires var p0 := w.pods[w.threads[m].pc.sandbox];
             p.owner == p0.owner && p.persona == p0.persona && p.releases == p0.releases
    ensures var w' := WithPod(w, w.threads[m].pc.sandbox, p, m, t'); LeasesOk(w', m) && PlacesOk(w', m)
  {
    ReachedPersona(voice, w, m);
    InvParts(voice, w, m);
    LeasesOn(voice, w, w.threads[m].pc.sandbox);
    PodKeepsPlaces(w, w.threads[m].pc.sandbox, p, m, t');
  }

  lemma AnsweredPcOk(voice: Voice, w: World, m: Id, p: Pod, answer: Answer)
    requires Reached(w, m) && WorkOk(w.threads[m])
    requires Leads(w, KeyOf(m, w.threads[m]), w.threads[m].pc.sandbox) && w.leases[KeyOf(m, w.threads[m])].bound
    requires answer.author == KeyOf(m, w.threads[m]) && Answers(voice, m, w.threads[m], answer.result)
    ensures WorkOk(Answered(w.threads[m], answer))
    ensures var t' := Answered(w.threads[m], answer); PcOk(voice, WithPod(w, w.threads[m].pc.sandbox, p, m, t'), m, t')
  {
  }

  lemma ServedStep(voice: Voice, w: World, m: Id, p: Pod, answer: Answer)
    requires Inv(voice, w) && Reached(w, m)
    requires var p0 := w.pods[w.threads[m].pc.sandbox];
             p.owner == p0.owner && p.persona == p0.persona && p.releases == p0.releases
    requires var t := w.threads[m]; CacheOk(voice, WithPod(w, t.pc.sandbox, p, m, Answered(t, answer)), t.pc.sandbox)
    requires answer.author == KeyOf(m, w.threads[m]) && Answers(voice, m, w.threads[m], answer.result)
    ensures var t := w.threads[m]; Inv(voice, WithPod(w, t.pc.sandbox, p, m, Answered(t, answer)))
  {
    var t := w.threads[m];
    PcFacts(voice, w, m);
    ReachedPersona(voice, w, m);
    AnsweredPcOk(voice, w, m, p, answer);
    ServedPlaces(voice, w, m, p, Answered(t, answer));
    PodStep(voice, w, t.pc.sandbox, p, m, Answered(t, answer));
  }

  lemma TouchedCacheOk(voice: Voice, w: World, n: Name, key: string, m: Id, t': Thread)
    requires CacheOk(voice, w, n) && w.pods[n].owner.meeting == m && m in w.threads && SameSpot(w.threads[m], t')
    ensures CacheOk(voice, WithPod(w, n, w.pods[n].(cache := Cache.MoveToEnd(w.pods[n].cache, key)), m, t'), n)
  {
    Cache.MoveToEndKeeps(w.pods[n].cache, key);
  }

  lemma ServeReplayKeeps(voice: Voice, w: World, m: Id)
    requires Inv(voice, w) && CanServe(voice, w, m, ServeReplay)
    ensures Inv(voice, DoServe(voice, w, m, ServeReplay))
  {
    var t := w.threads[m];
    var n, answer := t.pc.sandbox, CachedTurn(w, m).value;
    var p := w.pods[n].(cache := Cache.MoveToEnd(w.pods[n].cache, TurnKeyOf(m, t)));
    ReachedPersona(voice, w, m);
    CachedTurnAnswers(voice, w, m);
    PodOk(voice, w, n);
    TouchedCacheOk(voice, w, n, TurnKeyOf(m, t), m, Answered(t, answer));
    ServedStep(voice, w, m, p, answer);
  }

  lemma RememberedCacheOk(voice: Voice, w: World, n: Name, answer: Answer, m: Id, t': Thread)
    requires CacheOk(voice, w, n) && m in w.threads && SameSpot(w.threads[m], t') && w.pods[n].owner.meeting == m
    requires answer.author == w.pods[n].owner && w.pods[n].persona == Some(answer.author) && ':' !in m
    requires Current(voice, w, answer.author, answer.turn, answer.result)
    ensures CacheOk(voice, WithPod(w, n, Remember(w.pods[n], TurnKey(m, answer.turn, answer.author.agent), answer), m, t'), n)
  {
    Cache.AfterPutBounded(w.pods[n].cache, TurnKey(m, answer.turn, answer.author.agent), answer, Cache.MAX_ENTRIES);
  }

  lemma ServeResultKeeps(voice: Voice, w: World, m: Id, r: TurnResult)
    requires Inv(voice, w) && CanServe(voice, w, m, ServeResult(r))
    ensures Inv(voice, DoServe(voice, w, m, ServeResult(r)))
  {
    var t := w.threads[m];
    var n, answer := t.pc.sandbox, Answer(r, BoundPersona(w, m), t.graph.currentTurn);
    ReachedPersona(voice, w, m);
    PodOk(voice, w, n);
    assert Answers(voice, m, t, r);
    assert Current(voice, w, answer.author, answer.turn, answer.result);
    RememberedCacheOk(voice, w, n, answer, m, Answered(t, answer));
    ServedStep(voice, w, m, Remember(w.pods[n], TurnKeyOf(m, t), answer), answer);
  }

  lemma ServeErrorKeeps(voice: Voice, w: World, m: Id, message: string)
    requires Inv(voice, w) && CanServe(voice, w, m, ServeError(message))
    ensures Inv(voice, DoServe(voice, w, m, ServeError(message)))
  {
    var t := w.threads[m];
    PcFacts(voice, w, m);
    PcStep(voice, w, m, t.(pc := Answering(t.pc.attempt, t.pc.last, t.pc.sandbox, Refused(message))));
  }

  lemma ServeKeeps(voice: Voice, w: World, m: Id, step: ServeStep)
    requires Inv(voice, w) && CanServe(voice, w, m, step)
    ensures Inv(voice, DoServe(voice, w, m, step))
  {
    match step
    case ServeBind => ServeBindKeeps(voice, w, m);
    case ServeReplay => ServeReplayKeeps(voice, w, m);
    case ServeResult(r) => ServeResultKeeps(voice, w, m, r);
    case ServeError(message) => ServeErrorKeeps(voice, w, m, message);
  }

  // Recording, and moving the checkpoint

  function WithRow(w: World, key: string, row: Stored, m: Id, t': Thread): World {
    Set(w.(rows := w.rows[key := row]), m, t')
  }

  lemma RowAddedIsLocal(w: World, m: Id, turn: nat, a: Id, row: Stored, t': Thread)
    requires m in w.threads && GoodId(m) && TurnKey(m, turn, a) !in w.rows
    requires w.orphans <= w.pods.Keys && w.stranded <= w.pods.Keys
    ensures Local(w, WithRow(w, TurnKey(m, turn, a), row, m, t'), m)
  {
    var w' := WithRow(w, TurnKey(m, turn, a), row, m, t');
    forall x, turn', a' | GoodId(x) && x != m && TurnKey(x, turn', a') in w'.rows ensures TurnKey(x, turn', a') in w.rows {
      if TurnKey(x, turn', a') == TurnKey(m, turn, a) {
        TurnKeyInjective(x, turn', a', m, turn, a);
      }
    }
  }

  lemma RowAddedOk(voice: Voice, w: World, m: Id, row: Stored, t': Thread, n: Name, r: TurnResult)
    requires RowsOk(voice, w, m) && GoodId(m) && SameSpot(w.threads[m], t')
    requires StoredTurn(voice, w, m, w.threads[m], row, n, r)
    ensures RowsOk(voice, WithRow(w, TurnKeyOf(m, w.threads[m]), row, m, t'), m)
  {
    var t := w.threads[m];
    var key := TurnKeyOf(m, t);
    var w' := WithRow(w, key, row, m, t');
    forall turn: nat, a: Id | TurnKey(m, turn, a) in w'.rows ensures RowOk(voice, w', m, t', turn, a) {
      if TurnKey(m, turn, a) == key {
        TurnKeyInjective(m, turn, a, m, t.graph.currentTurn, t.node.agent);
        assert StoredTurn(voice, w', m, t', row, n, r);
      } else {
        assert RowOk(voice, w, m, t, turn, a);
      }
    }
  }

  lemma RecordingFacts(voice: Voice, w: World, m: Id)
    requires Inv(voice, w) && m in w.threads && w.threads[m].pc.Recording?
    ensures var t := w.threads[m];
            InNode(t) && GoodId(m) && WorkOk(t) && Answers(voice, m, t, t.pc.answer.result)
            && Leads(w, KeyOf(m, t), t.pc.sandbox)
  {
    PcFacts(voice, w, m);
  }

  lemma RecordingSpoken(voice: Voice, w: World, m: Id)
    requires Inv(voice, w) && m in w.threads && w.threads[m].pc.Recording?
    ensures var t := w.threads[m];
            InNode(t) && GoodId(m) && WorkOk(t) && Leads(w, KeyOf(m, t), t.pc.sandbox) &&
            Spoken(voice, w, m, t, SuccessUpdate(t.node.agent, t.pc.sandbox, t.pc.answer.result), t.pc.sandbox, t.pc.answer.result)
  {
    RecordingFacts(voice, w, m);
    LeaseOwns(voice, w, KeyOf(m, w.threads[m]));
  }

  lemma SpokenIsPossible(voice: Voice, w: World, m: Id, t: Thread, u: Update, n: Name, r: TurnResult)
    requires Spoken(voice, w, m, t, u, n, r)
    ensures Possible(voice, w, m, t, u)
  {
  }

  /** On the way out with an update. */
  function Heading(t: Thread, u: Update): Thread
    requires t.pc.Recording?
  {
    t.(pc := Leaving(t.pc.attempt, t.pc.last, t.pc.sandbox, u))
  }

  lemma RecordedKeeps(voice: Voice, w: World, m: Id)
    requires Inv(voice, w) && w.up && m in w.threads && w.threads[m].pc.Recording? && InNode(w.threads[m])
    requires TurnKeyOf(m, w.threads[m]) !in w.rows
    ensures var t := w.threads[m];
            var u := SuccessUpdate(t.node.agent, t.pc.sandbox, t.pc.answer.result);
            Inv(voice, WithRow(w, TurnKeyOf(m, t), Serialise(u), m, Heading(t, u)))
  {
    var t := w.threads[m];
    var n, r := t.pc.sandbox, t.pc.answer.result;
    var u := SuccessUpdate(t.node.agent, n, r);
    var t' := Heading(t, u);
    var w' := WithRow(w, TurnKeyOf(m, t), Serialise(u), m, t');
    RecordingSpoken(voice, w, m);
    assert MeetingOk(voice, w, m);
    assert StoredTurn(voice, w, m, t, Serialise(u), n, r);
    RowAddedOk(voice, w, m, Serialise(u), t', n, r);
    SpokenKept(voice, w, w', m, u, n, r);
    RowAddedIsLocal(w, m, t.graph.currentTurn, t.node.agent, Serialise(u), t');
    RowStep(voice, w, TurnKeyOf(m, t), Serialise(u), m, t');
  }

  lemma RowStep(voice: Voice, w: World, key: string, row: Stored, m: Id, t': Thread)
    requires Inv(voice, w) && w.up && m in w.threads && SameSpot(w.threads[m], t') && Hands(w.threads[m].pc) == {}
    requires var w' := WithRow(w, key, row, m, t');
             Local(w, w', m) && WorkOk(t') && PcOk(voice, w', m, t') && RowsOk(voice, w', m)
    ensures Inv(voice, WithRow(w, key, row, m, t'))
  {
    var w' := WithRow(w, key, row, m, t');
    assert MeetingOk(voice, w, m);
    LeasesKept(w, w', m);
    CachesKept(voice, w, w', m);
    PlacesKept(w, w', m);
    LocalStepKeeps(voice, w, w', m);
  }

  lemma RecordKeeps(voice: Voice, w: World, m: Id, ok: bool)
    requires Inv(voice, w) && CanAsk(w, m, Record(ok))
    ensures Inv(voice, DoAsk(w, m, Record(ok)))
  {
    var t := w.threads[m];
    if ok && TurnKeyOf(m, t) !in w.rows {
      RecordedKeeps(voice, w, m);
    } else {
      var n, r := t.pc.sandbox, t.pc.answer.result;
      var u := SuccessUpdate(t.node.agent, n, r);
      var t' := Heading(t, u);
      RecordingSpoken(voice, w, m);
      SpokenKept(voice, w, Set(w, m, t'), m, u, n, r);
      PcStep(voice, w, m, t');
    }
  }

  lemma LeaveKeeps(voice: Voice, w: World, m: Id)
    requires Inv(voice, w) && CanAsk(w, m, Leave)
    ensures Inv(voice, DoAsk(w, m, Leave))
  {
    var t := w.threads[m];
    var t' := t.(pc := Returning(t.pc.update));
    PcFacts(voice, w, m);
    var r :| Spoken(voice, w, m, t, t.pc.update, t.pc.sandbox, r);
    SpokenKept(voice, w, Set(w, m, t'), m, t.pc.update, t.pc.sandbox, r);
    SpokenIsPossible(voice, Set(w, m, t'), m, t', t.pc.update, t.pc.sandbox, r);
    PcStep(voice, w, m, t');
  }

  lemma ExitedKeeps(voice: Voice, w: World, m: Id)
    requires Inv(voice, w) && w.up && m in w.threads && w.threads[m].pc.Leaving?
    ensures Inv(voice, Set(w, m, Exited(w.threads[m])))
  {
    var t := w.threads[m];
    var t' := Exited(t);
    PcFacts(voice, w, m);
    var r :| Spoken(voice, w, m, t, t.pc.update, t.pc.sandbox, r);
    SpokenKept(voice, w, Set(w, m, t'), m, t.pc.update, t.pc.sandbox, r);
    PcStep(voice, w, m, t');
  }

  lemma LeaveRaisesKeeps(voice: Voice, w: World, m: Id, error: string)
    requires Inv(voice, w) && CanAsk(w, m, LeaveRaises(error))
    ensures Inv(voice, DoAsk(w, m, LeaveRaises(error)))
  {
    ExitedKeeps(voice, w, m);
    ForgettingKeeps(voice, Set(w, m, Exited(w.threads[m])), m, error);
  }

  /** The checkpoint may move on when no turn is pending afterwards, or a later one is. */
  predicate MovesOn(t: Thread, t': Thread) {
    && t'.roster == t.roster && t'.graph.meetingId == t.graph.meetingId
    && t'.graph.nextSpeakerReason == t.graph.nextSpeakerReason
    && t.graph.currentTurn <= t'.graph.currentTurn
    && (t'.node.Speaker? ==> t.graph.currentTurn < t'.graph.currentTurn)
    && Hands(t.pc) == {}
  }

  lemma CheckpointStep(voice: Voice, w: World, m: Id, t': Thread)
    requires Inv(voice, w) && w.up && m in w.threads && MovesOn(w.threads[m], t')
    requires WorkOk(t') && PcOk(voice, Set(w, m, t'), m, t')
    ensures Inv(voice, Set(w, m, t'))
  {
    var w' := Set(w, m, t');
    assert MeetingOk(voice, w, m);
    LeasesKept(w, w', m);
    PlacesKept(w, w', m);
    HistoryKept(voice, w, m, t');
    SetIsLocal(w, m, t');
    LocalStepKeeps(voice, w, w', m);
  }

  lemma HistoryKept(voice: Voice, w: World, m: Id, t': Thread)
    requires m in w.threads && MovesOn(w.threads[m], t') && RowsOk(voice, w, m) && CachesOk(voice, w, m)
    ensures RowsOk(voice, Set(w, m, t'), m) && CachesOk(voice, Set(w, m, t'), m)
  {
    var w' := Set(w, m, t');
    forall turn: nat, a: Id | TurnKey(m, turn, a) in w'.rows ensures RowOk(voice, w', m, t', turn, a) {
      assert RowOk(voice, w, m, w.threads[m], turn, a);
    }
    forall n | n in w'.pods && w'.pods[n].owner.meeting == m ensures CacheOk(voice, w', n) {
      assert CacheOk(voice, w, n);
    }
  }

  /** An update an attendee's node hands back leaves the turn counter and the routing alone. */
  lemma PossibleMovesOn(voice: Voice, w: World, m: Id, t: Thread, u: Update)
    requires Possible(voice, w, m, t, u)
    ensures Apply(t.graph, u) == t.graph.(messages := Apply(t.graph, u).messages, eventLog := Apply(t.graph, u).eventLog,
                                          toolAudit := Apply(t.graph, u).toolAudit, sandboxes := Apply(t.graph, u).sandboxes,
                                          activeAgent := Some(t.node.agent))
  {
  }

  lemma ReturnKeeps(voice: Voice, w: World, m: Id)
    requires Inv(voice, w) && CanAsk(w, m, Return)
    ensures Inv(voice, DoAsk(w, m, Return))
  {
    var t := w.threads[m];
    PcFacts(voice, w, m);
    PossibleMovesOn(voice, w, m, t, t.pc.update);
    CheckpointStep(voice, w, m, EnterNode(t.(graph := Apply(t.graph, t.pc.update), node := Chair)));
  }

  lemma AskKeeps(voice: Voice, w: World, m: Id, step: AskStep)
    requires Inv(voice, w) && CanAsk(w, m, step)
    ensures Inv(voice, DoAsk(w, m, step))
  {
    match step
    case SendRequest => SendRequestKeeps(voice, w, m);
    case BindReplied => BindRepliedKeeps(voice, w, m);
    case Deliver => DeliverKeeps(voice, w, m);
    case CloseStream => CloseStreamKeeps(voice, w, m);
    case Raise(error) => RaiseKeeps(voice, w, m, error);
    case DeleteTried => DeleteTriedKeeps(voice, w, m);
    case Record(ok) => RecordKeeps(voice, w, m, ok);
    case Leave => LeaveKeeps(voice, w, m);
    case LeaveRaises(error) => LeaveRaisesKeeps(voice, w, m, error);
    case Return => ReturnKeeps(voice, w, m);
  }

  lemma ClaimKeeps(voice: Voice, w: World, m: Id, step: ClaimStep)
    requires Inv(voice, w) && CanClaim(w, m, step)
    ensures Inv(voice, DoClaim(w, m, step))
  {
    match step
    case LookupHit => LookupHitKeeps(voice, w, m);
    case LookupMiss => ClaimMoveKeeps(voice, w, m, step);
    case LookupFails => ClaimMoveKeeps(voice, w, m, step);
    case Reuse => ClaimMoveKeeps(voice, w, m, step);
    case BeginCreate => ClaimMoveKeeps(voice, w, m, step);
    case CreateFails(error) => CreateFailsKeeps(voice, w, m, error);
    case Created(n, persona, cache) => CreatedKeeps(voice, w, m, n, persona, cache);
    case ReadBackFails(error) => ReadBackFailsKeeps(voice, w, m, error);
    case ReadBackOk => ReadBackOkKeeps(voice, w, m);
  }

  // The chair and the executor

  lemma StartKeeps(voice: Voice, w: World, m: Id, roster: seq<Attendee>, g: Graph)
    requires Inv(voice, w) && CanConduct(w, m, Start(roster, g))
    ensures Inv(voice, DoConduct(w, m, Start(roster, g)))
  {
    var w' := DoConduct(w, m, Start(roster, g));
    forall turn, a | TurnKey(m, turn, a) in w'.rows ensures false {
    }
    assert MeetingOk(voice, w', m);
    LocalStepKeeps(voice, w, w', m);
  }

  lemma ChairDecidesKeeps(voice: Voice, w: World, m: Id, replies: Replies)
    requires Inv(voice, w) && CanConduct(w, m, ChairDecides(replies))
    ensures Inv(voice, DoConduct(w, m, ChairDecides(replies)))
  {
    var t := w.threads[m];
    PcFacts(voice, w, m);
    RoutedMovesOn(t, replies);
    CheckpointStep(voice, w, m, Routed(t, replies));
  }

  /** The chair hands over to an attendee only together with a new turn. */
  lemma RoutedMovesOn(t: Thread, replies: Replies)
    requires t.pc.AtChair? && GoodRoster(t.roster)
    ensures var t' := Routed(t, replies);
            && MovesOn(t, t') && t'.live == t.live && t'.work == NoWork
            && ((t'.node == End && t'.pc == Closing) || (InNode(t') && t'.pc == Entered))
            && (t'.node.Speaker? ==> t'.graph.currentTurn == t.graph.currentTurn + 1)
  {
    ChairChoosesValidly(t.graph, t.roster, replies);
    ChairIsSilent(t.graph, t.roster, replies);
  }

  lemma ChairRaisesKeeps(voice: Voice, w: World, m: Id)
    requires Inv(voice, w) && CanConduct(w, m, ChairRaises)
    ensures Inv(voice, DoConduct(w, m, ChairRaises))
  {
    PcFacts(voice, w, m);
    PcStep(voice, w, m, w.threads[m].(pc := Closing));
  }

  function Handover(w: World, m: Id): Thread
    requires m in w.threads
  {
    w.threads[m].(pc := Releasing(MeetingSandboxes(w, m)), live := false)
  }

  function HandedOver(w: World, m: Id): World
    requires m in w.threads
  {
    WithLeases(w, DropLeases(w, m).leases, m, Handover(w, m))
  }

  /** Every lease of the meeting is forgotten at once, and its claims are in hand. */
  lemma HandedOverInHand(voice: Voice, w: World, m: Id)
    requires Inv(voice, w) && m in w.threads
    ensures var w' := HandedOver(w, m);
            forall n :: n in MeetingSandboxes(w, m) ==> n in w'.pods && w'.pods[n].owner.meeting == m
                                                        && Kept(w', n, w'.pods[n].owner)
  {
    forall n | n in MeetingSandboxes(w, m)
      ensures n in w.pods && w.pods[n].owner.meeting == m && Kept(w, n, w.pods[n].owner)
    {
      var k :| k in w.leases && k.meeting == m && w.leases[k].sandbox == n;
      LeaseOwns(voice, w, k);
    }
  }

  lemma HandedOverPlaces(w: World, m: Id)
    requires m in w.threads && Hands(w.threads[m].pc) == {} && PlacesOk(w, m)
    ensures LeasesOk(HandedOver(w, m), m) && PlacesOk(HandedOver(w, m), m) && NoLeases(HandedOver(w, m), m)
  {
    var w' := HandedOver(w, m);
    forall x | x in w'.pods && w'.pods[x].owner.meeting == m ensures Placed(w', x) {
      assert Placed(w, x);
      if Leads(w, w.pods[x].owner, x) {
        assert x in MeetingSandboxes(w, m);
      }
    }
  }

  lemma HandedOverKeeps(voice: Voice, w: World, m: Id)
    requires Inv(voice, w) && w.up && m in w.threads && w.threads[m].pc.Closing?
    ensures Inv(voice, HandedOver(w, m))
  {
    PcFacts(voice, w, m);
    InvParts(voice, w, m);
    HandedOverInHand(voice, w, m);
    HandedOverPlaces(w, m);
    LeaseStep(voice, w, DropLeases(w, m).leases, m, Handover(w, m));
  }

  lemma PersistKeeps(voice: Voice, w: World, m: Id, ok: bool)
    requires Inv(voice, w) && CanConduct(w, m, Persist(ok))
    ensures Inv(voice, DoConduct(w, m, Persist(ok)))
  {
    if ok {
      HandedOverKeeps(voice, w, m);
    } else {
      PcFacts(voice, w, m);
      PcStep(voice, w, m, w.threads[m].(pc := Handling));
    }
  }

  lemma HandledKeeps(voice: Voice, w: World, m: Id, stored: bool)
    requires Inv(voice, w) && CanConduct(w, m, Handled(stored))
    ensures Inv(voice, DoConduct(w, m, Handled(stored)))
  {
    PcFacts(voice, w, m);
    PcStep(voice, w, m, GivenUpOn(w.threads[m], stored));
  }

  lemma ReleasingOk(voice: Voice, w: World, m: Id, n: Name)
    requires ThreadOk(voice, w, m) && CanConduct(w, m, ReleaseOne(n))
    ensures var t := w.threads[m];
            var t' := t.(pc := Releasing(t.pc.todo - {n}));
            WorkOk(t') && PcOk(voice, WithPod(w, n, Counted(w.pods[n]), m, t'), m, t')
  {
  }

  lemma ReleaseOneKeeps(voice: Voice, w: World, m: Id, n: Name)
    requires Inv(voice, w) && CanConduct(w, m, ReleaseOne(n))
    ensures Inv(voice, DoConduct(w, m, ReleaseOne(n)))
  {
    var t := w.threads[m];
    PcFacts(voice, w, m);
    InHandWasKept(voice, w, m, n);
    ReleasingOk(voice, w, m, n);
    CountingKeeps(voice, w, m, n, t.(pc := Releasing(t.pc.todo - {n})));
  }

  lemma ReleasedKeeps(voice: Voice, w: World, m: Id)
    requires Inv(voice, w) && CanConduct(w, m, Released)
    ensures Inv(voice, DoConduct(w, m, Released))
  {
    PcFacts(voice, w, m);
    PcStep(voice, w, m, w.threads[m].(pc := Done));
  }

  lemma ResumeKeeps(voice: Voice, w: World, m: Id)
    requires Inv(voice, w) && CanConduct(w, m, Resume)
    ensures Inv(voice, DoConduct(w, m, Resume))
  {
    PcFacts(voice, w, m);
    PcStep(voice, w, m, EnterNode(w.threads[m]));
  }

  lemma ConductKeeps(voice: Voice, w: World, m: Id, step: ConductStep)
    requires Inv(voice, w) && CanConduct(w, m, step)
    ensures Inv(voice, DoConduct(w, m, step))
  {
    match step
    case Start(roster, g) => StartKeeps(voice, w, m, roster, g);
    case ChairDecides(replies) => ChairDecidesKeeps(voice, w, m, replies);
    case ChairRaises => ChairRaisesKeeps(voice, w, m);
    case Persist(ok) => PersistKeeps(voice, w, m, ok);
    case Handled(stored) => HandledKeeps(voice, w, m, stored);
    case ReleaseOne(n) => ReleaseOneKeeps(voice, w, m, n);
    case Released => ReleasedKeeps(voice, w, m);
    case Resume => ResumeKeeps(voice, w, m);
  }

  // Faults

  lemma PodLostKeeps(voice: Voice, w: World, n: Name)
    requires Inv(voice, w) && CanHappen(w, PodLost(n))
    ensures Inv(voice, DoHappen(w, PodLost(n)))
  {
    PodChanged(voice, w, n, w.pods[n].(alive := false));
  }

  lemma PodRestartedKeeps(voice: Voice, w: World, n: Name)
    requires Inv(voice, w) && CanHappen(w, PodRestarted(n))
    ensures Inv(voice, DoHappen(w, PodRestarted(n)))
  {
    PodChanged(voice, w, n, w.pods[n].(persona := None, cache := []));
  }

  /** A sandbox may lose its life or its memory, but not its owner. */
  predicate Degrades(p: Pod, p': Pod) {
    p'.owner == p.owner && p'.releases == p.releases
    && ((p'.persona == p.persona && p'.cache == p.cache) || (p'.persona == None && p'.cache == []))
  }

  lemma PodChanged(voice: Voice, w: World, n: Name, p: Pod)
    requires Inv(voice, w) && n in w.pods && Degrades(w.pods[n], p)
    ensures Inv(voice, w.(pods := w.pods[n := p]))
  {
    PodOk(voice, w, n);
    var m := w.pods[n].owner.meeting;
    var t := w.threads[m];
    var w' := WithPod(w, n, p, m, t);
    assert w.threads[m := t] == w.threads;
    assert w' == w.(pods := w.pods[n := p]);
    InvParts(voice, w, m);
    LeasesOn(voice, w, n);
    DegradedLeases(voice, w, n, p);
    PodKeepsPlaces(w, n, p, m, t);
    DegradedCacheOk(voice, w, n, p);
    PcFacts(voice, w, m);
    DegradedPcOk(voice, w, n, p);
    PodStep(voice, w, n, p, m, t);
  }

  lemma DegradedLeases(voice: Voice, w: World, n: Name, p: Pod)
    requires Inv(voice, w) && n in w.pods && Degrades(w.pods[n], p)
    ensures forall k :: k in w.leases && w.leases[k].sandbox == n && w.leases[k].bound ==> PersonaIs(p, k)
  {
    forall k | k in w.leases && w.leases[k].sandbox == n && w.leases[k].bound ensures PersonaIs(p, k) {
      LeaseOwns(voice, w, k);
    }
  }

  lemma DegradedCacheOk(voice: Voice, w: World, n: Name, p: Pod)
    requires CacheOk(voice, w, n) && Degrades(w.pods[n], p) && w.pods[n].owner.meeting in w.threads
    ensures var m := w.pods[n].owner.meeting; CacheOk(voice, WithPod(w, n, p, m, w.threads[m]), n)
  {
  }

  lemma DegradedPcOk(voice: Voice, w: World, n: Name, p: Pod)
    requires n in w.pods && Degrades(w.pods[n], p) && ThreadOk(voice, w, w.pods[n].owner.meeting)
    ensures var m := w.pods[n].owner.meeting;
            WorkOk(w.threads[m]) && PcOk(voice, WithPod(w, n, p, m, w.threads[m]), m, w.threads[m])
  {
    var m := w.pods[n].owner.meeting;
    var t := w.threads[m];
    var w' := WithPod(w, n, p, m, t);
    if t.pc.Returning? || t.pc.Leaving? {
      forall x, r | Spoken(voice, w, m, t, t.pc.update, x, r) ensures Spoken(voice, w', m, t, t.pc.update, x, r) {
        SpokenKept(voice, w, w', m, t.pc.update, x, r);
      }
    }
  }

  lemma CrashedThread(voice: Voice, w: World, m: Id)
    requires ThreadOk(voice, w, m)
    ensures ThreadOk(voice, Crashed(w), m)
    ensures Ended(Crashed(w).threads[m].pc) || Crashed(w).threads[m].pc.Halted?
  {
  }

  lemma CrashedHistory(voice: Voice, w: World, m: Id)
    requires MeetingOk(voice, w, m)
    ensures RowsOk(voice, Crashed(w), m) && CachesOk(voice, Crashed(w), m)
  {
    RowsKept(voice, w, Crashed(w), m);
    CachesKept(voice, w, Crashed(w), m);
  }

  lemma CrashedMeeting(voice: Voice, w: World, m: Id)
    requires Inv(voice, w) && w.up && m in w.threads
    ensures MeetingOk(voice, Crashed(w), m)
    ensures Ended(Crashed(w).threads[m].pc) || Crashed(w).threads[m].pc.Halted?
  {
    PcFacts(voice, w, m);
    CrashedThread(voice, w, m);
    CrashedHistory(voice, w, m);
    CrashPlaces(voice, w, m);
  }

  /** After a crash every claim somebody was keeping is an orphan, and nothing else changed
      about the past. */
  lemma CrashKeeps(voice: Voice, w: World)
    requires Inv(voice, w) && w.up
    ensures Inv(voice, Crashed(w))
  {
    forall m | m in w.threads
      ensures MeetingOk(voice, Crashed(w), m)
      ensures Ended(Crashed(w).threads[m].pc) || Crashed(w).threads[m].pc.Halted?
    {
      CrashedMeeting(voice, w, m);
    }
  }

  lemma CrashPlaces(voice: Voice, w: World, m: Id)
    requires Inv(voice, w) && w.up && m in w.threads
    ensures PlacesOk(Crashed(w), m)
  {
    var w' := Crashed(w);
    forall n | n in w'.pods && w'.pods[n].owner.meeting == m ensures Placed(w', n) {
      InvParts(voice, w, m);
      assert Placed(w, n);
      if n in Lost(w) {
        LostWasKept(voice, w, n);
      }
    }
  }

  lemma LostWasKept(voice: Voice, w: World, n: Name)
    requires Inv(voice, w) && n in Lost(w)
    ensures Kept(w, n, w.pods[n].owner)
  {
    if k :| k in w.leases && w.leases[k].sandbox == n {
      LeaseOwns(voice, w, k);
    } else {
      var m :| m in w.threads && n in Hands(w.threads[m].pc);
      InHandWasKept(voice, w, m, n);
    }
  }

  lemma InHandWasKept(voice: Voice, w: World, m: Id, n: Name)
    requires Inv(voice, w) && m in w.threads && n in Hands(w.threads[m].pc)
    ensures n in w.pods && Kept(w, n, w.pods[n].owner) && w.pods[n].owner.meeting == m && !Leads(w, w.pods[n].owner, n)
  {
    PcFacts(voice, w, m);
    HandsOk(voice, w, m, n);
  }

  lemma HandsOk(voice: Voice, w: World, m: Id, n: Name)
    requires ThreadOk(voice, w, m) && n in Hands(w.threads[m].pc)
    ensures n in w.pods && Kept(w, n, w.pods[n].owner) && w.pods[n].owner.meeting == m && !Leads(w, w.pods[n].owner, n)
  {
  }

  lemma StartedHistory(voice: Voice, w: World, reaped: bool, listing: set<Name>, m: Id)
    requires m in w.threads && RowsOk(voice, w, m) && CachesOk(voice, w, m)
    ensures RowsOk(voice, Started(w, reaped, listing), m) && CachesOk(voice, Started(w, reaped, listing), m)
  {
    RowsKept(voice, w, Started(w, reaped, listing), m);
    CachesKept(voice, w, Started(w, reaped, listing), m);
  }

  lemma StartedPlaces(w: World, reaped: bool, listing: set<Name>, m: Id)
    requires m in w.threads && PlacesOk(w, m) && w.leases == map[]
    ensures PlacesOk(Started(w, reaped, listing), m) && LeasesOk(Started(w, reaped, listing), m)
  {
    PlacesKept(w, Started(w, reaped, listing), m);
  }

  lemma StartedMeeting(voice: Voice, w: World, reaped: bool, listing: set<Name>, m: Id)
    requires MeetingOk(voice, w, m) && w.leases == map[]
    requires Ended(w.threads[m].pc) || w.threads[m].pc.Halted?
    ensures MeetingOk(voice, Started(w, reaped, listing), m)
  {
    StartedThread(voice, w, reaped, listing, m);
    StartedHistory(voice, w, reaped, listing, m);
    StartedPlaces(w, reaped, listing, m);
  }

  lemma StartedThread(voice: Voice, w: World, reaped: bool, listing: set<Name>, m: Id)
    requires ThreadOk(voice, w, m) && (Ended(w.threads[m].pc) || w.threads[m].pc.Halted?)
    ensures ThreadOk(voice, Started(w, reaped, listing), m)
  {
  }

  lemma StartedFrame(w: World, reaped: bool, listing: set<Name>)
    ensures var w' := Started(w, reaped, listing);
            && w'.up && w'.leases == w.leases && w'.orphans == w.orphans && w'.stranded == w.stranded
            && w'.threads.Keys == w.threads.Keys && w'.pods.Keys == w.pods.Keys
            && forall n :: n in w.pods ==> w'.pods[n].owner == w.pods[n].owner
  {
  }

  lemma StartedMeetings(voice: Voice, w: World, reaped: bool, listing: set<Name>)
    requires Inv(voice, w) && !w.up
    ensures forall m :: m in w.threads ==> MeetingOk(voice, Started(w, reaped, listing), m)
  {
    forall m | m in w.threads ensures MeetingOk(voice, Started(w, reaped, listing), m) {
      StartedMeeting(voice, w, reaped, listing, m);
    }
  }

  lemma StartupKeeps(voice: Voice, w: World, reaped: bool, listing: set<Name>)
    requires Inv(voice, w) && CanHappen(w, Startup(reaped, listing))
    ensures Inv(voice, Started(w, reaped, listing))
  {
    StartedFrame(w, reaped, listing);
    StartedMeetings(voice, w, reaped, listing);
  }

  lemma HappenKeeps(voice: Voice, w: World, e: Fault)
    requires Inv(voice, w) && CanHappen(w, e)
    ensures Inv(voice, DoHappen(w, e))
  {
    match e
    case PodLost(n) => PodLostKeeps(voice, w, n);
    case PodRestarted(n) => PodRestartedKeeps(voice, w, n);
    case Crash => CrashKeeps(voice, w);
    case Startup(reaped, listing) => StartupKeeps(voice, w, reaped, listing);
  }

  // Every step, every run

  lemma StepKeeps(voice: Voice, w: World, act: Action)
    requires Inv(voice, w) && Can(voice, w, act)
    ensures Inv(voice, Do(voice, w, act))
  {
    match act
    case Claim(m, step) => ClaimKeeps(voice, w, m, step);
    case Ask(m, step) => AskKeeps(voice, w, m, step);
    case Serve(m, step) => ServeKeeps(voice, w, m, step);
    case Conduct(m, step) => ConductKeeps(voice, w, m, step);
    case Happens(e) => HappenKeeps(voice, w, e);
  }

  /** The invariant holds throughout every run, whatever crashes, fails or is replayed. */
  lemma {:induction false} RunKeeps(voice: Voice, w: World, acts: seq<Action>, w': World)
    requires Inv(voice, w) && Runs(voice, w, acts, w')
    ensures Inv(voice, w')
    decreases |acts|
  {
    if acts != [] {
      StepKeeps(voice, w, acts[0]);
      RunKeeps(voice, Do(voice, w, acts[0]), acts[1..], w');
    }
  }
}
