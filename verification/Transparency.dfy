/** Crash transparency: whatever crashes, restarts and failures a run contains, every
    meeting's checkpoint at its end is one that a calm run reaches too. The proof follows
    the run with a calm one that only moves when a checkpoint does. */
module Transparency {
  import opened Wrappers
  import opened State
  import opened Supervisor
  import opened Meeting
  import opened Machine
  import opened Invariant
  import opened Preservation
  import opened Paths
  import Cache = TurnCache

  // Sandboxes that a pending turn may still name

  predicate Mentions(u: Update, a: Id, n: Name) {
    u.sandboxes == Some(map[a := n])
  }

  /** The persona's turn is recorded, or on its way back, as spoken from this sandbox. */
  ghost predicate Pending(w: World, k: Key, n: Name) {
    k.meeting in w.threads && var t := w.threads[k.meeting];
    && t.node == Speaker(k.agent)
    && ((TurnKeyOf(k.meeting, t) in w.rows && Mentions(w.rows[TurnKeyOf(k.meeting, t)].rest, k.agent, n))
        || (t.pc.Returning? && Mentions(t.pc.update, k.agent, n)))
  }

  ghost predicate Fetching(w: World, k: Key, n: Name) {
    k.meeting in w.threads && var t := w.threads[k.meeting];
    t.node == Speaker(k.agent) && t.pc.ReadBack? && t.pc.sandbox == n
  }

  ghost predicate Names(w: World, k: Key, n: Name) {
    Leads(w, k, n) || Fetching(w, k, n) || Pending(w, k, n)
  }

  /** A recorded turn is only ever pending after a crash, when the persona holds nothing;
      and a turn on its way back names the sandbox the persona holds, if it holds one. */
  ghost predicate Tidy(w: World, m: Id) {
    m in w.threads && var t := w.threads[m];
    && (t.pc.Entered? && t.node.Speaker? && TurnKeyOf(m, t) in w.rows ==> KeyOf(m, t) !in w.leases)
    && (t.pc.Returning? && t.node.Speaker? && KeyOf(m, t) in w.leases ==>
          forall n :: Mentions(t.pc.update, t.node.agent, n) ==> w.leases[KeyOf(m, t)].sandbox == n)
  }

  lemma MentionsOne(u: Update, a: Id, n: Name, n': Name)
    requires Mentions(u, a, n) && Mentions(u, a, n')
    ensures n == n'
  {
    assert map[a := n][a] == n && map[a := n'][a] == n';
  }

  lemma SpokenMentions(voice: Voice, w: World, m: Id, t: Thread, u: Update, n: Name, r: TurnResult, n': Name)
    requires Spoken(voice, w, m, t, u, n, r) && Mentions(u, t.node.agent, n')
    ensures n' == n
  {
    MentionsOne(u, t.node.agent, n, n');
  }

  lemma PendingOwned(voice: Voice, w: World, k: Key, n: Name)
    requires Inv(voice, w) && Pending(w, k, n)
    ensures n in w.pods && w.pods[n].owner == k
  {
    var m, t := k.meeting, w.threads[k.meeting];
    if TurnKeyOf(m, t) in w.rows && Mentions(w.rows[TurnKeyOf(m, t)].rest, k.agent, n) {
      RowOfTurn(voice, w, m);
      var n', r :| StoredTurn(voice, w, m, t, w.rows[TurnKeyOf(m, t)], n', r);
      SpokenMentions(voice, w, m, t, SuccessUpdate(k.agent, n', r), n', r, n);
    } else {
      PcFacts(voice, w, m);
      var n', r :| Spoken(voice, w, m, t, t.pc.update, n', r);
      SpokenMentions(voice, w, m, t, t.pc.update, n', r, n);
    }
  }

  lemma RowOfTurn(voice: Voice, w: World, m: Id)
    requires Inv(voice, w) && m in w.threads && w.threads[m].node.Speaker? && TurnKeyOf(m, w.threads[m]) in w.rows
    ensures var t := w.threads[m]; exists n, r :: StoredTurn(voice, w, m, t, w.rows[TurnKeyOf(m, t)], n, r)
  {
    var t := w.threads[m];
    assert MeetingOk(voice, w, m);
    assert RowOk(voice, w, m, t, t.graph.currentTurn, t.node.agent);
  }

  /** Only a persona's own sandboxes are named for it. */
  lemma NamesOwned(voice: Voice, w: World, k: Key, n: Name)
    requires Inv(voice, w) && Names(w, k, n)
    ensures n in w.pods && w.pods[n].owner == k
  {
    if Leads(w, k, n) {
      LeaseOwns(voice, w, k);
    } else if Fetching(w, k, n) {
      PcFacts(voice, w, k.meeting);
    } else {
      PendingOwned(voice, w, k, n);
    }
  }

  // The simulation relation

  /** The calm meeting stands at the start of its node, with nothing said or recorded for
      the turn that is pending. */
  ghost predicate Rests(f: World, m: Id) {
    m in f.threads && var t := f.threads[m];
    && (t.node.Chair? ==> t.pc.AtChair?)
    && (t.node.Speaker? ==> t.pc.Entered? && InNode(t) && TurnKeyOf(m, t) !in f.rows)
    && (t.node.Speaker? && KeyOf(m, t) in f.leases ==> Unasked(f, f.leases[KeyOf(m, t)].sandbox, TurnKeyOf(m, t)))
  }

  ghost predicate Unasked(f: World, n: Name, key: string) {
    n in f.pods && Cache.Lookup(f.pods[n].cache, key).None?
  }

  ghost predicate NoStrayRows(f: World) {
    forall m, turn, a :: GoodId(m) && m !in f.threads ==> TurnKey(m, turn, a) !in f.rows
  }

  /** A sandbox the calm run knows and a pending turn may name is held there too. */
  ghost predicate NamesMatch(s: World, f: World) {
    forall k, n :: Names(s, k, n) && n in f.pods ==> Leads(f, k, n)
  }

  ghost predicate ThreadsMatch(s: World, f: World) {
    f.threads.Keys == s.threads.Keys && forall m :: m in s.threads ==> SameCheckpoint(s, f, m)
  }

  ghost predicate AllRest(f: World) {
    forall m :: m in f.threads ==> Rests(f, m)
  }

  ghost predicate AllTidy(s: World) {
    forall m :: m in s.threads ==> Tidy(s, m)
  }

  ghost predicate AllSound(f: World) {
    forall k :: k in f.leases ==> Sound(f, k)
  }

  ghost predicate PodsMatch(s: World, f: World, ahead: set<Name>) {
    s.pods.Keys <= ahead && f.pods.Keys * ahead <= s.pods.Keys
  }

  /** `ahead` holds every sandbox the run will ever create, which the calm run must not
      use up before its time. */
  ghost predicate Follows(voice: Voice, s: World, f: World, ahead: set<Name>) {
    && Inv(voice, s) && Inv(voice, f) && f.up
    && ThreadsMatch(s, f) && AllRest(f) && AllTidy(s) && AllSound(f)
    && NoStrayRows(f) && NamesMatch(s, f) && PodsMatch(s, f, ahead)
  }

  // Steps that move no checkpoint

  /** For one meeting, nothing new can be named and its checkpoint stands. */
  ghost predicate HushedAt(s: World, s': World, f: World, m: Id) {
    && SameCheckpoint(s, s', m) && Tidy(s', m)
    && forall a, n :: Names(s', Key(m, a), n) && n in f.pods ==> Names(s, Key(m, a), n)
  }

  ghost predicate Hushed(s: World, s': World, f: World) {
    && s'.threads.Keys == s.threads.Keys && s.pods.Keys <= s'.pods.Keys
    && forall m :: m in s.threads ==> HushedAt(s, s', f, m)
  }

  lemma NamesHaveThreads(voice: Voice, w: World, k: Key, n: Name)
    requires Inv(voice, w) && Names(w, k, n)
    ensures k.meeting in w.threads
  {
  }

  lemma HushedFollows(voice: Voice, s: World, s': World, f: World, ahead: set<Name>)
    requires Follows(voice, s, f, ahead) && Inv(voice, s') && Hushed(s, s', f) && s'.pods.Keys <= ahead
    ensures Follows(voice, s', f, ahead)
  {
    forall k, n | Names(s', k, n) && n in f.pods ensures Leads(f, k, n) {
      NamesHaveThreads(voice, s', k, n);
      assert HushedAt(s, s', f, k.meeting);
      assert Key(k.meeting, k.agent) == k;
      assert Names(s, k, n);
    }
    forall m | m in s'.threads ensures SameCheckpoint(s', f, m) && Tidy(s', m) {
      assert HushedAt(s, s', f, m);
    }
  }

  /** What the lemmas below need of a state: small enough to carry around. */
  ghost predicate Neat(s: World) {
    AllTidy(s) && s.orphans <= s.pods.Keys && s.stranded <= s.pods.Keys && forall m :: m in s.threads ==> GoodId(m)
  }

  lemma InvIsNeat(voice: Voice, s: World)
    requires Inv(voice, s) && AllTidy(s)
    ensures Neat(s)
  {
    forall m | m in s.threads ensures GoodId(m) {
      PcFacts(voice, s, m);
    }
  }

  lemma OthersHushed(s: World, s': World, f: World, m: Id, x: Id)
    requires Local(s, s', m) && x in s.threads && x != m && GoodId(x) && Tidy(s, x)
    ensures HushedAt(s, s', f, x)
  {
    var t := s.threads[x];
    assert s'.threads[x] == t;
    forall a, n | Names(s', Key(x, a), n) ensures Names(s, Key(x, a), n) {
    }
  }

  lemma LocalHushed(s: World, s': World, f: World, m: Id)
    requires Neat(s) && Local(s, s', m) && m in s.threads && HushedAt(s, s', f, m)
    ensures Hushed(s, s', f)
  {
    forall x | x in s.threads ensures HushedAt(s, s', f, x) {
      if x != m {
        OthersHushed(s, s', f, m, x);
      }
    }
  }

  /** The program counter alone moves, to a place that can name nothing new. */
  predicate Dull(pc: Pc) {
    !pc.ReadBack? && !pc.Entered? && (pc.Returning? ==> pc.update.sandboxes.None?)
  }

  lemma PcHushed(s: World, f: World, m: Id, t': Thread)
    requires Neat(s) && m in s.threads && SameSpot(s.threads[m], t') && Dull(t'.pc)
    ensures Hushed(s, Set(s, m, t'), f)
  {
    SetIsLocal(s, m, t');
    PcHushedAt(s, f, m, t');
    LocalHushed(s, Set(s, m, t'), f, m);
  }

  lemma PcHushedAt(s: World, f: World, m: Id, t': Thread)
    requires m in s.threads && SameSpot(s.threads[m], t') && Dull(t'.pc)
    ensures HushedAt(s, Set(s, m, t'), f, m)
  {
  }

  lemma LeaseHushed(s: World, f: World, leases: map<Key, Lease>, m: Id, t': Thread)
    requires Neat(s) && m in s.threads && SameSpot(s.threads[m], t') && Dull(t'.pc)
    requires OthersLeases(s, leases, m)
    requires forall k :: k in leases && k.meeting == m ==> Names(s, k, leases[k].sandbox)
    ensures Hushed(s, WithLeases(s, leases, m, t'), f)
  {
    LeaseChangeIsLocal(s, leases, m, t');
    LeaseHushedAt(s, f, leases, m, t');
    LocalHushed(s, WithLeases(s, leases, m, t'), f, m);
  }

  lemma LeaseHushedAt(s: World, f: World, leases: map<Key, Lease>, m: Id, t': Thread)
    requires m in s.threads && SameSpot(s.threads[m], t') && Dull(t'.pc)
    requires forall k :: k in leases && k.meeting == m ==> Names(s, k, leases[k].sandbox)
    ensures HushedAt(s, WithLeases(s, leases, m, t'), f, m)
  {
  }

  lemma PodHushed(s: World, f: World, n: Name, p: Pod, m: Id, t': Thread)
    requires Neat(s) && m in s.threads && SameSpot(s.threads[m], t')
    requires p.owner.meeting == m && (n in s.pods ==> s.pods[n].owner == p.owner)
    requires Dull(t'.pc) || (t'.pc.ReadBack? && t'.pc.sandbox == n && n !in f.pods)
    ensures Hushed(s, WithPod(s, n, p, m, t'), f)
  {
    PodChangeIsLocal(s, n, p, m, t');
    PodHushedAt(s, f, n, p, m, t');
    LocalHushed(s, WithPod(s, n, p, m, t'), f, m);
  }

  lemma PodHushedAt(s: World, f: World, n: Name, p: Pod, m: Id, t': Thread)
    requires m in s.threads && SameSpot(s.threads[m], t')
    requires Dull(t'.pc) || (t'.pc.ReadBack? && t'.pc.sandbox == n && n !in f.pods)
    ensures HushedAt(s, WithPod(s, n, p, m, t'), f, m)
  {
  }

  // Claims

  predicate Moves(step: ClaimStep) {
    MovesOnly(step) || step.CreateFails?
  }

  lemma ClaimMoveHushed(s: World, f: World, m: Id, step: ClaimStep)
    requires Neat(s) && CanClaim(s, m, step) && Moves(step)
    ensures Hushed(s, DoClaim(s, m, step), f)
  {
    PcHushed(s, f, m, DoClaim(s, m, step).threads[m]);
  }

  lemma CreatedHushed(s: World, f: World, m: Id, n: Name, persona: Option<Key>, cache: Cache.Entries<Answer>)
    requires Neat(s) && CanClaim(s, m, Created(n, persona, cache)) && n !in f.pods
    ensures Hushed(s, DoClaim(s, m, Created(n, persona, cache)), f)
  {
    var t := s.threads[m];
    PodHushed(s, f, n, Pod(KeyOf(m, t), true, persona, cache, 0, 0), m, t.(pc := ReadBack(t.pc.attempt, t.pc.last, n)));
  }

  lemma ClaimHushed(voice: Voice, s: World, f: World, m: Id, step: ClaimStep)
    requires Inv(voice, s) && AllTidy(s) && CanClaim(s, m, step)
    requires step.Created? ==> step.sandbox !in f.pods
    ensures Hushed(s, DoClaim(s, m, step), f)
  {
    InvIsNeat(voice, s);
    PcFacts(voice, s, m);
    ClaimCases(voice, s, f, m, step);
  }

  lemma ClaimCases(voice: Voice, s: World, f: World, m: Id, step: ClaimStep)
    requires Neat(s) && ThreadOk(voice, s, m) && CanClaim(s, m, step)
    requires step.Created? ==> step.sandbox !in f.pods
    ensures Hushed(s, DoClaim(s, m, step), f)
  {
    match step
    case LookupHit => HitHushed(s, f, m);
    case LookupMiss => ClaimMoveHushed(s, f, m, step);
    case LookupFails => ClaimMoveHushed(s, f, m, step);
    case Reuse => ClaimMoveHushed(s, f, m, step);
    case BeginCreate => ClaimMoveHushed(s, f, m, step);
    case CreateFails(error) => ClaimMoveHushed(s, f, m, step);
    case Created(n, persona, cache) => CreatedHushed(s, f, m, n, persona, cache);
    case ReadBackFails(error) => StrandedHushed(voice, s, f, m, error);
    case ReadBackOk => TakenHushed(s, f, m);
  }

  /** A replayed turn names what its row named, and a crash has emptied the lease table. */
  lemma HitHushed(s: World, f: World, m: Id)
    requires Neat(s) && CanClaim(s, m, LookupHit)
    ensures Hushed(s, DoClaim(s, m, LookupHit), f)
  {
    var t := s.threads[m];
    var t' := t.(pc := Returning(Rehydrate(s.rows[TurnKeyOf(m, t)])));
    assert Tidy(s, m);
    SetIsLocal(s, m, t');
    HitHushedAt(s, f, m);
    LocalHushed(s, Set(s, m, t'), f, m);
  }

  lemma HitHushedAt(s: World, f: World, m: Id)
    requires CanClaim(s, m, LookupHit) && Tidy(s, m)
    ensures var t := s.threads[m]; HushedAt(s, Set(s, m, t.(pc := Returning(Rehydrate(s.rows[TurnKeyOf(m, t)])))), f, m)
  {
  }

  lemma StrandedHushed(voice: Voice, s: World, f: World, m: Id, error: string)
    requires Neat(s) && ThreadOk(voice, s, m) && CanClaim(s, m, ReadBackFails(error))
    ensures Hushed(s, DoClaim(s, m, ReadBackFails(error)), f)
  {
    var t := s.threads[m];
    var t' := t.(pc := Returning(FailureUpdate(WhoIs(t), NoSandbox(error))));
    StrandingIsLocal(s, t.pc.sandbox, m, t');
    StrandedHushedAt(s, f, t.pc.sandbox, m, t');
    LocalHushed(s, WithStranded(s, t.pc.sandbox, m, t'), f, m);
  }

  lemma StrandedHushedAt(s: World, f: World, n: Name, m: Id, t': Thread)
    requires m in s.threads && SameSpot(s.threads[m], t') && Dull(t'.pc)
    ensures HushedAt(s, WithStranded(s, n, m, t'), f, m)
  {
  }

  lemma TakenHushed(s: World, f: World, m: Id)
    requires Neat(s) && CanClaim(s, m, ReadBackOk)
    ensures Hushed(s, DoClaim(s, m, ReadBackOk), f)
  {
    var t := s.threads[m];
    assert Fetching(s, KeyOf(m, t), t.pc.sandbox);
    LeaseHushed(s, f, s.leases[KeyOf(m, t) := Lease(t.pc.sandbox, false)], m,
                t.(pc := Leased(t.pc.attempt, t.pc.last, t.pc.sandbox)));
  }

  // Questions

  lemma AskMoveHushed(s: World, f: World, m: Id, step: AskStep)
    requires Neat(s) && CanAsk(s, m, step) && (step.Deliver? || step.CloseStream?)
    ensures Hushed(s, DoAsk(s, m, step), f)
  {
    AskMoves(s, m, step);
    PcHushed(s, f, m, DoAsk(s, m, step).threads[m]);
  }

  lemma AskMoves(s: World, m: Id, step: AskStep)
    requires CanAsk(s, m, step) && (step.Deliver? || step.CloseStream?)
    ensures var s' := DoAsk(s, m, step);
            m in s'.threads && s' == Set(s, m, s'.threads[m]) && SameSpot(s.threads[m], s'.threads[m]) && Dull(s'.threads[m].pc)
  {
  }

  lemma SentHushed(s: World, f: World, m: Id)
    requires Neat(s) && CanAsk(s, m, SendRequest)
    ensures Hushed(s, DoAsk(s, m, SendRequest), f)
  {
    PcHushed(s, f, m, DoAsk(s, m, SendRequest).threads[m]);
  }

  lemma AskHushed(voice: Voice, s: World, f: World, m: Id, step: AskStep)
    requires Inv(voice, s) && AllTidy(s) && CanAsk(s, m, step) && !step.Return?
    ensures Hushed(s, DoAsk(s, m, step), f)
  {
    InvIsNeat(voice, s);
    PcFacts(voice, s, m);
    AskCases(voice, s, f, m, step);
  }

  lemma AskCases(voice: Voice, s: World, f: World, m: Id, step: AskStep)
    requires Neat(s) && ThreadOk(voice, s, m) && CanAsk(s, m, step) && !step.Return?
    ensures Hushed(s, DoAsk(s, m, step), f)
  {
    match step
    case SendRequest => SentHushed(s, f, m);
    case BindReplied => BoundHushed(s, f, m);
    case Deliver => AskMoveHushed(s, f, m, step);
    case CloseStream => AskMoveHushed(s, f, m, step);
    case Raise(error) => RaiseHushed(voice, s, f, m, error);
    case DeleteTried => DeleteHushed(voice, s, f, m);
    case Record(ok) => RecordHushed(voice, s, f, m, ok);
    case Leave => LeaveHushed(voice, s, f, m);
    case LeaveRaises(error) => LeaveRaisesHushed(voice, s, f, m, error);
  }

  lemma BoundHushed(s: World, f: World, m: Id)
    requires Neat(s) && CanAsk(s, m, BindReplied)
    ensures Hushed(s, DoAsk(s, m, BindReplied), f)
  {
    var t := s.threads[m];
    var k := KeyOf(m, t);
    LeaseHushed(s, f, if k in s.leases then s.leases[k := s.leases[k].(bound := true)] else s.leases, m, AskNow(t));
  }

  lemma RaiseHushed(voice: Voice, s: World, f: World, m: Id, error: string)
    requires Neat(s) && ThreadOk(voice, s, m) && CanAsk(s, m, Raise(error))
    ensures Hushed(s, DoAsk(s, m, Raise(error)), f)
  {
    var t := s.threads[m];
    assert Leads(s, KeyOf(m, t), t.pc.sandbox);
    ForgottenHushed(s, f, m, t.pc.sandbox, t.(pc := Deleting(t.pc.attempt, error, t.pc.sandbox)));
  }

  lemma LeavingLeads(voice: Voice, s: World, m: Id)
    requires ThreadOk(voice, s, m) && m in s.threads && s.threads[m].pc.Leaving?
    ensures Leads(s, KeyOf(m, s.threads[m]), s.threads[m].pc.sandbox)
  {
  }

  lemma LeaveRaisesDoes(s: World, m: Id, error: string)
    requires CanAsk(s, m, LeaveRaises(error)) && Leads(s, KeyOf(m, s.threads[m]), s.threads[m].pc.sandbox)
    ensures var t := s.threads[m];
            DoAsk(s, m, LeaveRaises(error))
            == WithLeases(s, s.leases - {KeyOf(m, t)}, m, Exited(t).(pc := Deleting(t.pc.attempt, error, t.pc.sandbox)))
  {
    var t := s.threads[m];
    var t' := Exited(t).(pc := Deleting(t.pc.attempt, error, t.pc.sandbox));
    assert DoAsk(s, m, LeaveRaises(error)).threads == s.threads[m := t'];
  }

  lemma LeaveRaisesHushed(voice: Voice, s: World, f: World, m: Id, error: string)
    requires Neat(s) && ThreadOk(voice, s, m) && CanAsk(s, m, LeaveRaises(error))
    ensures Hushed(s, DoAsk(s, m, LeaveRaises(error)), f)
  {
    var t := s.threads[m];
    LeavingLeads(voice, s, m);
    LeaveRaisesDoes(s, m, error);
    ForgottenHushed(s, f, m, t.pc.sandbox, Exited(t).(pc := Deleting(t.pc.attempt, error, t.pc.sandbox)));
  }

  lemma ForgottenHushed(s: World, f: World, m: Id, n: Name, t': Thread)
    requires Neat(s) && Visiting(s, m) && Leads(s, KeyOf(m, s.threads[m]), n)
    requires SameSpot(s.threads[m], t') && t'.pc.Deleting?
    ensures Hushed(s, WithLeases(s, s.leases - {KeyOf(m, s.threads[m])}, m, t'), f)
  {
    LeaseHushed(s, f, s.leases - {KeyOf(m, s.threads[m])}, m, t');
  }

  lemma DeleteHushed(voice: Voice, s: World, f: World, m: Id)
    requires Neat(s) && ThreadOk(voice, s, m) && CanAsk(s, m, DeleteTried)
    ensures Hushed(s, DoAsk(s, m, DeleteTried), f)
  {
    var t := s.threads[m];
    var p := Counted(s.pods[t.pc.sandbox]);
    assert s.pods[t.pc.sandbox].owner.meeting == m;
    if t.pc.attempt == 0 {
      PodHushed(s, f, t.pc.sandbox, p, m, t.(pc := Leasing(1, t.pc.last)));
    } else {
      PodHushed(s, f, t.pc.sandbox, p, m, t.(pc := Returning(FailureUpdate(WhoIs(t), t.pc.last))));
    }
  }

  lemma RecordHushed(voice: Voice, s: World, f: World, m: Id, ok: bool)
    requires Neat(s) && ThreadOk(voice, s, m) && CanAsk(s, m, Record(ok))
    ensures Hushed(s, DoAsk(s, m, Record(ok)), f)
  {
    var t := s.threads[m];
    var n, r := t.pc.sandbox, t.pc.answer.result;
    var u := SuccessUpdate(t.node.agent, n, r);
    var t' := Heading(t, u);
    assert Leads(s, KeyOf(m, t), n);
    if ok && TurnKeyOf(m, t) !in s.rows {
      var s' := WithRow(s, TurnKeyOf(m, t), Serialise(u), m, t');
      RowAddedIsLocal(s, m, t.graph.currentTurn, t.node.agent, Serialise(u), t');
      AnswerHushed(s, s', f, m, t', n, r);
      LocalHushed(s, s', f, m);
    } else {
      ComingHushed(s, f, m, t', n, r);
    }
  }

  lemma LeaveHushed(voice: Voice, s: World, f: World, m: Id)
    requires Neat(s) && ThreadOk(voice, s, m) && CanAsk(s, m, Leave)
    ensures Hushed(s, DoAsk(s, m, Leave), f)
  {
    var t := s.threads[m];
    assert SpokenFrom(voice, s, m, t, t.pc.update, t.pc.sandbox);
    var r :| Spoken(voice, s, m, t, t.pc.update, t.pc.sandbox, r);
    ComingHushed(s, f, m, t.(pc := Returning(t.pc.update)), t.pc.sandbox, r);
  }

  lemma ComingHushed(s: World, f: World, m: Id, t': Thread, n: Name, r: TurnResult)
    requires Neat(s) && AnswerComing(s, Set(s, m, t'), m, t', n, r)
    ensures Hushed(s, Set(s, m, t'), f)
  {
    SetIsLocal(s, m, t');
    AnswerHushed(s, Set(s, m, t'), f, m, t', n, r);
    LocalHushed(s, Set(s, m, t'), f, m);
  }

  /** The answer is on its way back, recorded or not. */
  ghost predicate AnswerComing(s: World, s': World, m: Id, t': Thread, n: Name, r: TurnResult) {
    && Visiting(s, m) && Leads(s, KeyOf(m, s.threads[m]), n)
    && var t := s.threads[m];
    var u := SuccessUpdate(t.node.agent, n, r);
    && SameSpot(t, t') && (t'.pc.Leaving? || t'.pc == Returning(u))
    && (s' == Set(s, m, t') || (TurnKeyOf(m, t) !in s.rows && s' == WithRow(s, TurnKeyOf(m, t), Serialise(u), m, t')))
  }

  lemma OnlyMentions(a: Id, n: Name, r: TurnResult, n': Name)
    requires Mentions(SuccessUpdate(a, n, r), a, n')
    ensures n' == n
  {
    MentionsOne(SuccessUpdate(a, n, r), a, n, n');
  }

  lemma AnswerTidy(s: World, s': World, m: Id, t': Thread, n: Name, r: TurnResult)
    requires AnswerComing(s, s', m, t', n, r)
    ensures SameCheckpoint(s, s', m) && Tidy(s', m)
  {
    if t'.pc.Returning? {
      forall n' | Mentions(t'.pc.update, t'.node.agent, n') ensures n' == n {
        OnlyMentions(t'.node.agent, n, r, n');
      }
    }
  }

  /** An answer on its way back names no sandbox but the one the persona holds. */
  lemma NamedByAnswer(s: World, s': World, m: Id, t': Thread, n: Name, r: TurnResult, k: Key, n': Name)
    requires AnswerComing(s, s', m, t', n, r) && k.meeting == m && Names(s', k, n')
    ensures Names(s, k, n')
  {
    var t := s.threads[m];
    if Pending(s', k, n') && !Pending(s, k, n') {
      assert k == KeyOf(m, t);
      OnlyMentions(t.node.agent, n, r, n');
    }
  }

  lemma AnswerHushed(s: World, s': World, f: World, m: Id, t': Thread, n: Name, r: TurnResult)
    requires AnswerComing(s, s', m, t', n, r)
    ensures HushedAt(s, s', f, m)
  {
    AnswerTidy(s, s', m, t', n, r);
    forall a, n' | Names(s', Key(m, a), n') ensures Names(s, Key(m, a), n') {
      NamedByAnswer(s, s', m, t', n, r, Key(m, a), n');
    }
  }

  // Sandboxes

  lemma BindServedHushed(voice: Voice, s: World, f: World, m: Id)
    requires Neat(s) && CanServe(voice, s, m, ServeBind) && s.pods[s.threads[m].pc.sandbox].owner.meeting == m
    ensures Hushed(s, DoServe(voice, s, m, ServeBind), f)
  {
    var t := s.threads[m];
    var n := t.pc.sandbox;
    PodHushed(s, f, n, Rebind(s.pods[n], KeyOf(m, t)), m, t.(pc := BindServed(t.pc.attempt, t.pc.last, n)));
  }

  lemma ReplayHushed(voice: Voice, s: World, f: World, m: Id)
    requires Neat(s) && CanServe(voice, s, m, ServeReplay) && s.pods[s.threads[m].pc.sandbox].owner.meeting == m
    ensures Hushed(s, DoServe(voice, s, m, ServeReplay), f)
  {
    var t := s.threads[m];
    var n := t.pc.sandbox;
    PodHushed(s, f, n, s.pods[n].(cache := Cache.MoveToEnd(s.pods[n].cache, TurnKeyOf(m, t))), m,
              Preservation.Answered(t, CachedTurn(s, m).value));
  }

  lemma ResultHushed(voice: Voice, s: World, f: World, m: Id, r: TurnResult)
    requires Neat(s) && CanServe(voice, s, m, ServeResult(r)) && s.pods[s.threads[m].pc.sandbox].owner.meeting == m
    ensures Hushed(s, DoServe(voice, s, m, ServeResult(r)), f)
  {
    var t := s.threads[m];
    var n, answer := t.pc.sandbox, Answer(r, BoundPersona(s, m), t.graph.currentTurn);
    PodHushed(s, f, n, Remember(s.pods[n], TurnKeyOf(m, t), answer), m, Preservation.Answered(t, answer));
  }

  lemma ErrorHushed(voice: Voice, s: World, f: World, m: Id, message: string)
    requires Neat(s) && CanServe(voice, s, m, ServeError(message))
    ensures Hushed(s, DoServe(voice, s, m, ServeError(message)), f)
  {
    var t := s.threads[m];
    PcHushed(s, f, m, t.(pc := Answering(t.pc.attempt, t.pc.last, t.pc.sandbox, Refused(message))));
  }

  lemma ServeHushed(voice: Voice, s: World, f: World, m: Id, step: ServeStep)
    requires Inv(voice, s) && AllTidy(s) && CanServe(voice, s, m, step)
    ensures Hushed(s, DoServe(voice, s, m, step), f)
  {
    InvIsNeat(voice, s);
    ServedThread(voice, s, m, step);
    LeaseOwns(voice, s, KeyOf(m, s.threads[m]));
    ServeCases(voice, s, f, m, step);
  }

  lemma ServeCases(voice: Voice, s: World, f: World, m: Id, step: ServeStep)
    requires Neat(s) && CanServe(voice, s, m, step)
    requires var n := s.threads[m].pc.sandbox; n in s.pods && s.pods[n].owner.meeting == m
    ensures Hushed(s, DoServe(voice, s, m, step), f)
  {
    match step
    case ServeBind => BindServedHushed(voice, s, f, m);
    case ServeReplay => ReplayHushed(voice, s, f, m);
    case ServeResult(r) => ResultHushed(voice, s, f, m, r);
    case ServeError(message) => ErrorHushed(voice, s, f, m, message);
  }

  lemma ServedThread(voice: Voice, s: World, m: Id, step: ServeStep)
    requires Inv(voice, s) && CanServe(voice, s, m, step)
    ensures Visiting(s, m) && (s.threads[m].pc.Binding? || s.threads[m].pc.Asking?)
    ensures Leads(s, KeyOf(m, s.threads[m]), s.threads[m].pc.sandbox)
  {
    assert Visiting(s, m) && (s.threads[m].pc.Binding? || s.threads[m].pc.Asking?);
    PcFacts(voice, s, m);
  }

  // The executor

  predicate MovesCheckpoint(step: ConductStep) {
    step.Start? || step.ChairDecides?
  }

  lemma ConductHushed(voice: Voice, s: World, f: World, m: Id, step: ConductStep)
    requires Inv(voice, s) && AllTidy(s) && CanConduct(s, m, step) && !MovesCheckpoint(step)
    ensures Hushed(s, DoConduct(s, m, step), f)
  {
    InvIsNeat(voice, s);
    PcFacts(voice, s, m);
    ConductCases(voice, s, f, m, step);
  }

  lemma ConductCases(voice: Voice, s: World, f: World, m: Id, step: ConductStep)
    requires Neat(s) && ThreadOk(voice, s, m) && CanConduct(s, m, step) && !MovesCheckpoint(step)
    ensures Hushed(s, DoConduct(s, m, step), f)
  {
    match step
    case ChairRaises => PcHushed(s, f, m, s.threads[m].(pc := Closing));
    case Persist(ok) => PersistHushed(s, f, m, ok);
    case Handled(stored) => PcHushed(s, f, m, GivenUpOn(s.threads[m], stored));
    case ReleaseOne(n) => ReleaseHushed(voice, s, f, m, n);
    case Released => PcHushed(s, f, m, s.threads[m].(pc := Done));
    case Resume => ResumeHushed(s, f, m);
  }

  lemma PersistHushed(s: World, f: World, m: Id, ok: bool)
    requires Neat(s) && CanConduct(s, m, Persist(ok))
    ensures Hushed(s, DoConduct(s, m, Persist(ok)), f)
  {
    if ok {
      LeaseHushed(s, f, DropLeases(s, m).leases, m, Handover(s, m));
    } else {
      PcHushed(s, f, m, s.threads[m].(pc := Handling));
    }
  }

  lemma ReleaseHushed(voice: Voice, s: World, f: World, m: Id, n: Name)
    requires Neat(s) && ThreadOk(voice, s, m) && CanConduct(s, m, ReleaseOne(n))
    ensures Hushed(s, DoConduct(s, m, ReleaseOne(n)), f)
  {
    var t := s.threads[m];
    PodHushed(s, f, n, Counted(s.pods[n]), m, t.(pc := Releasing(t.pc.todo - {n})));
  }

  /** A resumed meeting holds nothing, so a recorded turn is free to be replayed. */
  lemma ResumeHushed(s: World, f: World, m: Id)
    requires Neat(s) && m in s.threads && NoLeases(s, m)
    ensures Hushed(s, Set(s, m, EnterNode(s.threads[m])), f)
  {
    SetIsLocal(s, m, EnterNode(s.threads[m]));
    ResumeHushedAt(s, f, m);
    LocalHushed(s, Set(s, m, EnterNode(s.threads[m])), f, m);
  }

  lemma ResumeHushedAt(s: World, f: World, m: Id)
    requires m in s.threads && NoLeases(s, m)
    ensures HushedAt(s, Set(s, m, EnterNode(s.threads[m])), f, m)
  {
  }

  // Faults

  lemma FaultHushed(s: World, f: World, e: Fault)
    requires AllTidy(s) && CanHappen(s, e)
    ensures Hushed(s, DoHappen(s, e), f)
  {
    forall m | m in s.threads ensures HushedAt(s, DoHappen(s, e), f, m) {
      assert Tidy(s, m);
      FaultHushedAt(s, f, e, m);
    }
  }

  lemma FaultHushedAt(s: World, f: World, e: Fault, m: Id)
    requires CanHappen(s, e) && m in s.threads && Tidy(s, m)
    ensures HushedAt(s, DoHappen(s, e), f, m)
  {
  }

  // Steps that move a checkpoint: handing back a turn

  /** The calm meeting stands ready to produce the same turn. */
  lemma CalmReady(voice: Voice, s: World, f: World, ahead: set<Name>, m: Id)
    requires Follows(voice, s, f, ahead) && m in s.threads && s.threads[m].node.Speaker?
    ensures Visiting(f, m) && f.threads[m].pc.Entered? && TurnKeyOf(m, f.threads[m]) !in f.rows
    ensures var k := KeyOf(m, f.threads[m]); k in f.leases ==> Ready(f, m, f.leases[k].sandbox)
    ensures SameCheckpoint(s, f, m)
  {
    assert Rests(f, m);
    var k := KeyOf(m, f.threads[m]);
    assert k in f.leases ==> Sound(f, k);
  }

  lemma UnusedName(names: set<Name>) returns (n: Name)
    ensures n !in names
  {
    var bound := LongestName(names);
    n := seq(bound + 1, _ => 'x');
  }

  lemma LongestName(names: set<Name>) returns (bound: nat)
    ensures forall n :: n in names ==> |n| <= bound
  {
    if names == {} {
      bound := 0;
    } else {
      var x :| x in names;
      var rest := LongestName(names - {x});
      bound := if rest < |x| then |x| else rest;
    }
  }

  function Returned(s: World, m: Id): World
    requires m in s.threads && s.threads[m].pc.Returning?
  {
    var t := s.threads[m];
    Set(s, m, EnterNode(t.(graph := Apply(t.graph, t.pc.update), node := Chair)))
  }

  /** The sandbox the calm run used for the turn may be named from now on. */
  ghost predicate Fits(s: World, f: World, ahead: set<Name>, m: Id, k: Key, n: Name) {
    && m in s.threads && s.threads[m].node == Speaker(k.agent) && k.meeting == m && s.threads[m].pc.Returning?
    && ((Mentions(s.threads[m].pc.update, k.agent, n) && n in s.pods && s.pods[n].owner == k)
        || n !in ahead
        || Leads(f, k, n))
    && (Leads(f, k, n) || n !in f.pods)
    && (Mentions(s.threads[m].pc.update, k.agent, n) || (k in f.leases ==> Leads(f, k, n)))
  }

  lemma ReturnedThreadsMatch(s: World, f: World, f': World, m: Id, k: Key, n: Name)
    requires ThreadsMatch(s, f) && m in s.threads && s.threads[m].pc.Returning?
    requires Committed(f, f', m, k, n, s.threads[m].pc.update)
    ensures ThreadsMatch(Returned(s, m), f')
  {
    forall x | x in s.threads ensures SameCheckpoint(Returned(s, m), f', x) {
      assert SameCheckpoint(s, f, x);
    }
  }

  lemma CommittedSound(f: World, f': World, m: Id, k: Key, n: Name, u: Update)
    requires AllSound(f) && Committed(f, f', m, k, n, u)
    ensures AllSound(f')
  {
    forall x | x in f'.leases ensures Sound(f', x) {
      assert x != k ==> Sound(f, x);
    }
  }

  /** The rows a committed turn may have added. */
  ghost predicate OneRow(f: World, f': World, m: Id)
    requires m in f.threads && f.threads[m].node.Speaker?
  {
    f'.rows.Keys <= f.rows.Keys + {TurnKeyOf(m, f.threads[m])}
  }

  lemma CommittedRests(f: World, f': World, m: Id, k: Key, n: Name, u: Update, x: Id)
    requires Committed(f, f', m, k, n, u) && f.threads[m].node == Speaker(k.agent) && k.meeting == m && OneRow(f, f', m)
    requires x in f.threads && Rests(f, x) && GoodId(x) && GoodId(m) && AllSound(f)
    ensures Rests(f', x)
  {
    if x != m && f.threads[x].node.Speaker? {
      var t := f.threads[x];
      if TurnKeyOf(x, t) == TurnKeyOf(m, f.threads[m]) {
        TurnKeyInjective(x, t.graph.currentTurn, t.node.agent, m, f.threads[m].graph.currentTurn, k.agent);
      }
      assert KeyOf(x, t) in f.leases ==> Sound(f, KeyOf(x, t));
    }
  }

  lemma CommittedNoStrayRows(f: World, f': World, m: Id, k: Key, n: Name, u: Update)
    requires NoStrayRows(f) && Committed(f, f', m, k, n, u) && f.threads[m].node == Speaker(k.agent) && OneRow(f, f', m)
    requires GoodId(m)
    ensures NoStrayRows(f')
  {
    forall x, turn, a | GoodId(x) && x !in f'.threads ensures TurnKey(x, turn, a) !in f'.rows {
      if TurnKey(x, turn, a) == TurnKeyOf(m, f.threads[m]) {
        TurnKeyInjective(x, turn, a, m, f.threads[m].graph.currentTurn, k.agent);
      }
    }
  }

  lemma ReturnedTidy(s: World, m: Id)
    requires AllTidy(s) && m in s.threads && s.threads[m].pc.Returning?
    ensures AllTidy(Returned(s, m))
  {
    forall x | x in s.threads ensures Tidy(Returned(s, m), x) {
      assert Tidy(s, x);
    }
  }

  /** Handing back a turn leaves fewer sandboxes to be named, not more. */
  lemma ReturnedNames(s: World, m: Id, k: Key, n: Name)
    requires m in s.threads && s.threads[m].pc.Returning? && Names(Returned(s, m), k, n)
    ensures Names(s, k, n) && (k.meeting == m ==> Leads(s, k, n))
  {
  }

  lemma ReturnedNamesMatch(voice: Voice, s: World, f: World, f': World, ahead: set<Name>, m: Id, k: Key, n: Name)
    requires Inv(voice, s) && AllTidy(s) && NamesMatch(s, f) && PodsMatch(s, f, ahead) && AllSound(f)
    requires Fits(s, f, ahead, m, k, n) && Committed(f, f', m, k, n, s.threads[m].pc.update)
    ensures NamesMatch(Returned(s, m), f')
  {
    forall k', n' | Names(Returned(s, m), k', n') && n' in f'.pods ensures Leads(f', k', n') {
      ReturnedNames(s, m, k', n');
      NamesOwned(voice, s, k', n');
      NameMatches(s, f, f', ahead, m, k, n, k', n');
    }
  }

  lemma NameMatches(s: World, f: World, f': World, ahead: set<Name>, m: Id, k: Key, n: Name, k': Key, n': Name)
    requires AllTidy(s) && NamesMatch(s, f) && PodsMatch(s, f, ahead) && AllSound(f)
    requires Fits(s, f, ahead, m, k, n) && Committed(f, f', m, k, n, s.threads[m].pc.update)
    requires Names(s, k', n') && (k'.meeting == m ==> Leads(s, k', n')) && n' in f'.pods
    requires n' in s.pods && s.pods[n'].owner == k'
    ensures Leads(f', k', n')
  {
    if k' == k {
      OwnNamesMatch(s, f, ahead, m, k, n, n');
    } else {
      OtherNamesMatch(s, f, ahead, m, k, n, k', n');
    }
  }

  lemma OwnNamesMatch(s: World, f: World, ahead: set<Name>, m: Id, k: Key, n: Name, n': Name)
    requires AllTidy(s) && NamesMatch(s, f) && Fits(s, f, ahead, m, k, n)
    requires Leads(s, k, n') && (n' in f.pods || n' == n)
    ensures n' == n
  {
    assert Tidy(s, m);
    if n' in f.pods {
      assert Names(s, k, n');
    }
  }

  lemma OtherNamesMatch(s: World, f: World, ahead: set<Name>, m: Id, k: Key, n: Name, k': Key, n': Name)
    requires NamesMatch(s, f) && PodsMatch(s, f, ahead) && AllSound(f) && Fits(s, f, ahead, m, k, n)
    requires Names(s, k', n') && (n' in f.pods || n' == n) && k' != k
    requires n' in s.pods && s.pods[n'].owner == k'
    ensures Leads(f, k', n')
  {
    if Leads(f, k, n) {
      assert Sound(f, k);
    }
  }

  lemma CommittedPodsMatch(s: World, f: World, f': World, ahead: set<Name>, m: Id, k: Key, n: Name, u: Update)
    requires PodsMatch(s, f, ahead) && Fits(s, f, ahead, m, k, n) && AllSound(f) && Committed(f, f', m, k, n, u)
    ensures PodsMatch(Returned(s, m), f', ahead)
  {
    if Leads(f, k, n) {
      assert Sound(f, k);
    }
  }

  lemma CommittedRestAll(voice: Voice, f: World, f': World, m: Id, k: Key, n: Name, u: Update)
    requires Inv(voice, f) && AllRest(f) && AllSound(f)
    requires Committed(f, f', m, k, n, u) && f.threads[m].node == Speaker(k.agent) && k.meeting == m && OneRow(f, f', m)
    ensures AllRest(f')
  {
    PcFacts(voice, f, m);
    forall x | x in f'.threads ensures Rests(f', x) {
      PcFacts(voice, f, x);
      CommittedRests(f, f', m, k, n, u, x);
    }
  }

  lemma CommittedFollows(voice: Voice, s: World, f: World, f': World, ahead: set<Name>, m: Id, k: Key, n: Name)
    requires Follows(voice, s, f, ahead) && Fits(s, f, ahead, m, k, n)
    requires Committed(f, f', m, k, n, s.threads[m].pc.update)
    requires f.threads[m].node == s.threads[m].node && OneRow(f, f', m)
    requires Inv(voice, f') && Inv(voice, Returned(s, m))
    ensures Follows(voice, Returned(s, m), f', ahead)
  {
    PcFacts(voice, f, m);
    ReturnedThreadsMatch(s, f, f', m, k, n);
    CommittedRestAll(voice, f, f', m, k, n, s.threads[m].pc.update);
    ReturnedTidy(s, m);
    CommittedSound(f, f', m, k, n, s.threads[m].pc.update);
    CommittedNoStrayRows(f, f', m, k, n, s.threads[m].pc.update);
    ReturnedNamesMatch(voice, s, f, f', ahead, m, k, n);
    CommittedPodsMatch(s, f, f', ahead, m, k, n, s.threads[m].pc.update);
  }

  lemma ReachedInv(voice: Voice, f: World, f': World)
    requires Inv(voice, f) && Reaches(voice, f, f')
    ensures Inv(voice, f')
  {
    var acts :| Runs(voice, f, acts, f') && Calm(acts);
    RunKeeps(voice, f, acts, f');
  }

  lemma ReturnSuccessFollows(voice: Voice, s: World, f: World, ahead: set<Name>, m: Id, n: Name, r: TurnResult)
    returns (f': World)
    requires Follows(voice, s, f, ahead) && Visiting(s, m) && s.threads[m].pc.Returning?
    requires Spoken(voice, s, m, s.threads[m], s.threads[m].pc.update, n, r)
    requires Inv(voice, Returned(s, m))
    ensures Reaches(voice, f, f') && Follows(voice, Returned(s, m), f', ahead)
  {
    var k := KeyOf(m, s.threads[m]);
    CalmReady(voice, s, f, ahead, m);
    assert Names(s, k, n);
    f' := SuccessPath(voice, f, m, n, r);
    ReachedInv(voice, f, f');
    CommittedFollows(voice, s, f, f', ahead, m, k, n);
  }

  lemma ReturnFailureFollows(voice: Voice, s: World, f: World, ahead: set<Name>, m: Id, message: string)
    returns (f': World)
    requires Follows(voice, s, f, ahead) && Visiting(s, m) && s.threads[m].pc.Returning?
    requires s.threads[m].pc.update == FailureUpdate(WhoIs(s.threads[m]), message)
    requires Inv(voice, Returned(s, m))
    ensures Reaches(voice, f, f') && Follows(voice, Returned(s, m), f', ahead)
  {
    var k := KeyOf(m, s.threads[m]);
    CalmReady(voice, s, f, ahead, m);
    var n;
    if k in f.leases {
      n := f.leases[k].sandbox;
    } else {
      n := UnusedName(f.pods.Keys + ahead);
    }
    f' := FailurePath(voice, f, m, n, message);
    ReachedInv(voice, f, f');
    CommittedFollows(voice, s, f, f', ahead, m, k, n);
  }

  lemma ReturningIsPossible(voice: Voice, s: World, m: Id)
    requires Inv(voice, s) && CanAsk(s, m, Return)
    ensures var t := s.threads[m];
            || (exists message :: t.pc.update == FailureUpdate(WhoIs(t), message))
            || (exists n, r :: Spoken(voice, s, m, t, t.pc.update, n, r))
  {
    PcFacts(voice, s, m);
  }

  lemma ReturnFollows(voice: Voice, s: World, f: World, ahead: set<Name>, m: Id) returns (f': World)
    requires Follows(voice, s, f, ahead) && Visiting(s, m) && s.threads[m].pc.Returning? && Inv(voice, Returned(s, m))
    ensures Reaches(voice, f, f') && Follows(voice, Returned(s, m), f', ahead)
  {
    var t := s.threads[m];
    ReturningIsPossible(voice, s, m);
    if message :| t.pc.update == FailureUpdate(WhoIs(t), message) {
      f' := ReturnFailureFollows(voice, s, f, ahead, m, message);
    } else {
      var n, r :| Spoken(voice, s, m, t, t.pc.update, n, r);
      f' := ReturnSuccessFollows(voice, s, f, ahead, m, n, r);
    }
  }

  // Steps that move a checkpoint: the chair

  /** Both meetings move to the same next node. */
  ghost predicate MovedTogether(t': Thread, tf': Thread) {
    && t'.roster == tf'.roster && t'.graph == tf'.graph && t'.node == tf'.node && t'.pc == tf'.pc
    && !t'.pc.Returning? && !t'.pc.ReadBack?
  }

  lemma MovedThreadsMatch(s: World, f: World, m: Id, t': Thread, tf': Thread)
    requires ThreadsMatch(s, f) && MovedTogether(t', tf')
    ensures ThreadsMatch(Set(s, m, t'), Set(f, m, tf'))
  {
    forall x | x in Set(s, m, t').threads ensures SameCheckpoint(Set(s, m, t'), Set(f, m, tf'), x) {
      assert x != m ==> SameCheckpoint(s, f, x);
    }
  }

  lemma MovedTidy(s: World, m: Id, t': Thread)
    requires AllTidy(s) && !t'.pc.Returning? && (t'.node.Speaker? ==> TurnKeyOf(m, t') !in s.rows)
    ensures AllTidy(Set(s, m, t'))
  {
    forall x | x in Set(s, m, t').threads ensures Tidy(Set(s, m, t'), x) {
      assert x != m ==> Tidy(s, x);
    }
  }

  lemma MovedRest(f: World, m: Id, tf': Thread)
    requires AllRest(f) && Rests(Set(f, m, tf'), m)
    ensures AllRest(Set(f, m, tf'))
  {
    forall x | x in Set(f, m, tf').threads ensures Rests(Set(f, m, tf'), x) {
      assert x != m ==> Rests(f, x);
    }
  }

  lemma MovedNames(s: World, f: World, m: Id, t': Thread, tf': Thread)
    requires NamesMatch(s, f) && !t'.pc.Returning? && !t'.pc.ReadBack?
    requires t'.node.Speaker? ==> TurnKeyOf(m, t') !in s.rows
    ensures NamesMatch(Set(s, m, t'), Set(f, m, tf'))
  {
    var s', f' := Set(s, m, t'), Set(f, m, tf');
    forall k, n | Names(s', k, n) && n in f'.pods ensures Leads(f', k, n) {
      MovedName(s, m, t', k, n);
      assert Leads(f, k, n);
    }
  }

  lemma MovedName(s: World, m: Id, t': Thread, k: Key, n: Name)
    requires !t'.pc.Returning? && !t'.pc.ReadBack? && (t'.node.Speaker? ==> TurnKeyOf(m, t') !in s.rows)
    requires Names(Set(s, m, t'), k, n)
    ensures Names(s, k, n)
  {
  }

  lemma MovedNoStrayRows(f: World, m: Id, tf': Thread)
    requires NoStrayRows(f)
    ensures NoStrayRows(Set(f, m, tf'))
  {
  }

  lemma MovedSound(f: World, m: Id, tf': Thread)
    requires AllSound(f)
    ensures AllSound(Set(f, m, tf'))
  {
    forall k | k in f.leases ensures Sound(Set(f, m, tf'), k) {
      assert Sound(f, k);
    }
  }

  lemma MovedFollows(voice: Voice, s: World, f: World, ahead: set<Name>, m: Id, t': Thread, tf': Thread)
    requires Follows(voice, s, f, ahead) && MovedTogether(t', tf')
    requires t'.node.Speaker? ==> TurnKeyOf(m, t') !in s.rows
    requires Rests(Set(f, m, tf'), m)
    requires Inv(voice, Set(s, m, t')) && Inv(voice, Set(f, m, tf'))
    ensures Follows(voice, Set(s, m, t'), Set(f, m, tf'), ahead)
  {
    MovedThreadsMatch(s, f, m, t', tf');
    MovedTidy(s, m, t');
    MovedRest(f, m, tf');
    MovedNames(s, f, m, t', tf');
    MovedNoStrayRows(f, m, tf');
    MovedSound(f, m, tf');
  }

  lemma RecordedIsPast(voice: Voice, w: World, m: Id, turn: nat, a: Id)
    requires Inv(voice, w) && m in w.threads && TurnKey(m, turn, a) in w.rows
    ensures turn <= w.threads[m].graph.currentTurn
  {
    assert MeetingOk(voice, w, m);
    assert RowOk(voice, w, m, w.threads[m], turn, a);
  }

  /** A turn that has not begun is neither recorded nor remembered. */
  lemma FutureUnrecorded(voice: Voice, w: World, m: Id, turn: nat, a: Id)
    requires Inv(voice, w) && m in w.threads && turn > w.threads[m].graph.currentTurn
    ensures TurnKey(m, turn, a) !in w.rows
  {
    if TurnKey(m, turn, a) in w.rows {
      RecordedIsPast(voice, w, m, turn, a);
    }
  }

  lemma FutureUncached(voice: Voice, w: World, k: Key, turn: nat)
    requires Inv(voice, w) && k in w.leases && k.meeting in w.threads
    requires turn > w.threads[k.meeting].graph.currentTurn
    ensures Unasked(w, w.leases[k].sandbox, TurnKey(k.meeting, turn, k.agent))
  {
    var n := w.leases[k].sandbox;
    LeaseOwns(voice, w, k);
    PodOk(voice, w, n);
    PcFacts(voice, w, k.meeting);
    FutureForgotten(voice, w, n, k, turn);
  }

  lemma FutureForgotten(voice: Voice, w: World, n: Name, k: Key, turn: nat)
    requires CacheOk(voice, w, n) && w.pods[n].owner == k && k.meeting in w.threads && GoodId(k.meeting)
    requires turn > w.threads[k.meeting].graph.currentTurn
    ensures Cache.Lookup(w.pods[n].cache, TurnKey(k.meeting, turn, k.agent)).None?
  {
    var cache, key := w.pods[n].cache, TurnKey(k.meeting, turn, k.agent);
    forall i | 0 <= i < |cache| ensures cache[i].0 != key {
      var e := cache[i];
      assert e in cache && CachedBy(e, w.pods[n].persona);
      if e.0 == key {
        TurnKeyInjective(k.meeting, turn, k.agent, e.1.author.meeting, e.1.turn, e.1.author.agent);
      }
    }
  }

  lemma ChairDecidesFollows(voice: Voice, s: World, f: World, ahead: set<Name>, m: Id, replies: Replies)
    returns (f': World)
    requires Follows(voice, s, f, ahead) && CanConduct(s, m, ChairDecides(replies))
    requires Inv(voice, DoConduct(s, m, ChairDecides(replies)))
    ensures Reaches(voice, f, f') && Follows(voice, DoConduct(s, m, ChairDecides(replies)), f', ahead)
  {
    var t, tf := s.threads[m], f.threads[m];
    CalmAtChair(voice, s, f, ahead, m);
    var t', tf' := Routed(t, replies), Routed(tf, replies);
    f' := Set(f, m, tf');
    ConductOne(voice, f, m, ChairDecides(replies));
    ReachedInv(voice, f, f');
    RoutedRests(voice, f, m, replies);
    RoutedUnrecorded(voice, s, m, replies);
    MovedFollows(voice, s, f, ahead, m, t', tf');
  }

  lemma CalmAtChair(voice: Voice, s: World, f: World, ahead: set<Name>, m: Id)
    requires Follows(voice, s, f, ahead) && Driven(s, m) && s.threads[m].pc.AtChair?
    ensures Driven(f, m) && SameCheckpoint(s, f, m) && f.threads[m].node.Chair? && f.threads[m].pc.AtChair?
    ensures GoodRoster(f.threads[m].roster)
  {
    PcFacts(voice, s, m);
    assert Rests(f, m);
  }

  lemma RoutedUnrecorded(voice: Voice, w: World, m: Id, replies: Replies)
    requires Inv(voice, w) && m in w.threads && w.threads[m].pc.AtChair?
    ensures var t' := Routed(w.threads[m], replies); t'.node.Speaker? ==> TurnKeyOf(m, t') !in w.rows
    ensures var t' := Routed(w.threads[m], replies); !t'.pc.Returning? && !t'.pc.ReadBack?
  {
    var t' := Routed(w.threads[m], replies);
    PcFacts(voice, w, m);
    RoutedMovesOn(w.threads[m], replies);
    if t'.node.Speaker? {
      FutureUnrecorded(voice, w, m, t'.graph.currentTurn, t'.node.agent);
    }
  }

  lemma RoutedRests(voice: Voice, w: World, m: Id, replies: Replies)
    requires Inv(voice, w) && m in w.threads && w.threads[m].pc.AtChair?
    ensures Rests(Set(w, m, Routed(w.threads[m], replies)), m)
  {
    var t' := Routed(w.threads[m], replies);
    PcFacts(voice, w, m);
    RoutedMovesOn(w.threads[m], replies);
    if t'.node.Speaker? {
      FutureUnrecorded(voice, w, m, t'.graph.currentTurn, t'.node.agent);
      if KeyOf(m, t') in w.leases {
        FutureUncached(voice, w, KeyOf(m, t'), t'.graph.currentTurn);
      }
    }
  }

  lemma StartFollows(voice: Voice, s: World, f: World, ahead: set<Name>, m: Id, roster: seq<Attendee>, g: Graph)
    returns (f': World)
    requires Follows(voice, s, f, ahead) && CanConduct(s, m, Start(roster, g))
    requires Inv(voice, DoConduct(s, m, Start(roster, g)))
    ensures Reaches(voice, f, f') && Follows(voice, DoConduct(s, m, Start(roster, g)), f', ahead)
  {
    var t := Thread(roster, g, Chair, AtChair, NoWork, true);
    f' := Set(f, m, t);
    ConductOne(voice, f, m, Start(roster, g));
    ReachedInv(voice, f, f');
    MovedFollows(voice, s, f, ahead, m, t, t);
  }

  // Every step, every run

  lemma ClaimPodsGrow(w: World, m: Id, step: ClaimStep)
    requires CanClaim(w, m, step)
    ensures w.pods.Keys <= DoClaim(w, m, step).pods.Keys
  {
  }

  lemma AskPodsGrow(w: World, m: Id, step: AskStep)
    requires CanAsk(w, m, step)
    ensures w.pods.Keys <= DoAsk(w, m, step).pods.Keys
  {
    match step
    case DeleteTried => DeletePodsGrow(w, m);
    case Raise(error) => RaisePodsGrow(w, m, error);
    case LeaveRaises(error) => LeaveRaisesPodsGrow(w, m, error);
    case _ =>
  }

  lemma DeletePodsGrow(w: World, m: Id)
    requires CanAsk(w, m, DeleteTried)
    ensures w.pods.Keys <= DoAsk(w, m, DeleteTried).pods.Keys
  {
  }

  lemma RaisePodsGrow(w: World, m: Id, error: string)
    requires CanAsk(w, m, Raise(error))
    ensures w.pods.Keys <= DoAsk(w, m, Raise(error)).pods.Keys
  {
  }

  lemma LeaveRaisesPodsGrow(w: World, m: Id, error: string)
    requires CanAsk(w, m, LeaveRaises(error))
    ensures w.pods.Keys <= DoAsk(w, m, LeaveRaises(error)).pods.Keys
  {
  }

  lemma ServePodsGrow(voice: Voice, w: World, m: Id, step: ServeStep)
    requires CanServe(voice, w, m, step)
    ensures w.pods.Keys <= DoServe(voice, w, m, step).pods.Keys
  {
  }

  lemma ConductPodsGrow(w: World, m: Id, step: ConductStep)
    requires CanConduct(w, m, step)
    ensures w.pods.Keys <= DoConduct(w, m, step).pods.Keys
  {
  }

  lemma HappenPodsGrow(w: World, e: Fault)
    requires CanHappen(w, e)
    ensures w.pods.Keys <= DoHappen(w, e).pods.Keys
  {
  }

  lemma PodsGrow(voice: Voice, w: World, act: Action)
    requires Can(voice, w, act)
    ensures w.pods.Keys <= Do(voice, w, act).pods.Keys
  {
    match act
    case Claim(m, step) => ClaimPodsGrow(w, m, step);
    case Ask(m, step) => AskPodsGrow(w, m, step);
    case Serve(m, step) => ServePodsGrow(voice, w, m, step);
    case Conduct(m, step) => ConductPodsGrow(w, m, step);
    case Happens(e) => HappenPodsGrow(w, e);
  }

  lemma PodsGrowAlong(voice: Voice, w: World, acts: seq<Action>, w': World)
    requires Runs(voice, w, acts, w')
    ensures w.pods.Keys <= w'.pods.Keys
    decreases |acts|
  {
    if acts != [] {
      PodsGrow(voice, w, acts[0]);
      PodsGrowAlong(voice, Do(voice, w, acts[0]), acts[1..], w');
    }
  }

  /** Steps that move a checkpoint, or open a new one. */
  predicate Commits(act: Action) {
    (act.Ask? && act.ask.Return?) || (act.Conduct? && MovesCheckpoint(act.conduct))
  }

  lemma ConductFollows(voice: Voice, s: World, f: World, ahead: set<Name>, m: Id, step: ConductStep) returns (f': World)
    requires Follows(voice, s, f, ahead) && CanConduct(s, m, step) && MovesCheckpoint(step)
    requires Inv(voice, DoConduct(s, m, step))
    ensures Reaches(voice, f, f') && Follows(voice, DoConduct(s, m, step), f', ahead)
  {
    match step
    case Start(roster, g) => f' := StartFollows(voice, s, f, ahead, m, roster, g);
    case ChairDecides(replies) => f' := ChairDecidesFollows(voice, s, f, ahead, m, replies);
  }

  lemma ReturnedIsReturn(s: World, m: Id)
    requires CanAsk(s, m, Return)
    ensures DoAsk(s, m, Return) == Returned(s, m)
  {
  }

  lemma CommitFollows(voice: Voice, s: World, f: World, ahead: set<Name>, act: Action) returns (f': World)
    requires Follows(voice, s, f, ahead) && Can(voice, s, act) && Commits(act) && Inv(voice, Do(voice, s, act))
    ensures Reaches(voice, f, f') && Follows(voice, Do(voice, s, act), f', ahead)
  {
    match act
    case Ask(m, step) =>
      ReturnedIsReturn(s, m);
      f' := ReturnFollows(voice, s, f, ahead, m);
    case Conduct(m, step) => f' := ConductFollows(voice, s, f, ahead, m, step);
  }

  lemma QuietHushed(voice: Voice, s: World, f: World, act: Action)
    requires Inv(voice, s) && AllTidy(s) && Can(voice, s, act) && !Commits(act)
    requires act.Claim? && act.claim.Created? ==> act.claim.sandbox !in f.pods
    ensures Hushed(s, Do(voice, s, act), f)
  {
    match act
    case Claim(m, step) => ClaimHushed(voice, s, f, m, step);
    case Ask(m, step) => AskHushed(voice, s, f, m, step);
    case Serve(m, step) => ServeHushed(voice, s, f, m, step);
    case Conduct(m, step) => ConductHushed(voice, s, f, m, step);
    case Happens(e) => FaultHushed(s, f, e);
  }

  lemma CreatedIsNew(voice: Voice, s: World, f: World, ahead: set<Name>, act: Action)
    requires PodsMatch(s, f, ahead) && Can(voice, s, act) && act.Claim? && act.claim.Created?
    requires Do(voice, s, act).pods.Keys <= ahead
    ensures act.claim.sandbox !in f.pods
  {
    var n := act.claim.sandbox;
    assert n in Do(voice, s, act).pods && n !in s.pods;
  }

  lemma StepFollows(voice: Voice, s: World, f: World, ahead: set<Name>, act: Action) returns (f': World)
    requires Follows(voice, s, f, ahead) && Can(voice, s, act) && Do(voice, s, act).pods.Keys <= ahead
    ensures Reaches(voice, f, f') && Follows(voice, Do(voice, s, act), f', ahead)
  {
    StepKeeps(voice, s, act);
    if Commits(act) {
      f' := CommitFollows(voice, s, f, ahead, act);
    } else {
      if act.Claim? && act.claim.Created? {
        CreatedIsNew(voice, s, f, ahead, act);
      }
      f' := f;
      ReachesSelf(voice, f);
      QuietHushed(voice, s, f, act);
      HushedFollows(voice, s, Do(voice, s, act), f, ahead);
    }
  }

  lemma RunFollows(voice: Voice, s: World, acts: seq<Action>, w: World, f: World, ahead: set<Name>) returns (f': World)
    requires Follows(voice, s, f, ahead) && Runs(voice, s, acts, w) && w.pods.Keys <= ahead
    ensures Reaches(voice, f, f') && Follows(voice, w, f', ahead)
    decreases |acts|
  {
    if acts == [] {
      f' := f;
      ReachesSelf(voice, f);
    } else {
      var s1 := Do(voice, s, acts[0]);
      PodsGrowAlong(voice, s1, acts[1..], w);
      var f1 := StepFollows(voice, s, f, ahead, acts[0]);
      f' := RunFollows(voice, s1, acts[1..], w, f1, ahead);
      ReachesTrans(voice, f, f1, f');
    }
  }

  /** The same meetings stand at the same place with the same state. */
  ghost predicate SameMeetings(w: World, w': World) {
    w'.threads.Keys == w.threads.Keys && forall m :: m in w.threads ==> SameCheckpoint(w, w', m)
  }

  lemma InitialInv(voice: Voice)
    ensures Inv(voice, Initial)
  {
  }

  /** Crash transparency: wherever a run arrives, through any number of backend crashes,
      lost or restarted sandboxes, failing stores, replays and meetings that interleave,
      a run without any of these brings every meeting to the same node with exactly the
      same state. */
  lemma CrashTransparency(voice: Voice, acts: seq<Action>, w: World)
    requires Runs(voice, Initial, acts, w)
    ensures exists calm, w' :: Calm(calm) && Runs(voice, Initial, calm, w') && SameMeetings(w, w')
  {
    InitialInv(voice);
    var w' := RunFollows(voice, Initial, acts, w, Initial, w.pods.Keys);
    var calm :| Runs(voice, Initial, calm, w') && Calm(calm);
    assert SameMeetings(w, w');
  }
}