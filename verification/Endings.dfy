/** What becomes of a meeting's leases when it ends, over every run and everything that may
    happen after the end. */
module Endings {
  import opened Wrappers
  import opened State
  import opened Supervisor
  import opened Meeting
  import opened Machine
  import opened Invariant
  import opened Preservation
  import opened Transparency
  import opened History
  import opened Paths
  import opened Guarantees

  /** The executor has tried to store the meeting's status, and the meeting is not running. */
  predicate Over(w: World, m: Id) {
    && m in w.threads && var t := w.threads[m];
    Ended(t.pc) || t.pc.Handling? || t.pc.Releasing? || t.pc.Halted?
  }

  /** Over, and never to be resumed. */
  predicate Final(w: World, m: Id) {
    && m in w.threads && var t := w.threads[m];
    Ended(t.pc) || (!t.live && (t.pc.Releasing? || t.pc.Halted?))
  }

  /** The meeting's leases are exactly what they were. */
  ghost predicate SameLeases(w: World, w': World, m: Id) {
    forall k: Key :: k.meeting == m ==> (k in w'.leases <==> k in w.leases) && (k in w.leases ==> w'.leases[k] == w.leases[k])
  }

  /** What was final is final still, and an ended meeting stands as it ended. */
  predicate StaysPut(w: World, w': World, m: Id)
    requires Over(w, m)
  {
    && Over(w', m) && (Final(w, m) ==> Final(w', m))
    && (Ended(w.threads[m].pc) ==> w'.threads[m].pc == w.threads[m].pc)
    && (!w.threads[m].live ==> !w'.threads[m].live)
  }

  /** Over, and holding what it held. */
  ghost predicate StaysOver(w: World, w': World, m: Id) {
    && Over(w, m) && StaysPut(w, w', m) && SameLeases(w, w', m)
    && (w'.threads[m].pc.Halted? ==> w.threads[m].pc.Halted?)
  }

  lemma ClaimAfter(w: World, x: Id, step: ClaimStep, m: Id)
    requires Over(w, m) && CanClaim(w, x, step)
    ensures StaysOver(w, DoClaim(w, x, step), m)
  {
  }

  lemma AskAfter(w: World, x: Id, step: AskStep, m: Id)
    requires Over(w, m) && CanAsk(w, x, step)
    ensures StaysOver(w, DoAsk(w, x, step), m)
  {
    match step
    case Raise(error) => RaiseAfter(w, x, error, m);
    case LeaveRaises(error) => LeaveAfter(w, x, error, m);
    case DeleteTried => DeleteAfter(w, x, m);
    case _ =>
  }

  lemma RaiseAfter(w: World, x: Id, error: string, m: Id)
    requires Over(w, m) && CanAsk(w, x, Raise(error))
    ensures StaysOver(w, DoAsk(w, x, Raise(error)), m)
  {
  }

  lemma LeaveAfter(w: World, x: Id, error: string, m: Id)
    requires Over(w, m) && CanAsk(w, x, LeaveRaises(error))
    ensures StaysOver(w, DoAsk(w, x, LeaveRaises(error)), m)
  {
  }

  lemma DeleteAfter(w: World, x: Id, m: Id)
    requires Over(w, m) && CanAsk(w, x, DeleteTried)
    ensures StaysOver(w, DoAsk(w, x, DeleteTried), m)
  {
  }

  lemma ServeAfter(voice: Voice, w: World, x: Id, step: ServeStep, m: Id)
    requires Over(w, m) && CanServe(voice, w, x, step)
    ensures StaysOver(w, DoServe(voice, w, x, step), m)
  {
  }

  lemma ConductAfter(w: World, x: Id, step: ConductStep, m: Id)
    requires Over(w, m) && CanConduct(w, x, step)
    ensures x != m ==> StaysOver(w, DoConduct(w, x, step), m)
    ensures x == m ==> step.ReleaseOne? || step.Released? || step.Handled? || step.Resume?
  {
  }

  lemma ReleaseAfter(w: World, step: ConductStep, m: Id)
    requires Over(w, m) && CanConduct(w, m, step) && (step.ReleaseOne? || step.Released? || step.Handled?)
    ensures StaysOver(w, DoConduct(w, m, step), m)
  {
  }

  lemma FaultAfter(w: World, e: Fault, m: Id)
    requires Over(w, m) && CanHappen(w, e) && !e.Crash?
    ensures StaysOver(w, DoHappen(w, e), m)
  {
  }

  lemma StepAfter(voice: Voice, w: World, act: Action, m: Id)
    requires Over(w, m) && Can(voice, w, act) && act != Happens(Crash) && act != Conduct(m, Resume)
    ensures StaysOver(w, Do(voice, w, act), m)
  {
    match act
    case Claim(x, step) => ClaimAfter(w, x, step, m);
    case Ask(x, step) => AskAfter(w, x, step, m);
    case Serve(x, step) => ServeAfter(voice, w, x, step, m);
    case Conduct(x, step) =>
      ConductAfter(w, x, step, m);
      if x == m {
        ReleaseAfter(w, step, m);
      }
    case Happens(e) => FaultAfter(w, e, m);
  }

  /** A crash takes the lease table with it, and leaves everything on it an orphan. */
  lemma CrashAfter(voice: Voice, w: World, m: Id)
    requires Inv(voice, w) && Over(w, m) && w.up
    ensures var w' := Crashed(w);
            && StaysPut(w, w', m) && NoLeases(w', m)
            && forall k :: k in w.leases ==> w.leases[k].sandbox in w'.orphans
  {
    forall k | k in w.leases ensures w.leases[k].sandbox in Crashed(w).orphans {
      LeaseOwns(voice, w, k);
      assert OnLease(w, w.leases[k].sandbox);
    }
  }

  lemma OrphansStay(voice: Voice, w: World, act: Action)
    requires Inv(voice, w) && Can(voice, w, act)
    ensures w.orphans <= Do(voice, w, act).orphans
  {
    if act.Happens? && act.fault.Startup? {
      StartedFrame(w, act.fault.reaped, act.fault.listing);
    } else {
      StepUnswept(voice, w, act);
      forall n | n in w.orphans ensures n in Do(voice, w, act).orphans {
        assert LostStaysLost(w, Do(voice, w, act), n);
      }
    }
  }

  /** Whatever happens while a meeting is over, one thing decides what it still holds: whether
      the backend crashed. */
  ghost predicate Aftermath(w: World, acts: seq<Action>, w': World, m: Id) {
    && Over(w, m) && StaysPut(w, w', m) && w.orphans <= w'.orphans
    && (Happens(Crash) !in acts ==> SameLeases(w, w', m))
    && (Happens(Crash) in acts ==>
          NoLeases(w', m) && forall k :: k in w.leases && k.meeting == m ==> w.leases[k].sandbox in w'.orphans)
  }

  lemma AftermathOn(w: World, w1: World, acts: seq<Action>, w': World, m: Id)
    requires StaysOver(w, w1, m) && Aftermath(w1, acts, w', m) && w.orphans <= w1.orphans
    ensures Aftermath(w, acts, w', m)
  {
  }

  lemma {:induction false} Afterwards(voice: Voice, w: World, acts: seq<Action>, w': World, m: Id)
    requires Inv(voice, w) && Over(w, m) && Runs(voice, w, acts, w') && Conduct(m, Resume) !in acts
    ensures Aftermath(w, acts, w', m)
    decreases |acts|
  {
    if acts != [] {
      var act, rest := acts[0], acts[1..];
      var w1 := Do(voice, w, act);
      assert act in acts;
      StepKeeps(voice, w, act);
      OrphansStay(voice, w, act);
      if act == Happens(Crash) {
        CrashAfter(voice, w, m);
        Afterwards(voice, w1, rest, w', m);
      } else {
        StepAfter(voice, w, act, m);
        Afterwards(voice, w1, rest, w', m);
        AftermathOn(w, w1, rest, w', m);
        assert Happens(Crash) in acts <==> Happens(Crash) in rest;
      }
    }
  }

  /** What is final is never resumed. */
  lemma {:induction false} NeverResumed(voice: Voice, w: World, acts: seq<Action>, w': World, m: Id)
    requires Inv(voice, w) && Final(w, m) && Runs(voice, w, acts, w')
    ensures Conduct(m, Resume) !in acts
    decreases |acts|
  {
    if acts != [] {
      var act := acts[0];
      StepKeeps(voice, w, act);
      if act == Happens(Crash) {
        CrashAfter(voice, w, m);
      } else {
        StepAfter(voice, w, act, m);
      }
      NeverResumed(voice, Do(voice, w, act), acts[1..], w', m);
    }
  }

  /** Only a crash gives a meeting that is over back to whoever might resume it. */
  lemma {:induction false} ResumedAfterCrash(voice: Voice, w: World, acts: seq<Action>, w': World, m: Id)
    requires Inv(voice, w) && Over(w, m) && !w.threads[m].pc.Halted? && Runs(voice, w, acts, w')
    ensures Conduct(m, Resume) in acts ==> Happens(Crash) in acts
    decreases |acts|
  {
    if acts != [] && acts[0] != Happens(Crash) {
      var act := acts[0];
      StepKeeps(voice, w, act);
      StepAfter(voice, w, act, m);
      ResumedAfterCrash(voice, Do(voice, w, act), acts[1..], w', m);
    }
  }

  /** A meeting whose status the executor stores at the first try holds nothing from then on. One
      for which that raises keeps every lease it held at that moment, whatever its handler then
      stores, through everything that may follow until the backend crashes; then their sandboxes
      are orphans. So a meeting holds no lease, at any time after that until it is resumed, if and
      only if the first store succeeded, or it held none, or the backend has crashed since; and it
      is resumed only if the first store raised and the backend crashed. */
  lemma LeasesGoWithTheFirstStore(voice: Voice, acts: seq<Action>, w: World, m: Id, ok: bool, after: seq<Action>, w': World)
    requires Runs(voice, Initial, acts, w) && CanConduct(w, m, Persist(ok))
    requires Runs(voice, DoConduct(w, m, Persist(ok)), after, w')
    ensures Conduct(m, Resume) in after ==> !ok && Happens(Crash) in after
    ensures Conduct(m, Resume) !in after ==>
              && (NoLeases(w', m) <==> ok || NoLeases(w, m) || Happens(Crash) in after)
              && (!ok && Happens(Crash) !in after ==> SameLeases(w, w', m))
              && (!ok && Happens(Crash) in after ==>
                    forall k :: k in w.leases && k.meeting == m ==> w.leases[k].sandbox in w'.orphans)
  {
    var w1 := DoConduct(w, m, Persist(ok));
    ReachableNow(voice, acts, w);
    PersistKeeps(voice, w, m, ok);
    Persisted(w, m, ok);
    if ok {
      NeverResumed(voice, w1, after, w', m);
    }
    ResumedAfterCrash(voice, w1, after, w', m);
    if Conduct(m, Resume) !in after {
      Afterwards(voice, w1, after, w', m);
      LeasesSame(w1, w', m, Happens(Crash) in after);
    }
  }

  lemma Persisted(w: World, m: Id, ok: bool)
    requires CanConduct(w, m, Persist(ok))
    ensures var w' := DoConduct(w, m, Persist(ok));
            && Over(w', m) && !w'.threads[m].pc.Halted?
            && (if ok then Final(w', m) && NoLeases(w', m) else w'.leases == w.leases)
  {
  }

  lemma LeasesSame(w: World, w': World, m: Id, crashed: bool)
    requires if crashed then NoLeases(w', m) else SameLeases(w, w', m)
    ensures NoLeases(w', m) <==> NoLeases(w, m) || crashed
  {
    if !crashed && NoLeases(w', m) {
      forall k | k in w.leases ensures k.meeting != m {
        assert k.meeting == m ==> k in w'.leases;
      }
    }
  }

  /** The handler of a raising store releases nothing, though it may well store a status: the
      meeting is abandoned for good, it counts as live no more if its failure was stored, and it
      still holds exactly what it held, at any later time, until the backend crashes. */
  lemma HandlerReleasesNothing(voice: Voice, acts: seq<Action>, w: World, m: Id, stored: bool, after: seq<Action>, w': World)
    requires Runs(voice, Initial, acts, w) && CanConduct(w, m, Handled(stored))
    requires Runs(voice, DoConduct(w, m, Handled(stored)), after, w')
    ensures m in w'.threads && w'.threads[m].pc.Abandoned? && (stored ==> !w'.threads[m].live)
    ensures NoLeases(w', m) <==> NoLeases(w, m) || Happens(Crash) in after
    ensures Happens(Crash) !in after ==> SameLeases(w, w', m)
    ensures Happens(Crash) in after ==>
              forall k :: k in w.leases && k.meeting == m ==> w.leases[k].sandbox in w'.orphans
  {
    var w1 := DoConduct(w, m, Handled(stored));
    ReachableNow(voice, acts, w);
    HandledKeeps(voice, w, m, stored);
    assert w1.leases == w.leases && Final(w1, m) && Over(w1, m);
    NeverResumed(voice, w1, after, w', m);
    Afterwards(voice, w1, after, w', m);
    LeasesSame(w1, w', m, Happens(Crash) in after);
  }

  // Which meetings are abandoned

  predicate Abandoned(w: World, m: Id) {
    m in w.threads && w.threads[m].pc.Abandoned?
  }

  /** Past a store of its status that raised. */
  predicate Unstored(w: World, m: Id) {
    m in w.threads && (w.threads[m].pc.Handling? || w.threads[m].pc.Abandoned?)
  }

  /** No step but the executor's own leads there. */
  predicate NoNearer(w: World, w': World, m: Id) {
    (Abandoned(w', m) <==> Abandoned(w, m)) && (Unstored(w', m) ==> Unstored(w, m))
  }

  lemma ClaimNoNearer(w: World, x: Id, step: ClaimStep, m: Id)
    requires CanClaim(w, x, step)
    ensures NoNearer(w, DoClaim(w, x, step), m)
  {
  }

  lemma AskNoNearer(w: World, x: Id, step: AskStep, m: Id)
    requires CanAsk(w, x, step)
    ensures NoNearer(w, DoAsk(w, x, step), m)
  {
    match step
    case Raise(error) => RaiseNoNearer(w, x, error, m);
    case LeaveRaises(error) => LeaveNoNearer(w, x, error, m);
    case DeleteTried => DeleteNoNearer(w, x, m);
    case _ =>
  }

  lemma RaiseNoNearer(w: World, x: Id, error: string, m: Id)
    requires CanAsk(w, x, Raise(error))
    ensures NoNearer(w, DoAsk(w, x, Raise(error)), m)
  {
  }

  lemma LeaveNoNearer(w: World, x: Id, error: string, m: Id)
    requires CanAsk(w, x, LeaveRaises(error))
    ensures NoNearer(w, DoAsk(w, x, LeaveRaises(error)), m)
  {
  }

  lemma DeleteNoNearer(w: World, x: Id, m: Id)
    requires CanAsk(w, x, DeleteTried)
    ensures NoNearer(w, DoAsk(w, x, DeleteTried), m)
  {
  }

  lemma ServeNoNearer(voice: Voice, w: World, x: Id, step: ServeStep, m: Id)
    requires CanServe(voice, w, x, step)
    ensures NoNearer(w, DoServe(voice, w, x, step), m)
  {
  }

  lemma ConductNearer(w: World, x: Id, step: ConductStep, m: Id)
    requires CanConduct(w, x, step)
    ensures var w' := DoConduct(w, x, step);
            && (Abandoned(w', m) <==> Abandoned(w, m) || (x == m && step.Handled?))
            && (Unstored(w', m) ==> Unstored(w, m) || (x == m && step == Persist(false)))
            && (x == m && step.Handled? ==> Unstored(w, m))
  {
  }

  lemma StepNearer(voice: Voice, w: World, act: Action, m: Id)
    requires Can(voice, w, act)
    ensures var w' := Do(voice, w, act);
            && (Abandoned(w', m) <==> Abandoned(w, m) || act == Conduct(m, Handled(true)) || act == Conduct(m, Handled(false)))
            && (Unstored(w', m) ==> Unstored(w, m) || act == Conduct(m, Persist(false)))
  {
    match act
    case Claim(x, step) => ClaimNoNearer(w, x, step, m);
    case Ask(x, step) => AskNoNearer(w, x, step, m);
    case Serve(x, step) => ServeNoNearer(voice, w, x, step, m);
    case Conduct(x, step) =>
      ConductNearer(w, x, step, m);
      assert step.Handled? ==> step == Handled(true) || step == Handled(false);
    case Happens(_) =>
  }

  /** A meeting is abandoned exactly when, somewhere along the run, a handler finished with it;
      and only after storing its status had failed. */
  lemma {:induction false} AbandonedExactly(voice: Voice, acts: seq<Action>, w: World, m: Id)
    requires Runs(voice, Initial, acts, w)
    ensures Abandoned(w, m) <==> Conduct(m, Handled(true)) in acts || Conduct(m, Handled(false)) in acts
    ensures Unstored(w, m) ==> Conduct(m, Persist(false)) in acts
    decreases |acts|
  {
    if acts != [] {
      var mid := RunsSnoc(voice, Initial, acts, w);
      var earlier, act := acts[..|acts| - 1], acts[|acts| - 1];
      AbandonedExactly(voice, earlier, mid, m);
      StepNearer(voice, mid, act, m);
      InSnoc(acts, Conduct(m, Handled(true)));
      InSnoc(acts, Conduct(m, Handled(false)));
      InSnoc(acts, Conduct(m, Persist(false)));
    }
  }

  lemma InSnoc(acts: seq<Action>, act: Action)
    requires acts != []
    ensures act in acts <==> act in acts[..|acts| - 1] || act == acts[|acts| - 1]
  {
    assert acts == acts[..|acts| - 1] + [acts[|acts| - 1]];
  }

  /** A meeting that has ended and still holds a lease is one whose status could not be stored at
      the first try, on a backend that is up. */
  lemma HoldingAfterTheEnd(voice: Voice, acts: seq<Action>, w: World, m: Id)
    requires Runs(voice, Initial, acts, w) && m in w.threads && Ended(w.threads[m].pc) && !NoLeases(w, m)
    ensures w.threads[m].pc.Abandoned? && Conduct(m, Persist(false)) in acts && w.up
  {
    ReachableNow(voice, acts, w);
    if w.threads[m].pc.Done? {
      DoneHoldsNothing(voice, w, m);
    }
    AbandonedExactly(voice, acts, w, m);
  }

  // It happens

  /** The chair raises, the status cannot be stored, and the handler stores a failure. */
  lemma CloseUnstored(voice: Voice, w: World, m: Id, k: Key) returns (w': World)
    requires Driven(w, m) && w.threads[m].pc.AtChair? && k in w.leases && k.meeting == m
    ensures Reaches(voice, w, w') && k in w'.leases
    ensures m in w'.threads && w'.threads[m].pc.Abandoned? && !w'.threads[m].live
  {
    var w1, w2 := Goto(w, m, Closing), Goto(w, m, Handling);
    ConductOne(voice, w, m, ChairRaises);
    ConductOne(voice, w1, m, Persist(false));
    assert DoConduct(w1, m, Persist(false)).threads == w2.threads;
    ReachesTrans(voice, w, w1, w2);
    w' := Set(w2, m, GivenUpOn(w2.threads[m], true));
    ConductOne(voice, w2, m, Handled(true));
    ReachesTrans(voice, w, w2, w');
  }

  /** Held after the end, and held on to until a crash. */
  ghost predicate HoldsOn(voice: Voice, w: World, m: Id, k: Key) {
    && m in w.threads && w.threads[m].pc.Abandoned? && k in w.leases && k.meeting == m
    && forall more, w' :: Runs(voice, w, more, w') && Happens(Crash) !in more ==> k in w'.leases && w'.leases[k] == w.leases[k]
  }

  lemma AbandonedHoldsOn(voice: Voice, acts: seq<Action>, w: World, m: Id, k: Key)
    requires Runs(voice, Initial, acts, w)
    requires m in w.threads && w.threads[m].pc.Abandoned? && k in w.leases && k.meeting == m
    ensures HoldsOn(voice, w, m, k)
  {
    ReachableNow(voice, acts, w);
    forall more, w' | Runs(voice, w, more, w') && Happens(Crash) !in more ensures k in w'.leases && w'.leases[k] == w.leases[k] {
      NeverResumed(voice, w, more, w', m);
      Afterwards(voice, w, more, w', m);
    }
  }

  /** There is a run with no crash, no lost sandbox, no failing turn store and no raising close, in
      which a meeting ends with its status stored as failed, and holding a lease that nothing
      short of a crash will ever take from it. */
  lemma AbandonedMeetingKeepsLeases(voice: Voice)
    ensures exists acts, w, m, k :: && Runs(voice, Initial, acts, w) && Calm(acts)
                                    && HoldsOn(voice, w, m, k) && !w.threads[m].live
  {
    var w, m := OneMeetingOpens(voice);
    var k := KeyOf(m, w.threads[m]);
    var w1 := FailurePath(voice, w, m, "x", "");
    var w2 := CloseUnstored(voice, w1, m, k);
    ReachesTrans(voice, Initial, w, w1);
    ReachesTrans(voice, Initial, w1, w2);
    var acts :| Runs(voice, Initial, acts, w2) && Calm(acts);
    AbandonedHoldsOn(voice, acts, w2, m, k);
  }
}
