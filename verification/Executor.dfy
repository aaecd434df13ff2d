/** Driving a meeting to its end, and cleaning up after a backend that never got there. */
module Executor {
  import opened Wrappers
  import opened State
  import opened Machine
  import opened Invariant
  import opened Preservation
  import opened Manager
  import opened AgentNode

  /** An event of the meeting's stream, as far as the executor looks at it. */
  datatype Item = Item(kind: string, conclusion: bool, reasoning: string)

  const COMPLETED := Item("meeting_completed", false, "")

  class MeetingRow {
    var status: string
    var log: seq<Item>
    var summary: Option<string>
  }

  predicate Concludes(e: Item) {
    e.conclusion && e.reasoning != ""
  }

  /** The summary is that of the last conclusion which gives a reason. */
  ghost predicate IsSummary(stream: seq<Item>, summary: Option<string>) {
    match summary
    case None => forall i :: 0 <= i < |stream| ==> !Concludes(stream[i])
    case Some(reason) =>
      exists i :: 0 <= i < |stream| && Concludes(stream[i]) && stream[i].reasoning == reason
                  && forall j :: i < j < |stream| ==> !Concludes(stream[j])
  }

  ghost predicate HasError(stream: seq<Item>) {
    exists i :: 0 <= i < |stream| && stream[i].kind == "error"
  }

  /** A stored summary is replaced by the stream's, if it has one. */
  ghost predicate SummaryKept(stream: seq<Item>, before: Option<string>, after: Option<string>) {
    (IsSummary(stream, None) && after == before) || (after.Some? && IsSummary(stream, after))
  }

  /** The executor drains the stream, stores how it ended, and only then hands the
      sandboxes back: if storing raises, the leases stay, and nothing is announced. */
  method Execute(m: Id, stream: seq<Item>, storeRaises: bool, row: MeetingRow, manager: SandboxManager, cluster: Cluster)
    returns (emitted: seq<Item>, raised: bool)
    modifies row, manager, cluster
    ensures raised == storeRaises
    ensures raised ==> emitted == stream && unchanged(row) && unchanged(manager) && unchanged(cluster)
    ensures !raised ==>
              && row.status == (if HasError(stream) then "failed" else "completed")
              && row.log == stream
              && SummaryKept(stream, old(row.summary), row.summary)
              && emitted == stream + (if HasError(stream) then [] else [COMPLETED])
              && manager.leases == Without(old(manager.leases), m)
              && cluster.pods.Keys == old(cluster.pods).Keys
              && (forall n :: n in cluster.pods ==>
                    cluster.pods[n] == Asked(old(cluster.pods)[n],
                                             |Holders(old(manager.leases), LeasedIn(old(manager.leases), m), n)|))
  {
    var failed, summary := false, None;
    emitted, raised := [], storeRaises;
    for i := 0 to |stream|
      modifies {}
      invariant emitted == stream[..i]
      invariant failed <==> HasError(stream[..i])
      invariant IsSummary(stream[..i], summary)
    {
      SummaryStep(stream, i, summary);
      if stream[i].kind == "error" {
        assert stream[..i + 1][i].kind == "error";
        failed := true;
      } else {
        ErrorStep(stream, i);
      }
      if Concludes(stream[i]) {
        summary := Some(stream[i].reasoning);
      }
      emitted := emitted + [stream[i]];
    }
    assert stream[..|stream|] == stream;
    if storeRaises {
      return;
    }
    row.status := if failed then "failed" else "completed";
    row.log := emitted;
    if summary.Some? {
      row.summary := summary;
    }
    assert SummaryKept(stream, old(row.summary), row.summary);
    manager.ReleaseMeeting(m, cluster);
    if !failed {
      emitted := emitted + [COMPLETED];
    }
  }

  lemma ErrorStep(stream: seq<Item>, i: nat)
    requires i < |stream| && stream[i].kind != "error"
    ensures HasError(stream[..i + 1]) <==> HasError(stream[..i])
  {
    var longer, shorter := stream[..i + 1], stream[..i];
    if HasError(longer) {
      var j :| 0 <= j < |longer| && longer[j].kind == "error";
      assert shorter[j].kind == "error";
    }
    if HasError(shorter) {
      var j :| 0 <= j < |shorter| && shorter[j].kind == "error";
      assert longer[j].kind == "error";
    }
  }

  lemma SummaryStep(stream: seq<Item>, i: nat, summary: Option<string>)
    requires i < |stream| && IsSummary(stream[..i], summary)
    ensures IsSummary(stream[..i + 1], if Concludes(stream[i]) then Some(stream[i].reasoning) else summary)
  {
    var longer, shorter := stream[..i + 1], stream[..i];
    if Concludes(stream[i]) {
      assert longer[i] == stream[i];
    } else if summary.Some? {
      var k :| 0 <= k < |shorter| && Concludes(shorter[k]) && shorter[k].reasoning == summary.value
               && forall j :: k < j < |shorter| ==> !Concludes(shorter[j]);
      assert Concludes(longer[k]);
      forall j | k < j < |longer| ensures !Concludes(longer[j]) {
        assert j < i ==> longer[j] == shorter[j];
      }
    } else {
      forall j | 0 <= j < |longer| ensures !Concludes(longer[j]) {
        assert j < i ==> longer[j] == shorter[j];
      }
    }
  }

  // The end of a meeting, as the machine has it

  lemma Conducts(voice: Voice, w: World, m: Id, step: ConductStep)
    requires CanConduct(w, m, step)
    ensures Goes(voice, w, DoConduct(w, m, step), m)
  {
    GoesStep(voice, w, Conduct(m, step), m);
  }

  /** Each of the given sandboxes was asked to go, once. */
  function AllCounted(pods: map<Name, Pod>, names: set<Name>): map<Name, Pod> {
    map n | n in pods :: if n in names then Counted(pods[n]) else pods[n]
  }

  /** The thread stands at `pc`, and nothing but it and the sandboxes has changed. */
  ghost predicate Standing(w: World, w': World, m: Id, pc: Pc) {
    && m in w.threads && m in w'.threads && w'.threads[m].pc == pc
    && w'.threads == w.threads[m := w'.threads[m]] && w'.rows == w.rows && w'.orphans == w.orphans
    && (!w.threads[m].live ==> !w'.threads[m].live)
  }

  lemma DrainGoes(voice: Voice, w: World, m: Id) returns (w': World)
    requires Driven(w, m) && w.threads[m].pc.Releasing? && w.threads[m].pc.todo <= w.pods.Keys
    ensures Goes(voice, w, w', m) && Standing(w, w', m, Done)
    ensures w'.leases == w.leases && w'.pods == AllCounted(w.pods, w.threads[m].pc.todo)
    decreases w.threads[m].pc.todo
  {
    var todo := w.threads[m].pc.todo;
    if todo == {} {
      w' := Goto(w, m, Done);
      Conducts(voice, w, m, Released);
      assert w'.pods == AllCounted(w.pods, todo);
    } else {
      var n :| n in todo;
      var w1 := Goto(CountRelease(w, n), m, Releasing(todo - {n}));
      Conducts(voice, w, m, ReleaseOne(n));
      w' := DrainGoes(voice, w1, m);
      GoesOn(voice, w, w1, w', m);
      CountedOneMore(w.pods, todo, n);
      assert w'.threads == w.threads[m := w'.threads[m]];
    }
  }

  lemma CountedOneMore(pods: map<Name, Pod>, names: set<Name>, n: Name)
    requires n in names && n in pods
    ensures AllCounted(pods[n := Counted(pods[n])], names - {n}) == AllCounted(pods, names)
  {
  }

  lemma ReleaseGoes(voice: Voice, w: World, m: Id) returns (w': World)
    requires Inv(voice, w) && CanConduct(w, m, Persist(true))
    ensures Goes(voice, w, w', m) && Standing(w, w', m, Done)
    ensures !w'.threads[m].live
    ensures w'.leases == Manager.Without(w.leases, m) && w'.pods == AllCounted(w.pods, MeetingSandboxes(w, m))
  {
    var w1 := DoConduct(w, m, Persist(true));
    Conducts(voice, w, m, Persist(true));
    LeasedSandboxes(voice, w, m);
    w' := DrainGoes(voice, w1, m);
    GoesOn(voice, w, w1, w', m);
    assert w'.threads == w.threads[m := w'.threads[m]];
  }

  lemma LeasedSandboxes(voice: Voice, w: World, m: Id)
    requires Inv(voice, w)
    ensures MeetingSandboxes(w, m) <= w.pods.Keys
  {
    forall n | n in MeetingSandboxes(w, m) ensures n in w.pods {
      var k :| k in w.leases && k.meeting == m && w.leases[k].sandbox == n;
      LeaseOwns(voice, w, k);
    }
  }

  /** No two leases share a sandbox, so one request per lease is one per sandbox. */
  lemma HeldOnce(voice: Voice, w: World, m: Id, n: Name)
    requires Inv(voice, w)
    ensures |Holders(w.leases, LeasedIn(w.leases, m), n)| == if n in MeetingSandboxes(w, m) then 1 else 0
  {
    var holders := Holders(w.leases, LeasedIn(w.leases, m), n);
    if n in MeetingSandboxes(w, m) {
      var k :| k in w.leases && k.meeting == m && w.leases[k].sandbox == n;
      forall k' | k' in holders ensures k' == k {
        LeaseOwns(voice, w, k);
        LeaseOwns(voice, w, k');
      }
      assert holders == {k};
    } else {
      assert holders == {};
    }
  }

  lemma AskedOnce(voice: Voice, w: World, m: Id, pods: map<Name, Pod>)
    requires Inv(voice, w) && pods.Keys == w.pods.Keys
    requires forall n :: n in pods ==> pods[n] == Asked(w.pods[n], |Holders(w.leases, LeasedIn(w.leases, m), n)|)
    ensures pods == AllCounted(w.pods, MeetingSandboxes(w, m))
  {
    forall n | n in pods ensures pods[n] == AllCounted(w.pods, MeetingSandboxes(w, m))[n] {
      HeldOnce(voice, w, m, n);
    }
  }

  lemma HandlerGoes(voice: Voice, w: World, m: Id, stored: bool) returns (w': World)
    requires CanConduct(w, m, Persist(false))
    ensures Goes(voice, w, w', m) && Standing(w, w', m, Abandoned)
    ensures w'.leases == w.leases && w'.pods == w.pods && (stored ==> !w'.threads[m].live)
  {
    var w1 := Goto(w, m, Handling);
    Conducts(voice, w, m, Persist(false));
    w' := Set(w1, m, GivenUpOn(w1.threads[m], stored));
    Conducts(voice, w1, m, Handled(stored));
    GoesOn(voice, w, w1, w', m);
    assert w'.threads == w.threads[m := w'.threads[m]];
  }

  /** What the handler of a raising store reports, once it has stored the failure. */
  const UNAVAILABLE := Item("error", false, "")

  /** With the durable checkpointer, whatever raised is caught, a failure is stored, and an error
      is reported; storing may raise once more. Without it nothing is caught. */
  method Handle(durable: bool, failureRaises: bool, row: MeetingRow) returns (emitted: seq<Item>, stored: bool)
    modifies row
    ensures stored == (durable && !failureRaises)
    ensures stored ==> row.status == "failed" && row.log == old(row.log) && row.summary == old(row.summary)
    ensures !stored ==> unchanged(row)
    ensures emitted == if stored then [UNAVAILABLE] else []
  {
    emitted, stored := [], durable && !failureRaises;
    if stored {
      row.status := "failed";
      emitted := [UNAVAILABLE];
    }
  }

  /** The executor's last steps are steps of the machine: with the status stored the meeting is
      drained. If storing raises, its handler may store a failure instead; the meeting is
      abandoned all the same, every lease is where it was, and nothing is announced. */
  method Finish(backend: Backend, m: Id, stream: seq<Item>, storeRaises: bool, durable: bool, failureRaises: bool,
                row: MeetingRow, ghost w: World)
    returns (emitted: seq<Item>, stored: bool, ghost w': World)
    requires backend.Mirrors(w) && Inv(backend.voice, w) && Driven(w, m) && w.threads[m].pc.Closing?
    modifies row, backend.manager, backend.cluster
    ensures backend.Mirrors(w') && Goes(backend.voice, w, w', m)
    ensures Standing(w, w', m, if storeRaises then Abandoned else Done)
    ensures stored == (!storeRaises || (durable && !failureRaises))
    ensures stored ==> !w'.threads[m].live && row.status in {"failed", "completed"}
    ensures storeRaises ==> w'.leases == w.leases && w'.pods == w.pods
    ensures storeRaises ==> emitted == stream + (if stored then [UNAVAILABLE] else [])
  {
    var raised;
    emitted, raised := Execute(m, stream, storeRaises, row, backend.manager, backend.cluster);
    if raised {
      var report;
      report, stored := Handle(durable, failureRaises, row);
      emitted := emitted + report;
      w' := HandlerGoes(backend.voice, w, m, stored);
    } else {
      stored := true;
      AskedOnce(backend.voice, w, m, backend.cluster.pods);
      w' := ReleaseGoes(backend.voice, w, m);
    }
  }

  // After a restart

  const LIVE := {"queued", "running", "stopping"}

  /** A sandbox the cluster lists, with the meeting on its label, if any. */
  datatype Listed = Listed(sandbox: Name, meeting: Option<Id>)

  class Registry {
    var status: map<Id, string>

    predicate Live(m: Id)
      reads this
    {
      m in status && status[m] in LIVE
    }

    /** Whatever is live at startup is abandoned: it is terminated, and nothing else changes. */
    method Reap() returns (reaped: set<Id>)
      modifies this
      ensures status.Keys == old(status).Keys
      ensures forall m :: m in status ==> status[m] == if old(status)[m] in LIVE then "terminated" else old(status)[m]
      ensures reaped == set m | m in old(status) && old(status)[m] in LIVE
      ensures forall m :: !Live(m)
    {
      reaped := set m | m in status && status[m] in LIVE;
      status := map m | m in status :: if status[m] in LIVE then "terminated" else status[m];
    }

    predicate Target(l: Listed)
      reads this
    {
      l.meeting.Some? && l.meeting.value != "" && !Live(l.meeting.value)
    }

    /** The deletions tried are those of the labelled sandboxes whose meeting is not live, in
        order and once each; a failing deletion stops neither the sweep nor the count. */
    method Sweep(listing: seq<Listed>, cluster: Cluster) returns (tried: seq<Name>, deleted: nat)
      modifies cluster
      ensures tried == Targets(listing, status) && deleted <= |tried|
      ensures cluster.pods.Keys == old(cluster.pods).Keys
      ensures forall n :: n in cluster.pods && n !in tried ==> cluster.pods[n] == old(cluster.pods)[n]
    {
      tried, deleted := [], 0;
      for i := 0 to |listing|
        invariant tried == Targets(listing[..i], status) && deleted <= |tried|
        invariant cluster.pods.Keys == old(cluster.pods).Keys
        invariant forall n :: n in cluster.pods && n !in tried ==> cluster.pods[n] == old(cluster.pods)[n]
      {
        assert listing[..i + 1][..i] == listing[..i];
        if Target(listing[i]) {
          tried := tried + [listing[i].sandbox];
          var ok := cluster.Sweep(listing[i].sandbox);
          if ok {
            deleted := deleted + 1;
          }
        }
      }
      assert listing[..|listing|] == listing;
    }

    /** Startup: meetings first. After that every labelled sandbox is a target. */
    method Startup(listing: seq<Listed>, cluster: Cluster) returns (tried: seq<Name>, deleted: nat)
      modifies this, cluster
      ensures forall m :: !Live(m)
      ensures forall l :: l in listing && l.meeting.Some? && l.meeting.value != "" ==> l.sandbox in tried
      ensures forall n :: n in tried ==> exists l :: l in listing && l.meeting.Some? && l.meeting.value != "" && l.sandbox == n
    {
      var reaped := Reap();
      tried, deleted := Sweep(listing, cluster);
      TargetsAll(listing, status);
    }
  }

  function Targets(listing: seq<Listed>, status: map<Id, string>): seq<Name> {
    if listing == [] then []
    else
      var l := listing[|listing| - 1];
      Targets(listing[..|listing| - 1], status)
      + (if l.meeting.Some? && l.meeting.value != "" && !(l.meeting.value in status && status[l.meeting.value] in LIVE)
         then [l.sandbox] else [])
  }

  /** With no live meeting, exactly the labelled sandboxes are targets. */
  lemma {:induction false} TargetsAll(listing: seq<Listed>, status: map<Id, string>)
    requires forall m :: m in status ==> status[m] !in LIVE
    ensures forall l :: l in listing && l.meeting.Some? && l.meeting.value != "" ==> l.sandbox in Targets(listing, status)
    ensures forall n :: n in Targets(listing, status) ==>
              exists l :: l in listing && l.meeting.Some? && l.meeting.value != "" && l.sandbox == n
  {
    if listing != [] {
      var rest, last := listing[..|listing| - 1], listing[|listing| - 1];
      TargetsAll(rest, status);
      forall n | n in Targets(listing, status)
        ensures exists l :: l in listing && l.meeting.Some? && l.meeting.value != "" && l.sandbox == n
      {
        if n in Targets(rest, status) {
          var l :| l in rest && l.meeting.Some? && l.meeting.value != "" && l.sandbox == n;
          assert l in listing;
        } else {
          assert last in listing && last.sandbox == n;
        }
      }
    }
  }
}
