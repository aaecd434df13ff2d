/** The cluster as the backend sees it, the manager's lease table over it, and the durable
    turn store. What the outside does is chosen freely within each contract. */
module Manager {
  import opened Wrappers
  import opened State
  import opened Machine
  import Cache = TurnCache

  /** How a claim went: no sandbox, one that could not be read back, or one to use. */
  datatype Claimed = NotCreated(error: string) | NotReadBack(sandbox: Name, error: string) | Ready(sandbox: Name)

  /** What came back from a turn request. */
  datatype Outcome = Answered(answer: Answer) | Declined(message: string) | Closed | Broke(error: string)

  /** A pod nobody had, taken from the warm pool for this persona. */
  ghost predicate NewPod(before: map<Name, Pod>, after: map<Name, Pod>, n: Name, k: Key) {
    n !in before && exists persona, cache :: Warm(k.meeting, persona, cache)
                                             && after == before[n := Pod(k, true, persona, cache, 0, 0)]
  }

  class Cluster {
    var pods: map<Name, Pod>

    constructor ()
      ensures pods == map[]
    {
      pods := map[];
    }

    method Create(k: Key) returns (r: Claimed)
      modifies this
      ensures r.NotCreated? ==> pods == old(pods)
      ensures !r.NotCreated? ==> NewPod(old(pods), pods, r.sandbox, k)
    {
      var n: Name := *;
      if n in pods {
        return NotCreated("quota exceeded");
      }
      assert Warm(k.meeting, None, []);
      pods := pods[n := Pod(k, true, None, [], 0, 0)];
      if * {
        r := Ready(n);
      } else {
        r := NotReadBack(n, "the server could not be reached");
      }
    }

    /** A deletion is asked for; whether it succeeded is nobody's business here. */
    method Delete(n: Name)
      modifies this
      ensures pods == if n in old(pods) then old(pods)[n := Counted(old(pods)[n])] else old(pods)
    {
      if n in pods {
        pods := pods[n := Counted(pods[n])];
      }
    }

    /** A startup sweep asks for a sandbox's deletion, and hears whether it worked. */
    method Sweep(n: Name) returns (ok: bool)
      modifies this
      ensures pods == if n in old(pods) then old(pods)[n := Swept(old(pods)[n])] else old(pods)
    {
      if n in pods {
        pods := pods[n := Swept(pods[n])];
      }
      ok := *;
    }

    /** A bind either reached the sandbox and was answered, or it raised: before it got there,
        or after. */
    method Bind(n: Name, k: Key) returns (r: Result<(), string>)
      modifies this
      ensures pods == old(pods) || (n in old(pods) && old(pods)[n].alive && pods == old(pods)[n := Rebind(old(pods)[n], k)])
      ensures r.Ok? ==> n in old(pods) && old(pods)[n].alive && pods == old(pods)[n := Rebind(old(pods)[n], k)]
    {
      r := Err("connection refused");
      if n in pods && pods[n].alive {
        pods := pods[n := Rebind(pods[n], k)];
        if * {
          r := Ok(());
        }
      }
    }

    /** Closing a client's connections changes no sandbox, and may raise. */
    method CloseClient() returns (raised: Option<string>)
    {
      raised := *;
    }

    /** A turn: replayed from the cache, taken anew, or failed; or the request raised or its
        stream closed, before or after the sandbox had answered. */
    method Turn(voice: Voice, n: Name, key: string, turn: nat, request: TurnRequest) returns (r: Outcome)
      modifies this
      ensures r.Answered? ==> Heard(voice, old(pods), n, key, turn, request, r.answer, pods)
      ensures r.Declined? ==> Listens(pods, n) && Cache.Lookup(pods[n].cache, key).None? && pods == old(pods)
      ensures r.Closed? || r.Broke? ==> pods == old(pods) || HeardSome(voice, old(pods), n, key, turn, request, pods)
    {
      if !Listens(pods, n) {
        return Broke("connection refused");
      }
      var p := pods[n];
      var cached := Cache.Lookup(p.cache, key);
      var answer: Answer;
      if cached.Some? {
        answer := cached.value;
        pods := pods[n := p.(cache := Cache.MoveToEnd(p.cache, key))];
      } else {
        var result: TurnResult := *;
        if result.turnKey != key || result.agentId != p.persona.value.agent || !voice(p.persona.value, request, result) {
          return Declined("the model failed");
        }
        answer := Answer(result, p.persona.value, turn);
        pods := pods[n := Remember(p, key, answer)];
      }
      assert Heard(voice, old(pods), n, key, turn, request, answer, pods);
      HeardThis(voice, old(pods), n, key, turn, request, answer, pods);
      if * {
        return Answered(answer);
      } else if * {
        return Broke("connection reset");
      }
      return Closed;
    }
  }

  function Swept(p: Pod): Pod {
    p.(sweeps := p.sweeps + 1)
  }

  /** A live sandbox with a persona in it. */
  predicate Listens(pods: map<Name, Pod>, n: Name) {
    n in pods && pods[n].alive && pods[n].persona.Some?
  }

  /** The sandbox gave this answer: the one it remembered for the key, or a new one by its
      persona to this request, which it remembers from now on. */
  ghost predicate Heard(voice: Voice, pods: map<Name, Pod>, n: Name, key: string, turn: nat, request: TurnRequest,
                        a: Answer, after: map<Name, Pod>)
  {
    Listens(pods, n) &&
    var p := pods[n];
    match Cache.Lookup(p.cache, key)
    case Some(cached) => a == cached && after == pods[n := p.(cache := Cache.MoveToEnd(p.cache, key))]
    case None =>
      && a.author == p.persona.value && a.turn == turn
      && a.result.turnKey == key && a.result.agentId == p.persona.value.agent
      && voice(p.persona.value, request, a.result)
      && after == pods[n := Remember(p, key, a)]
  }

  /** The sandbox answered, whether or not the answer came through. */
  ghost predicate HeardSome(voice: Voice, pods: map<Name, Pod>, n: Name, key: string, turn: nat, request: TurnRequest,
                            after: map<Name, Pod>)
  {
    exists a :: Heard(voice, pods, n, key, turn, request, a, after)
  }

  lemma HeardThis(voice: Voice, pods: map<Name, Pod>, n: Name, key: string, turn: nat, request: TurnRequest,
                  a: Answer, after: map<Name, Pod>)
    requires Heard(voice, pods, n, key, turn, request, a, after)
    ensures HeardSome(voice, pods, n, key, turn, request, after)
  {
  }

  function Without(leases: map<Key, Lease>, m: Id): map<Key, Lease> {
    map k | k in leases && k.meeting != m :: leases[k]
  }

  function LeasedIn(leases: map<Key, Lease>, m: Id): set<Key> {
    set k | k in leases && k.meeting == m
  }

  class SandboxManager {
    var leases: map<Key, Lease>

    constructor ()
      ensures leases == map[]
    {
      leases := map[];
    }

    /** The sandbox the persona holds already, or a claimed one; a failure leaves no lease,
        even when the sandbox itself was created. */
    method Acquire(k: Key, cluster: Cluster) returns (r: Result<Name, string>)
      modifies this, cluster
      ensures k in old(leases) ==> r == Ok(old(leases)[k].sandbox) && leases == old(leases) && cluster.pods == old(cluster.pods)
      ensures k !in old(leases) && r.Ok? ==>
                NewPod(old(cluster.pods), cluster.pods, r.value, k) && leases == old(leases)[k := Lease(r.value, false)]
      ensures k !in old(leases) && r.Err? ==>
                && leases == old(leases)
                && (cluster.pods == old(cluster.pods) || exists n :: NewPod(old(cluster.pods), cluster.pods, n, k))
    {
      if k in leases {
        return Ok(leases[k].sandbox);
      }
      var claimed := cluster.Create(k);
      match claimed
      case NotCreated(error) => r := Err(error);
      case NotReadBack(_, error) => r := Err(error);
      case Ready(n) =>
        leases := leases[k := Lease(n, false)];
        r := Ok(n);
    }

    method NeedsBind(k: Key) returns (b: bool)
      ensures b <==> !(k in leases && leases[k].bound)
    {
      b := k !in leases || !leases[k].bound;
    }

    method MarkBound(k: Key)
      modifies this
      ensures leases == if k in old(leases) then old(leases)[k := Lease(old(leases)[k].sandbox, true)] else old(leases)
    {
      if k in leases {
        leases := leases[k := leases[k].(bound := true)];
      }
    }

    /** Forget the lease first, then ask for its sandbox to be deleted; without a lease,
        nothing happens. */
    method Invalidate(k: Key, cluster: Cluster)
      modifies this, cluster
      ensures leases == old(leases) - {k}
      ensures k in old(leases) ==>
                var n := old(leases)[k].sandbox;
                cluster.pods == if n in old(cluster.pods) then old(cluster.pods)[n := Counted(old(cluster.pods)[n])]
                                else old(cluster.pods)
      ensures k !in old(leases) ==> cluster.pods == old(cluster.pods)
    {
      if k in leases {
        var n := leases[k].sandbox;
        leases := leases - {k};
        cluster.Delete(n);
      }
    }

    /** Every lease of the meeting and no other is given up, and its sandbox's deletion is
        asked for once per lease. */
    method ReleaseMeeting(m: Id, cluster: Cluster)
      modifies this, cluster
      ensures leases == Without(old(leases), m)
      ensures cluster.pods.Keys == old(cluster.pods).Keys
      ensures forall n :: n in cluster.pods ==>
                cluster.pods[n] == Asked(old(cluster.pods)[n], |Holders(old(leases), LeasedIn(old(leases), m), n)|)
    {
      ghost var before, pods := leases, cluster.pods;
      var keys := LeasedIn(leases, m);
      ghost var given: set<Key> := {};
      while keys != {}
        invariant keys == LeasedIn(leases, m) && given == LeasedIn(before, m) - keys && leases == before - given
        invariant cluster.pods.Keys == pods.Keys
        invariant forall n :: n in pods ==> cluster.pods[n] == Asked(pods[n], |Holders(before, given, n)|)
        decreases keys
      {
        var k :| k in keys;
        var n := leases[k].sandbox;
        OneMoreHolder(before, given, k);
        leases := leases - {k};
        keys := keys - {k};
        given := given + {k};
        cluster.Delete(n);
      }
      assert given == LeasedIn(before, m);
      assert leases == Without(before, m);
    }
  }

  function Holders(leases: map<Key, Lease>, keys: set<Key>, n: Name): set<Key> {
    set k | k in keys && k in leases && leases[k].sandbox == n
  }

  function Asked(p: Pod, times: nat): Pod {
    p.(releases := p.releases + times)
  }

  lemma OneMoreHolder(leases: map<Key, Lease>, keys: set<Key>, k: Key)
    requires k in leases && k !in keys
    ensures forall n :: |Holders(leases, keys + {k}, n)|
                        == |Holders(leases, keys, n)| + (if leases[k].sandbox == n then 1 else 0)
  {
    forall n
      ensures |Holders(leases, keys + {k}, n)| == |Holders(leases, keys, n)| + (if leases[k].sandbox == n then 1 else 0)
    {
      if leases[k].sandbox == n {
        assert Holders(leases, keys + {k}, n) == Holders(leases, keys, n) + {k};
      } else {
        assert Holders(leases, keys + {k}, n) == Holders(leases, keys, n);
      }
    }
  }

  class TurnStore {
    var rows: map<string, Stored>

    constructor ()
      ensures rows == map[]
    {
      rows := map[];
    }

    /** A row, rebuilt as the update it was; a failing lookup is a miss. */
    method Lookup(key: string) returns (r: Option<Update>)
      ensures r.Some? ==> key in rows && r.value == Rehydrate(rows[key])
    {
      r := None;
      if key in rows {
        if * {
          r := Some(Rehydrate(rows[key]));
        }
      }
    }

    /** First write wins; a failing write changes nothing. */
    method Record(key: string, row: Stored)
      modifies this
      ensures rows == old(rows) || (key !in old(rows) && rows == old(rows)[key := row])
    {
      if key !in rows {
        if * {
          rows := rows[key := row];
        }
      }
    }
  }
}
