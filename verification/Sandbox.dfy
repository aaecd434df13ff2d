/** The server inside a sandbox against the state machine: what its code does with a bind and
    with a turn request are the machine's steps on that sandbox. */
module Sandbox {
  import opened Wrappers
  import opened State
  import opened Machine
  import Cache = TurnCache
  import R = Runtime

  // A cache of answers, seen as a cache of results

  function Bare(es: Cache.Entries<Answer>): Cache.Entries<TurnResult> {
    if es == [] then [] else [(es[0].0, es[0].1.result)] + Bare(es[1..])
  }

  lemma {:induction false} BareAppend(xs: Cache.Entries<Answer>, ys: Cache.Entries<Answer>)
    ensures Bare(xs + ys) == Bare(xs) + Bare(ys)
  {
    if xs == [] {
      assert xs + ys == ys;
    } else {
      assert (xs + ys)[1..] == xs[1..] + ys;
      BareAppend(xs[1..], ys);
    }
  }

  lemma {:induction false} BareLookup(es: Cache.Entries<Answer>, k: string)
    ensures Cache.Lookup(Bare(es), k)
            == match Cache.Lookup(es, k) case None => None case Some(a) => Some(a.result)
  {
    if es != [] {
      assert Bare(es)[1..] == Bare(es[1..]);
      BareLookup(es[1..], k);
    }
  }

  lemma {:induction false} BareWithout(es: Cache.Entries<Answer>, k: string)
    ensures Cache.Without(Bare(es), k) == Bare(Cache.Without(es, k))
  {
    if es != [] {
      assert Bare(es)[1..] == Bare(es[1..]);
      BareWithout(es[1..], k);
      if es[0].0 != k {
        var kept := Cache.Without(es[1..], k);
        assert ([es[0]] + kept)[1..] == kept;
      }
    }
  }

  lemma {:induction false} BareTail(es: Cache.Entries<Answer>, n: nat)
    requires n <= |es|
    ensures |Bare(es)| == |es| && Bare(es)[n..] == Bare(es[n..])
  {
    if n == 0 {
      assert es[0..] == es && Bare(es)[0..] == Bare(es);
      if es != [] {
        BareTail(es[1..], 0);
      }
    } else {
      BareTail(es[1..], n - 1);
      assert es[1..][n - 1..] == es[n..];
      assert Bare(es)[n..] == Bare(es[1..])[n - 1..];
    }
  }

  lemma BareLast(es: Cache.Entries<Answer>, k: string, a: Answer)
    ensures Bare(es + [(k, a)]) == Bare(es) + [(k, a.result)]
  {
    BareAppend(es, [(k, a)]);
    assert [(k, a)][1..] == [];
  }

  lemma BareMove(es: Cache.Entries<Answer>, k: string)
    ensures Cache.MoveToEnd(Bare(es), k) == Bare(Cache.MoveToEnd(es, k))
  {
    BareLookup(es, k);
    BareWithout(es, k);
    if Cache.Lookup(es, k).Some? {
      BareLast(Cache.Without(es, k), k, Cache.Lookup(es, k).value);
    }
  }

  lemma BarePut(es: Cache.Entries<Answer>, k: string, a: Answer, max: nat)
    ensures Cache.AfterPut(Bare(es), k, a.result, max) == Bare(Cache.AfterPut(es, k, a, max))
  {
    var all := Cache.Without(es, k) + [(k, a)];
    BareWithout(es, k);
    BareLast(Cache.Without(es, k), k, a);
    BareTail(all, 0);
    if |all| > max {
      BareTail(all, |all| - max);
    }
  }

  // The code

  /** The server's state is what the machine says of its sandbox. */
  ghost predicate Houses(p: Pod, state: R.RuntimeState)
    reads state, state.cache
  {
    && state.Valid() && state.cache.max == Cache.MAX_ENTRIES
    && (state.persona.Some? <==> p.persona.Some?)
    && (p.persona.Some? ==> state.persona.value.agentId == p.persona.value.agent)
    && state.cache.entries == Bare(p.cache)
  }

  /** A bind request served is the machine's bind. */
  method ServeBindRequest(state: R.RuntimeState, persona: R.Persona, k: Key, ghost p: Pod)
    requires Houses(p, state) && persona.agentId == k.agent
    modifies state, state.cache
    ensures Houses(Rebind(p, k), state)
  {
    state.BindPersona(persona);
  }

  /** What the backend reads off the end of a stream. */
  ghost predicate Reads(events: seq<R.TurnEvent>, reply: SandboxReply) {
    && R.Authoritative(events)
    && match events[|events| - 1]
       case Finished(r) => reply.Spoke? && reply.answer.result == r
       case Errored(message) => reply == Refused(message)
       case _ => false
  }

  /** A turn request served is the machine's replay, result or error, on this sandbox and with
      this reply, for every voice that admits what the model made the server say. Without a
      persona it is refused, and the machine has no such step either. */
  method ServeTurnRequest(state: R.RuntimeState, inv: R.Invocation, voice: Voice, ghost w: World, m: Id, key: string)
    returns (response: R.Response, ghost step: ServeStep)
    requires Visiting(w, m) && w.threads[m].pc.Asking? && key == TurnKeyOf(m, w.threads[m])
    requires var n := w.threads[m].pc.sandbox; n in w.pods && w.pods[n].alive && Houses(w.pods[n], state)
    modifies state.cache
    ensures response.NotBound? <==> !Reached(w, m)
    ensures response.NotBound? ==> Houses(w.pods[w.threads[m].pc.sandbox], state)
    ensures response.Stream? && !step.ServeBind? &&
            (step.ServeResult? ==> voice(BoundPersona(w, m), RequestOf(w.threads[m]), step.result)) ==>
              && CanServe(voice, w, m, step)
              && var w' := DoServe(voice, w, m, step);
              && Houses(w'.pods[w.threads[m].pc.sandbox], state)
              && Reads(response.events, w'.threads[m].pc.reply)
    ensures response.Stream? ==> !step.ServeBind?
  {
    ghost var p := w.pods[w.threads[m].pc.sandbox];
    step := ServeBind;
    response := state.RunTurn(key, inv);
    BareLookup(p.cache, key);
    BareMove(p.cache, key);
    if response.Stream? {
      ghost var last := response.events[|response.events| - 1];
      match last
      case Errored(message) => step := ServeError(message);
      case Finished(r) =>
        step := if CachedTurn(w, m).Some? then ServeReplay else ServeResult(r);
        BarePut(p.cache, key, Answer(r, p.persona.value, w.threads[m].graph.currentTurn), Cache.MAX_ENTRIES);
      case _ =>
    }
  }
}
