/** Getting one structured answer out of a model: a ladder of strategies, each more
    permissive, the first usable answer winning. */
module Ladder {
  import opened Wrappers
  import opened Text
  import opened Salvage
  import Supervisor

  const RETRY_FACTOR := 3

  /** What one call to the model did: it raised, or it replied with perhaps a parsed value,
      a reason for stopping, tool calls and a text. */
  datatype Response =
    | Raised(error: string)
    | Replied(parsed: Option<Fields>, finish: Option<string>, calls: seq<CallArgs>, content: string)

  /** The model: its response to the n-th call, given how it is asked and the budget. */
  type Model = (nat, string, nat) -> Response

  /** What is salvaged from tool calls and the start of a text. */
  type Salvager = (seq<CallArgs>, string) -> Option<Fields>

  /** One call and what came back; of the reply, whether it called a tool and how its text began. */
  datatype Attempt = Attempt(strategy: string, ok: bool, finish: Option<string>, budget: nat, called: bool, content: string,
                             error: string)

  datatype Outcome = Outcome(value: Option<Fields>, strategy: Option<string>, attempts: seq<Attempt>)

  function ShownText(j: Json): string {
    match j
    case Str(text) => text
    case Falsy => ""
    case Truthy(shown) => shown
  }

  /** The only thing that makes a value usable: a field of this name that is not blank. */
  predicate HasField(v: Option<Fields>, name: string) {
    v.Some? && name in v.value && Strip(ShownText(v.value[name])) != ""
  }

  /** The value a response amounts to: parsed if that is usable, else salvaged from what the
      attempt keeps of it. */
  function ValueOf(r: Response, name: string, salvage: Salvager): Option<Fields> {
    match r
    case Raised(_) => None
    case Replied(parsed, _, calls, content) =>
      if HasField(parsed, name) then parsed else salvage(calls, Clip(content, DIAGNOSTIC_LIMIT))
  }

  function Tried(strategy: string, budget: nat, r: Response, name: string, salvage: Salvager): Attempt {
    match r
    case Raised(error) => Attempt(strategy, false, None, budget, false, "", Clip(error, DIAGNOSTIC_LIMIT))
    case Replied(_, finish, calls, content) =>
      Attempt(strategy, HasField(ValueOf(r, name, salvage), name), finish, budget, calls != [], Clip(content, DIAGNOSTIC_LIMIT), "")
  }

  /** Why an attempt gave no answer, in one sentence. */
  function Reason(a: Attempt): string {
    a.strategy + (
      if a.error != "" then ": the provider rejected the call (" + a.error + ")"
      else if a.finish == Some("length") then
        ": the reply was cut off at the " + ShowNat(a.budget) + "-token cap before it was complete"
      else if !a.called && Strip(a.content) == "" then ": the model returned an empty response"
      else if !a.called then ": the model answered in text that did not parse"
      else ": the structured fields could not be read")
  }

  function Reasons(attempts: seq<Attempt>): seq<string> {
    if attempts == [] then [] else [Reason(attempts[0])] + Reasons(attempts[1..])
  }

  /** What the caller hears of a ladder without a value: every attempt's reason. */
  function FailureReason(attempts: seq<Attempt>): string {
    if attempts == [] then "no attempt was made" else Join(Reasons(attempts), "; ")
  }

  lemma {:induction false} ReasonsAppend(attempts: seq<Attempt>, last: Attempt)
    ensures Reasons(attempts + [last]) == Reasons(attempts) + [Reason(last)]
  {
    if attempts == [] {
      assert attempts + [last] == [last];
    } else {
      assert (attempts + [last])[1..] == attempts[1..] + [last];
      ReasonsAppend(attempts[1..], last);
    }
  }

  /** The account is that of the first attempt, and of each later one after a semicolon, in order. */
  lemma FailureTold(attempts: seq<Attempt>, last: Attempt)
    ensures FailureReason([]) == "no attempt was made"
    ensures FailureReason(attempts + [last])
            == if attempts == [] then Reason(last) else FailureReason(attempts) + "; " + Reason(last)
  {
    ReasonsAppend(attempts, last);
    JoinGrows(Reasons(attempts), Reason(last), "; ");
  }

  function LastFinish(attempts: seq<Attempt>): Option<string> {
    if attempts == [] then None else attempts[|attempts| - 1].finish
  }

  /** Whether a rung is climbed at all, after these attempts. */
  predicate Due(strategy: string, attempts: seq<Attempt>, textAvailable: bool) {
    || strategy == "tools"
    || (strategy == "tools_retry" && LastFinish(attempts) == Some("length"))
    || (strategy == "text" && textAvailable)
  }

  function BudgetOf(strategy: string, budget: nat): nat {
    if strategy == "tools" then budget else budget * RETRY_FACTOR
  }

  /** One call, with everything the caller needs to know about it. */
  datatype Caller = Caller(model: Model, salvage: Salvager, name: string, budget: nat, textAvailable: bool) {
    function Respond(strategy: string, n: nat): Response {
      model(n, if strategy == "text" then "text" else "tools", BudgetOf(strategy, budget))
    }
  }

  /** The ladder, climbed from a rung with some attempts behind it. */
  function Climb(c: Caller, strategies: seq<string>, attempts: seq<Attempt>): Outcome {
    if strategies == [] then Outcome(None, None, attempts)
    else if !Due(strategies[0], attempts, c.textAvailable) then Climb(c, strategies[1..], attempts)
    else
      var r := c.Respond(strategies[0], |attempts|);
      var tried := attempts + [Tried(strategies[0], BudgetOf(strategies[0], c.budget), r, c.name, c.salvage)];
      var value := ValueOf(r, c.name, c.salvage);
      if HasField(value, c.name) then Outcome(value, Some(strategies[0]), tried) else Climb(c, strategies[1..], tried)
  }

  method StructuredCall(c: Caller, strategies: seq<string>) returns (o: Outcome)
    ensures o == Climb(c, strategies, [])
  {
    o := Outcome(None, None, []);
    var i := 0;
    while i < |strategies|
      invariant 0 <= i <= |strategies| && o.value == None && o.strategy == None
      invariant Climb(c, strategies, []) == Climb(c, strategies[i..], o.attempts)
    {
      var strategy := strategies[i];
      assert strategies[i..][1..] == strategies[i + 1..];
      if Due(strategy, o.attempts, c.textAvailable) {
        var r := c.Respond(strategy, |o.attempts|);
        var value := ValueOf(r, c.name, c.salvage);
        o := o.(attempts := o.attempts + [Tried(strategy, BudgetOf(strategy, c.budget), r, c.name, c.salvage)]);
        if HasField(value, c.name) {
          return Outcome(value, Some(strategy), o.attempts);
        }
      }
      i := i + 1;
    }
    assert strategies[i..] == [];
  }

  // What every climb keeps

  /** An attempt was made on a rung that was due, with that rung's budget, and says truly
      whether the response was usable. */
  ghost predicate Justified(c: Caller, attempts: seq<Attempt>, i: nat)
    requires i < |attempts|
  {
    var a := attempts[i];
    var r := c.Respond(a.strategy, i);
    && Due(a.strategy, attempts[..i], c.textAvailable)
    && a.budget == BudgetOf(a.strategy, c.budget)
    && a == Tried(a.strategy, a.budget, r, c.name, c.salvage)
  }

  ghost predicate AllJustified(c: Caller, attempts: seq<Attempt>) {
    forall i :: 0 <= i < |attempts| ==> Justified(c, attempts, i)
  }

  predicate NoneOk(attempts: seq<Attempt>) {
    forall i :: 0 <= i < |attempts| ==> !attempts[i].ok
  }

  /** The rungs in order, some perhaps skipped. */
  predicate Climbed(attempts: seq<Attempt>, from: nat, strategies: seq<string>)
    requires from <= |attempts|
    decreases |strategies|
  {
    if from == |attempts| then true
    else if strategies == [] then false
    else if attempts[from].strategy == strategies[0] then Climbed(attempts, from + 1, strategies[1..])
    else Climbed(attempts, from, strategies[1..])
  }

  /** A rung may always be skipped. */
  lemma {:induction false} ClimbedLess(attempts: seq<Attempt>, from: nat, strategies: seq<string>)
    requires from <= |attempts| && strategies != [] && Climbed(attempts, from, strategies[1..])
    ensures Climbed(attempts, from, strategies)
    decreases |strategies|, 0
  {
    if from < |attempts| && attempts[from].strategy == strategies[0] {
      ClimbedShorter(attempts, from, strategies[1..]);
    }
  }

  lemma {:induction false} ClimbedShorter(attempts: seq<Attempt>, from: nat, strategies: seq<string>)
    requires from < |attempts| && Climbed(attempts, from, strategies)
    ensures Climbed(attempts, from + 1, strategies)
    decreases |strategies|, 1
  {
    if attempts[from].strategy == strategies[0] {
      if from + 1 < |attempts| && attempts[from + 1].strategy == strategies[0] {
        ClimbedShorter(attempts, from + 1, strategies[1..]);
      }
    } else {
      ClimbedShorter(attempts, from, strategies[1..]);
      ClimbedLess(attempts, from + 1, strategies);
    }
  }

  /** Whatever the strategies and whatever the model does: there is a value exactly when the
      last attempt succeeded; everything before it failed; the value then is what that
      attempt's response amounts to and carries the field; the rungs were climbed in the order
      of the strategies, none without being due, and each with its own budget. */
  lemma {:induction false} LadderSound(c: Caller, strategies: seq<string>, attempts: seq<Attempt>)
    requires AllJustified(c, attempts) && NoneOk(attempts)
    ensures var o := Climb(c, strategies, attempts);
            && AllJustified(c, o.attempts) && attempts <= o.attempts
            && |o.attempts| <= |attempts| + |strategies|
            && Climbed(o.attempts, |attempts|, strategies)
            && (o.value.Some? <==> |o.attempts| > |attempts| && o.attempts[|o.attempts| - 1].ok)
            && (forall i :: 0 <= i < |o.attempts| - 1 ==> !o.attempts[i].ok)
            && (o.value.None? ==> NoneOk(o.attempts) && o.strategy == None)
            && (o.value.Some? ==>
                  var last := o.attempts[|o.attempts| - 1];
                  && HasField(o.value, c.name) && o.strategy == Some(last.strategy)
                  && o.value == ValueOf(c.Respond(last.strategy, |o.attempts| - 1), c.name, c.salvage))
    decreases strategies
  {
    if strategies != [] {
      if !Due(strategies[0], attempts, c.textAvailable) {
        LadderSound(c, strategies[1..], attempts);
        ClimbedLess(Climb(c, strategies, attempts).attempts, |attempts|, strategies);
      } else {
        var r := c.Respond(strategies[0], |attempts|);
        var a := Tried(strategies[0], BudgetOf(strategies[0], c.budget), r, c.name, c.salvage);
        JustifiedMore(c, attempts, a);
        if !a.ok {
          LadderSound(c, strategies[1..], attempts + [a]);
        }
      }
    }
  }

  lemma JustifiedMore(c: Caller, attempts: seq<Attempt>, a: Attempt)
    requires AllJustified(c, attempts) && Due(a.strategy, attempts, c.textAvailable)
    requires a == Tried(a.strategy, BudgetOf(a.strategy, c.budget), c.Respond(a.strategy, |attempts|), c.name, c.salvage)
    ensures AllJustified(c, attempts + [a])
  {
    var longer := attempts + [a];
    forall i | 0 <= i < |longer| ensures Justified(c, longer, i) {
      if i < |attempts| {
        assert longer[..i] == attempts[..i];
        assert Justified(c, attempts, i);
      } else {
        assert longer[..i] == attempts;
      }
    }
  }

  // What the responses say

  /** The answer has this field, with something in it that is not whitespace. */
  ghost predicate Speaks(v: Option<Fields>, name: string) {
    && v.Some? && name in v.value
    && match v.value[name]
       case Str(text) => Visible(text)
       case Falsy => false
       case Truthy(shown) => Visible(shown)
  }

  lemma SpeaksExactly(v: Option<Fields>, name: string)
    ensures HasField(v, name) <==> Speaks(v, name)
  {
    assert Strip("") == "";
    if v.Some? && name in v.value {
      match v.value[name]
      case Str(text) => VisibleExactly(text);
      case Falsy =>
      case Truthy(shown) => VisibleExactly(shown);
    }
  }

  /** What a reply offers: its parsed answer if that speaks, and otherwise what can be salvaged of
      its tool calls and the first 300 characters of its text. */
  ghost predicate Offers(c: Caller, r: Response, v: Option<Fields>) {
    && r.Replied?
    && (Speaks(r.parsed, c.name) ==> v == r.parsed)
    && (!Speaks(r.parsed, c.name) ==> v == c.salvage(r.calls, if |r.content| <= 300 then r.content else r.content[..300]))
  }

  /** The response settles the question. */
  ghost predicate Settles(c: Caller, r: Response) {
    exists v :: Offers(c, r, v) && Speaks(v, c.name)
  }

  lemma OffersExactly(c: Caller, r: Response)
    ensures forall v :: Offers(c, r, v) ==> v == ValueOf(r, c.name, c.salvage)
    ensures r.Replied? ==> Offers(c, r, ValueOf(r, c.name, c.salvage))
    ensures HasField(ValueOf(r, c.name, c.salvage), c.name) <==> Settles(c, r)
  {
    if r.Replied? {
      SpeaksExactly(r.parsed, c.name);
    }
    SpeaksExactly(ValueOf(r, c.name, c.salvage), c.name);
  }

  /** The response to the n-th attempt: tools are asked for but on the text rung. */
  function ResponseTo(c: Caller, attempts: seq<Attempt>, n: nat): Response
    requires n < |attempts|
  {
    c.model(n, if attempts[n].strategy == "text" then "text" else "tools", attempts[n].budget)
  }

  /** Every attempt reports what its response was: whether it settles the question, why it stopped,
      and the error if it raised. */
  lemma AttemptsTell(c: Caller, strategies: seq<string>, n: nat)
    requires n < |Climb(c, strategies, []).attempts|
    ensures var attempts := Climb(c, strategies, []).attempts;
            var a, r := attempts[n], ResponseTo(c, attempts, n);
            && (a.ok <==> Settles(c, r))
            && (r.Replied? ==> a.finish == r.finish && a.error == "" && (a.called <==> r.calls != []))
            && (r.Raised? ==> a.finish == None && a.error == if |r.error| <= 300 then r.error else r.error[..300])
  {
    LadderSound(c, strategies, []);
    var attempts := Climb(c, strategies, []).attempts;
    assert Justified(c, attempts, n);
    OffersExactly(c, ResponseTo(c, attempts, n));
  }

  /** A value is what the last response offers: the parsed answer whenever that speaks, and
      otherwise what is salvaged; no response before it settles the question, and without a value
      none does at all. */
  lemma ValueIsTheAnswer(c: Caller, strategies: seq<string>)
    ensures var o := Climb(c, strategies, []);
            var n := |o.attempts|;
            && (o.value.Some? ==>
                  && n > 0 && o.strategy == Some(o.attempts[n - 1].strategy)
                  && Offers(c, ResponseTo(c, o.attempts, n - 1), o.value) && Speaks(o.value, c.name))
            && (forall i :: 0 <= i < n && (o.value.None? || i < n - 1) ==> !Settles(c, ResponseTo(c, o.attempts, i)))
  {
    var o := Climb(c, strategies, []);
    LadderSound(c, strategies, []);
    forall i | 0 <= i < |o.attempts| ensures o.attempts[i].ok <==> Settles(c, ResponseTo(c, o.attempts, i)) {
      AttemptsTell(c, strategies, i);
    }
    if o.value.Some? {
      var n := |o.attempts| - 1;
      assert Justified(c, o.attempts, n);
      OffersExactly(c, ResponseTo(c, o.attempts, n));
      SpeaksExactly(o.value, c.name);
    }
  }

  /** A parsed answer that speaks, in the reply to the first call for tools, is the value, after that
      one call. */
  lemma ParsedFirst(c: Caller, rest: seq<string>, parsed: Option<Fields>, finish: Option<string>, calls: seq<CallArgs>, content: string)
    requires c.model(0, "tools", c.budget) == Replied(parsed, finish, calls, content) && Speaks(parsed, c.name)
    ensures var o := Climb(c, ["tools"] + rest, []); o.value == parsed && |o.attempts| == 1 && o.strategy == Some("tools")
  {
    SpeaksExactly(parsed, c.name);
    assert (["tools"] + rest)[0] == "tools";
    assert c.Respond("tools", 0) == Replied(parsed, finish, calls, content);
  }

  /** A repeat with more budget comes directly after a reply that was cut off, never first
      and never after anything else; and every budget is the base or three times it. */
  lemma RetriesFollowTruncation(c: Caller, strategies: seq<string>, i: nat)
    requires i < |Climb(c, strategies, []).attempts|
    ensures var attempts := Climb(c, strategies, []).attempts;
            && (attempts[i].strategy == "tools_retry" ==> i > 0 && attempts[i - 1].finish == Some("length"))
            && (attempts[i].budget == c.budget || attempts[i].budget == c.budget * RETRY_FACTOR)
            && (attempts[i].strategy == "text" ==> c.textAvailable)
  {
    LadderSound(c, strategies, []);
    var attempts := Climb(c, strategies, []).attempts;
    assert Justified(c, attempts, i);
    if i > 0 {
      assert attempts[..i][i - 1] == attempts[i - 1];
    }
  }

  /** The response to a rung, if it is the n-th call, is usable. */
  predicate Usable(c: Caller, strategy: string, n: nat) {
    HasField(ValueOf(c.Respond(strategy, n), c.name, c.salvage), c.name)
  }

  const LADDER := ["tools", "tools_retry", "text"]

  lemma TextRung(c: Caller, attempts: seq<Attempt>)
    ensures Climb(c, ["text"], attempts).value.Some? <==> c.textAvailable && Usable(c, "text", |attempts|)
  {
    assert ["text"][1..] == [];
  }

  lemma RetryRung(c: Caller, first: Attempt)
    ensures var cut := first.finish == Some("length");
            Climb(c, ["tools_retry", "text"], [first]).value.Some? <==>
              (cut && Usable(c, "tools_retry", 1)) || (c.textAvailable && Usable(c, "text", if cut then 2 else 1))
  {
    assert ["tools_retry", "text"][1..] == ["text"];
    var r := c.Respond("tools_retry", 1);
    var second := Tried("tools_retry", BudgetOf("tools_retry", c.budget), r, c.name, c.salvage);
    TextRung(c, [first]);
    TextRung(c, [first] + [second]);
  }

  /** The default ladder in full: it yields a value exactly when the first call's response settles
      the question, or was cut off and that to a call for tools with three times the budget does,
      or text is available and the response to a call for text with three times the budget does;
      never with more than three calls. */
  lemma DefaultLadder(c: Caller)
    ensures var o := Climb(c, LADDER, []);
            var first := c.model(0, "tools", c.budget);
            var cut := first.Replied? && first.finish == Some("length");
            && |o.attempts| <= 3
            && (o.value.Some? <==>
                  || Settles(c, first)
                  || (cut && Settles(c, c.model(1, "tools", c.budget * 3)))
                  || (c.textAvailable && Settles(c, c.model(if cut then 2 else 1, "text", c.budget * 3))))
  {
    var first := Tried("tools", BudgetOf("tools", c.budget), c.Respond("tools", 0), c.name, c.salvage);
    var cut := first.finish == Some("length");
    assert LADDER[1..] == ["tools_retry", "text"];
    assert [] + [first] == [first];
    RetryRung(c, first);
    LadderSound(c, LADDER, []);
    OffersExactly(c, c.Respond("tools", 0));
    OffersExactly(c, c.Respond("tools_retry", 1));
    OffersExactly(c, c.Respond("text", if cut then 2 else 1));
  }

  // With the chair's salvager

  /** The chair salvages what it can from a response the parser rejected. */
  function ChairSalvage(load: Loader): Salvager {
    (calls: seq<CallArgs>, content: string) =>
      match SalvageDecision(calls, content, load)
      case Some(d) => Some(map["next_speaker" := Str(d.speaker), "reasoning" := Str(d.reasoning)])
      case None => None
  }

  /** Whenever the chair's ladder succeeds, its value names a speaker; and a tool call that
      names one is used whatever else the reply contains. */
  lemma ChairLadder(c: Caller, load: Loader, parsed: Option<Fields>, finish: Option<string>, calls: seq<CallArgs>, content: string)
    requires c.salvage == ChairSalvage(load) && c.name == "next_speaker"
    requires c.Respond("tools", 0) == Replied(parsed, finish, calls, content)
    requires FromCalls(calls).Some?
    ensures Climb(c, LADDER, []).value.Some? && |Climb(c, LADDER, []).attempts| == 1
    ensures !HasField(parsed, c.name) ==>
              Climb(c, LADDER, []).value == Some(map["next_speaker" := Str(FromCalls(calls).value.speaker),
                                                     "reasoning" := Str(FromCalls(calls).value.reasoning)])
  {
    SalvagedIsTrimmed(calls, Clip(content, DIAGNOSTIC_LIMIT), load);
    StripTrimmed(FromCalls(calls).value.speaker);
    var r := c.Respond("tools", 0);
    assert HasField(ValueOf(r, c.name, c.salvage), c.name);
  }

  /** What the chair makes of one ladder. */
  function ReplyOf(o: Outcome): Supervisor.Reply {
    if o.value.None? then Supervisor.Unusable(FailureReason(o.attempts))
    else Supervisor.Decision(
      if "next_speaker" in o.value.value then Strip(ShownText(o.value.value["next_speaker"])) else "",
      if "reasoning" in o.value.value then ShownText(o.value.value["reasoning"]) else "")
  }

  /** A ladder that asked for a speaker never hands the chair an empty name. */
  lemma RepliesNameSomebody(c: Caller, strategies: seq<string>)
    requires c.name == "next_speaker"
    ensures var r := ReplyOf(Climb(c, strategies, [])); r.Decision? ==> r.speaker != "" && Trimmed(r.speaker)
  {
    LadderSound(c, strategies, []);
    var o := Climb(c, strategies, []);
    if o.value.Some? {
      var i, j := StripSpan(ShownText(o.value.value["next_speaker"]));
    }
  }
}
