/** Recovering the chair's decision from a response that strict parsing threw away. The
    JSON parser is a parameter; the encodings around it are scanned as the patterns do. */
module Salvage {
  import opened Wrappers
  import opened Text

  /** A parsed value, as far as it matters here. */
  datatype Json = Str(text: string) | Falsy | Truthy(shown: string)

  type Fields = map<string, Json>

  /** A JSON parser's verdict on a text: its fields, if it is an object. */
  type Loader = string -> Option<Fields>

  datatype Decision = Decision(speaker: string, reasoning: string)

  /** A tool call: its arguments, unless they are not a mapping. */
  type CallArgs = Option<Fields>

  function ReasoningOf(f: Fields): string {
    if "reasoning" !in f then ""
    else match f["reasoning"]
         case Str(text) => Strip(text)
         case Falsy => ""
         case Truthy(shown) => Strip(shown)
  }

  /** A mapping decides when it names a speaker in text that is not blank. */
  function Decided(f: Fields): Option<Decision> {
    if "next_speaker" in f && f["next_speaker"].Str? && Strip(f["next_speaker"].text) != ""
    then Some(Decision(Strip(f["next_speaker"].text), ReasoningOf(f)))
    else None
  }

  function FromCalls(calls: seq<CallArgs>): Option<Decision> {
    if calls == [] then None
    else if calls[0].Some? && Decided(calls[0].value).Some? then Decided(calls[0].value)
    else FromCalls(calls[1..])
  }

  // The extractors

  function SkipSpace(s: string, i: nat): (j: nat)
    requires i <= |s|
    ensures i <= j <= |s|
    ensures forall k :: i <= k < j ==> IsSpace(s[k])
    ensures j < |s| ==> !IsSpace(s[j])
    decreases |s| - i
  {
    if i < |s| && IsSpace(s[i]) then SkipSpace(s, i + 1) else i
  }

  function First(s: string, c: char, from: nat): (r: Option<nat>)
    requires from <= |s|
    ensures r.Some? ==> from <= r.value < |s| && s[r.value] == c
    ensures r.None? ==> forall i :: from <= i < |s| ==> s[i] != c
    decreases |s| - from
  {
    if from == |s| then None else if s[from] == c then Some(from) else First(s, c, from + 1)
  }

  function Last(s: string, c: char): (r: Option<nat>)
    ensures r.Some? ==> r.value < |s| && s[r.value] == c && forall i :: r.value < i < |s| ==> s[i] != c
  {
    if s == [] then None else if s[|s| - 1] == c then Some(|s| - 1) else Last(s[..|s| - 1], c)
  }

  /** From the first brace to the last. */
  function JsonObject(s: string, load: Loader): Option<Fields> {
    match (First(s, '{', 0), Last(s, '}'))
    case (Some(i), Some(j)) => if i < j then load(s[i..j + 1]) else None
    case _ => None
  }

  /** The nearest closing brace with only whitespace between it and the end mark. */
  function BraceBefore(s: string, from: nat, mark: string): (r: Option<nat>)
    requires from <= |s|
    ensures r.Some? ==> from <= r.value < |s|
    decreases |s| - from
  {
    if from == |s| then None
    else if s[from] == '}' && IsAt(s, SkipSpace(s, from + 1), mark) then Some(from)
    else BraceBefore(s, from + 1, mark)
  }

  function Braced(s: string, i: nat, mark: string): Option<string>
    requires i <= |s|
  {
    var p := SkipSpace(s, i);
    if p < |s| && s[p] == '{' && BraceBefore(s, p + 1, mark).Some? then Some(s[p..BraceBefore(s, p + 1, mark).value + 1])
    else None
  }

  function FencedJson(s: string, i: nat, load: Loader): Option<Fields>
    requires i <= |s|
    decreases |s| - i
  {
    if IsAt(s, i, "```") then
      var p := if IsAt(s, i + 3, "json") then i + 7 else i + 3;
      match Braced(s, p, "```")
      case Some(blob) => load(blob)
      case None => FencedJson(s, i + 1, load)
    else if i == |s| then None
    else FencedJson(s, i + 1, load)
  }

  function FunctionMarkup(s: string, i: nat, load: Loader): Option<Fields>
    requires i <= |s|
    decreases |s| - i
  {
    if i == |s| then None
    else
      var close := if IsAt(s, i, "<function=") then First(s, '>', i + 10) else None;
      match (if close.Some? then Braced(s, close.value + 1, "</function>") else None)
      case Some(blob) => load(blob)
      case None => FunctionMarkup(s, i + 1, load)
  }

  /** The tags around a key and its value. */
  datatype Tags = Tags(ko: string, kc: string, vo: string, vc: string)

  const ARG_TAGS := Tags("<arg_key>", "</arg_key>", "<arg_value>", "</arg_value>")

  /** All the reading below relies on is that each tag starts with an angle bracket. */
  predicate Angled(g: Tags) {
    && g.ko != "" && g.kc != "" && g.vo != "" && g.vc != ""
    && g.ko[0] == '<' && g.kc[0] == '<' && g.vo[0] == '<' && g.vc[0] == '<'
  }

  datatype Pair = Pair(key: string, value: string)

  /** A text that was read, and what is left to read. */
  datatype Field = NoField | Field(text: string, rest: string)

  /** The text up to the nearest closing tag, less the whitespace before the tag. */
  function ReadField(t: string, close: string): (r: Field)
    ensures r.Field? ==> |r.rest| + |close| <= |t|
  {
    LStripShorter(t);
    if close <= LStrip(t) then Field("", LStrip(t)[|close|..])
    else if t == "" then NoField
    else
      var r := ReadField(t[1..], close);
      if r.Field? then Field([t[0]] + r.text, r.rest) else NoField
  }

  lemma LStripShorter(t: string)
    ensures |LStrip(t)| <= |t|
  {
  }

  /** After a key's closing tag: the value, if one follows. */
  function ReadValue(g: Tags, t: string): (r: Field)
    ensures r.Field? ==> |r.rest| + |g.vo| + |g.vc| <= |t|
  {
    LStripShorter(t);
    if g.vo <= LStrip(t) then
      LStripShorter(LStrip(t)[|g.vo|..]);
      ReadField(LStrip(LStrip(t)[|g.vo|..]), g.vc)
    else NoField
  }

  datatype Reading = NoPair | Reading(pair: Pair, rest: string)

  /** A key and its value: the key ends at the nearest closing tag that a value follows. */
  function ReadPair(g: Tags, t: string): (r: Reading)
    ensures r.Reading? ==> |r.rest| <= |t|
  {
    LStripShorter(t);
    var value := if g.kc <= LStrip(t) then ReadValue(g, LStrip(t)[|g.kc|..]) else NoField;
    if value.Field? then Reading(Pair("", value.text), value.rest)
    else if t == "" then NoPair
    else
      var r := ReadPair(g, t[1..]);
      if r.Reading? then Reading(Pair([t[0]] + r.pair.key, r.pair.value), r.rest) else NoPair
  }

  function Pairs(g: Tags, s: string): seq<Pair>
    decreases |s|
  {
    if s == "" then []
    else
      LStripShorter(s[1..]);
      var r := if g.ko != "" && g.ko <= s then OpenedPair(g, s) else NoPair;
      if r.Reading? then [r.pair] + Pairs(g, r.rest) else Pairs(g, s[1..])
  }

  function OpenedPair(g: Tags, s: string): (r: Reading)
    requires g.ko != "" && g.ko <= s
    ensures r.Reading? ==> |r.rest| < |s|
  {
    LStripShorter(s[|g.ko|..]);
    ReadPair(g, LStrip(s[|g.ko|..]))
  }

  /** The last value given for a key stands. */
  function Dict(ps: seq<Pair>): Fields {
    if ps == [] then map[] else Dict(ps[..|ps| - 1])[ps[|ps| - 1].key := Str(ps[|ps| - 1].value)]
  }

  function ArgKeyMarkup(s: string): Option<Fields> {
    if Pairs(ARG_TAGS, s) == [] then None else Some(Dict(Pairs(ARG_TAGS, s)))
  }

  function DecidedBy(found: Option<Fields>): Option<Decision> {
    if found.Some? then Decided(found.value) else None
  }

  function Or(a: Option<Decision>, b: Option<Decision>): Option<Decision> {
    if a.Some? then a else b
  }

  function FromText(text: string, load: Loader): Option<Decision> {
    Or(DecidedBy(JsonObject(text, load)),
       Or(DecidedBy(FencedJson(text, 0, load)),
          Or(DecidedBy(ArgKeyMarkup(text)), DecidedBy(FunctionMarkup(text, 0, load)))))
  }

  function SalvageDecision(calls: seq<CallArgs>, content: string, load: Loader): Option<Decision> {
    if FromCalls(calls).Some? then FromCalls(calls)
    else if Strip(content) == "" then None
    else FromText(Strip(content), load)
  }

  // What it promises

  /** Whatever is salvaged names a speaker, trimmed and not blank. */
  lemma SalvagedIsTrimmed(calls: seq<CallArgs>, content: string, load: Loader)
    ensures SalvageDecision(calls, content, load).Some? ==>
              var d := SalvageDecision(calls, content, load).value;
              d.speaker != "" && Trimmed(d.speaker) && Trimmed(d.reasoning)
  {
    forall f: Fields | Decided(f).Some? ensures Trimmed(Decided(f).value.speaker) && Trimmed(Decided(f).value.reasoning) {
      var i, j := StripSpan(f["next_speaker"].text);
      if "reasoning" in f && f["reasoning"].Str? {
        var k, l := StripSpan(f["reasoning"].text);
      }
      if "reasoning" in f && f["reasoning"].Truthy? {
        var k, l := StripSpan(f["reasoning"].shown);
      }
    }
    CallsDecide(calls);
  }

  lemma CallsDecide(calls: seq<CallArgs>)
    ensures FromCalls(calls).Some? ==> exists f :: Decided(f) == FromCalls(calls)
  {
    if calls != [] && !(calls[0].Some? && Decided(calls[0].value).Some?) {
      CallsDecide(calls[1..]);
    }
  }

  /** A usable tool call settles the matter, whatever the text says. */
  lemma CallsComeFirst(calls: seq<CallArgs>, i: nat, content: string, load: Loader)
    requires i < |calls| && calls[i].Some? && Decided(calls[i].value).Some?
    requires forall j :: 0 <= j < i && calls[j].Some? ==> Decided(calls[j].value).None?
    ensures SalvageDecision(calls, content, load) == Decided(calls[i].value)
  {
    if i > 0 {
      assert calls[1..][i - 1] == calls[i];
      CallsComeFirst(calls[1..], i - 1, content, load);
    }
  }

  lemma {:induction false} LStripFront(s: string, rest: string)
    requires rest != "" && !IsSpace(rest[0])
    ensures LStrip(s + rest) == LStrip(s) + rest
  {
    if s == "" {
      assert s + rest == rest;
    } else {
      assert (s + rest)[0] == s[0] && (s + rest)[1..] == s[1..] + rest;
      LStripFront(s[1..], rest);
    }
  }

  lemma {:induction false} RStripBack(front: string, s: string)
    requires front != "" && !IsSpace(front[|front| - 1])
    ensures RStrip(front + s) == front + RStrip(s)
  {
    if s == "" {
      assert front + s == front;
    } else {
      var n := |front| + |s| - 1;
      assert (front + s)[n] == s[|s| - 1] && (front + s)[..n] == front + s[..|s| - 1];
      RStripBack(front, s[..|s| - 1]);
    }
  }

  /** Stripping prose around an object takes whitespace off its far ends only. */
  lemma ProseStripped(before: string, obj: string, after: string)
    requires Solid(obj)
    ensures Strip(before + obj + after) == LStrip(before) + obj + RStrip(after)
  {
    assert before + obj + after == before + (obj + after);
    LStripFront(before, obj + after);
    assert LStrip(before) + (obj + after) == (LStrip(before) + obj) + after;
    RStripBack(LStrip(before) + obj, after);
  }

  lemma StrippedHas(s: string, c: char)
    requires c !in s
    ensures c !in LStrip(s) && c !in RStrip(s)
  {
    var i := LStripSpan(s);
    var j := RStripSpan(s);
  }

  /** A JSON object in prose is found whole, as long as nothing before it opens a brace and
      nothing after it closes one. */
  lemma ObjectInProse(before: string, body: string, after: string, load: Loader)
    requires '{' !in before && '}' !in after
    requires load("{" + body + "}").Some? && Decided(load("{" + body + "}").value).Some?
    ensures SalvageDecision([], before + ("{" + body + "}") + after, load) == Decided(load("{" + body + "}").value)
  {
    var obj := "{" + body + "}";
    ProseStripped(before, obj, after);
    StrippedHas(before, '{');
    StrippedHas(after, '}');
    ObjectBetween(LStrip(before), body, RStrip(after), load);
  }

  lemma ObjectBetween(before: string, body: string, after: string, load: Loader)
    requires '{' !in before && '}' !in after
    ensures JsonObject(before + ("{" + body + "}") + after, load) == load("{" + body + "}")
  {
    var obj := "{" + body + "}";
    var s := before + obj + after;
    var j := |before| + |body| + 1;
    assert s[|before|] == '{' && s[j] == '}';
    FirstIs(s, '{', 0, |before|);
    LastIs(s, '}', j);
    assert s[|before|..j + 1] == obj;
  }

  lemma FirstIs(s: string, c: char, from: nat, i: nat)
    requires from <= i < |s| && s[i] == c && forall j :: from <= j < i ==> s[j] != c
    ensures First(s, c, from) == Some(i)
    decreases i - from
  {
  }

  lemma LastIs(s: string, c: char, i: nat)
    requires i < |s| && s[i] == c && forall j :: i < j < |s| ==> s[j] != c
    ensures Last(s, c) == Some(i)
  {
    if i < |s| - 1 {
      LastIs(s[..|s| - 1], c, i);
    }
  }

  // An object in a fence, or in a function tag

  lemma SkipsTo(s: string, i: nat, j: nat)
    requires i <= j < |s| && !IsSpace(s[j]) && forall k :: i <= k < j ==> IsSpace(s[k])
    ensures SkipSpace(s, i) == j
  {
  }

  lemma Starts(s: string, i: nat, pat: string)
    requires pat != ""
    ensures IsAt(s, i, pat) ==> i < |s| && s[i] == pat[0]
  {
    if IsAt(s, i, pat) {
      IsAtIndex(s, i, pat, 0);
    }
  }

  lemma NotYet(s: string, from: nat, q: nat, mark: string)
    requires from < q < |s| && s[q] == '}' && mark != "" && mark[0] != '}' && forall k :: from <= k < q ==> s[k] != mark[0]
    ensures !IsAt(s, SkipSpace(s, from + 1), mark)
  {
    Starts(s, SkipSpace(s, from + 1), mark);
  }

  /** The brace at q is the nearest one before the mark, if nothing up to it looks like the mark. */
  lemma {:induction false} BraceFound(s: string, from: nat, q: nat, mark: string)
    requires from <= q < |s| && s[q] == '}' && IsAt(s, SkipSpace(s, q + 1), mark)
    requires mark != "" && mark[0] != '}' && forall k :: from <= k < q ==> s[k] != mark[0]
    ensures BraceBefore(s, from, mark) == Some(q)
    decreases q - from
  {
    if from < q {
      BraceFound(s, from + 1, q, mark);
      NotYet(s, from, q, mark);
    }
  }

  /** What the text has left from here. */
  predicate Rest(s: string, i: nat, t: string) {
    i <= |s| && s[i..] == t
  }

  lemma Step(s: string, i: nat, x: string, t: string)
    requires Rest(s, i, x + t)
    ensures IsAt(s, i, x) && Rest(s, i + |x|, t)
  {
    assert s[i..][..|x|] == x && s[i..][|x|..] == t;
  }

  predicate BlankFrom(s: string, i: nat, j: nat) {
    j <= |s| && forall k :: i <= k < j ==> IsSpace(s[k])
  }

  predicate Without(s: string, c: char, i: nat, j: nat) {
    j <= |s| && forall k :: i <= k < j ==> s[k] != c
  }

  /** Whitespace, an object from p to q, whitespace, and the mark. */
  lemma BracedIn(s: string, i: nat, p: nat, q: nat, r: nat, mark: string)
    requires i <= p < q < r < |s| && s[p] == '{' && s[q] == '}' && IsAt(s, r, mark)
    requires mark != "" && mark[0] != '}' && !IsSpace(mark[0])
    requires BlankFrom(s, i, p) && BlankFrom(s, q + 1, r) && Without(s, mark[0], p + 1, q)
    ensures Braced(s, i, mark) == Some(s[p..q + 1])
  {
    Starts(s, r, mark);
    SkipsTo(s, i, p);
    SkipsTo(s, q + 1, r);
    BraceFound(s, p + 1, q, mark);
  }

  lemma PadAt(s: string, i: nat, pad: string)
    requires Blank(pad) && IsAt(s, i, pad)
    ensures BlankFrom(s, i, i + |pad|)
  {
    forall k | i <= k < i + |pad| ensures IsSpace(s[k]) {
      IsAtIndex(s, i, pad, k - i);
    }
  }

  lemma ObjectAt(s: string, p: nat, body: string, c: char)
    requires IsAt(s, p, "{" + body + "}") && c !in body
    ensures s[p] == '{' && s[p + |body| + 1] == '}' && Without(s, c, p + 1, p + |body| + 1)
  {
    var obj := "{" + body + "}";
    IsAtIndex(s, p, obj, 0);
    IsAtIndex(s, p, obj, |body| + 1);
    forall k | p < k < p + |body| + 1 ensures s[k] != c {
      IsAtIndex(s, p, obj, k - p);
      assert obj[k - p] == body[k - p - 1];
    }
  }

  /** An object with whitespace around it, before a closing mark. */
  function Wrapped(pad: string, body: string, shut: string, after: string): string {
    pad + (("{" + body + "}") + (pad + (shut + after)))
  }

  lemma BracedReads(s: string, i: nat, pad: string, body: string, shut: string, after: string)
    requires Blank(pad) && shut != "" && shut[0] !in body && shut[0] != '}' && !IsSpace(shut[0])
    requires Rest(s, i, Wrapped(pad, body, shut, after))
    ensures Braced(s, i, shut) == Some("{" + body + "}")
  {
    var obj := "{" + body + "}";
    var p := i + |pad|;
    var q := p + |body| + 1;
    Step(s, i, pad, obj + (pad + (shut + after)));
    Step(s, p, obj, pad + (shut + after));
    Step(s, q + 1, pad, shut + after);
    Step(s, q + 1 + |pad|, shut, after);
    PadAt(s, i, pad);
    ObjectAt(s, p, body, shut[0]);
    PadAt(s, q + 1, pad);
    BracedIn(s, i, p, q, q + 1 + |pad|, shut);
  }

  lemma {:induction false} RStripOver(front: string, s: string)
    requires RStrip(s) != ""
    ensures RStrip(front + s) == front + RStrip(s)
  {
    var n := |s| - 1;
    assert (front + s)[|front| + n] == s[n] && (front + s)[..|front| + n] == front + s[..n];
    if IsSpace(s[n]) {
      RStripOver(front, s[..n]);
    }
  }

  lemma WrappedStripped(pad: string, body: string, shut: string, after: string)
    requires Solid(shut)
    ensures RStrip(Wrapped(pad, body, shut, after)) == Wrapped(pad, body, shut, RStrip(after))
  {
    var obj := "{" + body + "}";
    RStripBack(shut, after);
    RStripOver(pad, shut + after);
    RStripOver(obj, pad + (shut + after));
    RStripOver(pad, obj + (pad + (shut + after)));
  }

  /** Prose before, and a mark, with the object after it. */
  lemma ProseAround(before: string, open: string, t: string)
    requires Solid(open) && RStrip(t) != ""
    ensures Strip(before + (open + t)) == LStrip(before) + (open + RStrip(t))
    ensures Strip(before + (open + t)) != ""
  {
    RStripOver(open, t);
    RStripOver(LStrip(before), open + t);
    LStripFront(before, open + t);
  }

  lemma {:induction false} FenceSkips(s: string, i: nat, n: nat, load: Loader)
    requires i <= n <= |s| && forall k :: i <= k < n ==> s[k] != '`'
    ensures FencedJson(s, i, load) == FencedJson(s, n, load)
    decreases n - i
  {
    if i < n {
      Starts(s, i, "```");
      FenceSkips(s, i + 1, n, load);
    }
  }

  lemma {:induction false} FunctionSkips(s: string, i: nat, n: nat, load: Loader)
    requires i <= n <= |s| && forall k :: i <= k < n ==> s[k] != '<'
    ensures FunctionMarkup(s, i, load) == FunctionMarkup(s, n, load)
    decreases n - i
  {
    if i < n {
      Starts(s, i, "<function=");
      FunctionSkips(s, i + 1, n, load);
    }
  }

  lemma FenceIn(s: string, n: nat, blob: string, load: Loader)
    requires n <= |s| && forall k :: 0 <= k < n ==> s[k] != '`'
    requires IsAt(s, n, "```") && IsAt(s, n + 3, "json") && Braced(s, n + 7, "```") == Some(blob)
    ensures FencedJson(s, 0, load) == load(blob)
  {
    FenceSkips(s, 0, n, load);
  }

  lemma FunctionHere(s: string, n: nat, close: nat, blob: string, load: Loader)
    requires n + 10 <= |s| && IsAt(s, n, "<function=") && First(s, '>', n + 10) == Some(close)
    requires Braced(s, close + 1, "</function>") == Some(blob)
    ensures FunctionMarkup(s, n, load) == load(blob)
  {
  }

  lemma ProseLacks(s: string, before: string, t: string, c: char)
    requires Rest(s, 0, before + t) && c !in before
    ensures Without(s, c, 0, |before|) && Rest(s, |before|, t)
  {
    Step(s, 0, before, t);
    forall k | 0 <= k < |before| ensures s[k] != c {
      IsAtIndex(s, 0, before, k);
    }
  }

  function Fenced(pad: string, body: string, after: string): string {
    "```" + ("json" + Wrapped(pad, body, "```", after))
  }

  /** The first fence of a text is read, whatever braces the prose around it has. */
  lemma FenceReads(before: string, pad: string, body: string, after: string, load: Loader)
    requires Blank(pad) && '`' !in before && '`' !in body
    ensures FencedJson(before + Fenced(pad, body, after), 0, load) == load("{" + body + "}")
  {
    var s := before + Fenced(pad, body, after);
    ProseLacks(s, before, Fenced(pad, body, after), '`');
    Step(s, |before|, "```", "json" + Wrapped(pad, body, "```", after));
    Step(s, |before| + 3, "json", Wrapped(pad, body, "```", after));
    BracedReads(s, |before| + 7, pad, body, "```", after);
    FenceIn(s, |before|, "{" + body + "}", load);
  }

  /** A decision in a fence is found in any prose without another fence, when the text from its first
      brace to its last is no decision. */
  lemma FenceSalvaged(before: string, pad: string, body: string, after: string, load: Loader)
    requires Blank(pad) && '`' !in before && '`' !in body
    requires load("{" + body + "}").Some? && Decided(load("{" + body + "}").value).Some?
    requires DecidedBy(JsonObject(Strip(before + Fenced(pad, body, after)), load)) == None
    ensures SalvageDecision([], before + Fenced(pad, body, after), load) == Decided(load("{" + body + "}").value)
  {
    WrappedStripped(pad, body, "```", after);
    RStripOver("json", Wrapped(pad, body, "```", after));
    ProseAround(before, "```", "json" + Wrapped(pad, body, "```", after));
    StrippedHas(before, '`');
    FenceReads(LStrip(before), pad, body, RStrip(after), load);
  }

  const FUNCTION := "<function="
  const FUNCTION_END := "</function>"

  function Tagged(name: string, pad: string, body: string, after: string): string {
    FUNCTION + (name + (">" + Wrapped(pad, body, FUNCTION_END, after)))
  }

  lemma NameEnds(s: string, i: nat, name: string)
    requires '>' !in name && IsAt(s, i, name) && IsAt(s, i + |name|, ">")
    ensures First(s, '>', i) == Some(i + |name|)
  {
    IsAtIndex(s, i + |name|, ">", 0);
    forall k | i <= k < i + |name| ensures s[k] != '>' {
      IsAtIndex(s, i, name, k - i);
    }
    FirstIs(s, '>', i, i + |name|);
  }

  lemma FunctionMarks()
    ensures |FUNCTION| == 10 && FUNCTION_END[0] == '<' && Solid(FUNCTION) && Solid(FUNCTION_END)
  {
  }

  lemma TagReads(s: string, n: nat, tag: string, name: string, t: string)
    requires '>' !in name && Rest(s, n, tag + (name + (">" + t)))
    ensures var close := n + |tag| + |name|;
            && IsAt(s, n, tag) && First(s, '>', n + |tag|) == Some(close) && close < |s| && Rest(s, close + 1, t)
  {
    Step(s, n, tag, name + (">" + t));
    Step(s, n + |tag|, name, ">" + t);
    Step(s, n + |tag| + |name|, ">", t);
    NameEnds(s, n + |tag|, name);
  }

  lemma ProseSkipped(before: string, t: string, load: Loader)
    requires '<' !in before
    ensures FunctionMarkup(before + t, 0, load) == FunctionMarkup(before + t, |before|, load)
    ensures Rest(before + t, |before|, t)
  {
    ProseLacks(before + t, before, t, '<');
    FunctionSkips(before + t, 0, |before|, load);
  }

  lemma TaggedAt(s: string, n: nat, name: string, pad: string, body: string, after: string, load: Loader)
    requires Blank(pad) && '<' !in body && '>' !in name && Rest(s, n, Tagged(name, pad, body, after))
    ensures FunctionMarkup(s, n, load) == load("{" + body + "}")
  {
    var close := n + |FUNCTION| + |name|;
    FunctionMarks();
    TagReads(s, n, FUNCTION, name, Wrapped(pad, body, FUNCTION_END, after));
    BracedReads(s, close + 1, pad, body, FUNCTION_END, after);
    FunctionHere(s, n, close, "{" + body + "}", load);
  }

  /** The first function tag of a text is read, whatever it is called. */
  lemma FunctionReads(before: string, name: string, pad: string, body: string, after: string, load: Loader)
    requires Blank(pad) && '<' !in before && '<' !in body && '>' !in name
    ensures FunctionMarkup(before + Tagged(name, pad, body, after), 0, load) == load("{" + body + "}")
  {
    var tagged := Tagged(name, pad, body, after);
    ProseSkipped(before, tagged, load);
    TaggedAt(before + tagged, |before|, name, pad, body, after, load);
  }

  /** A decision in a function tag is found, when nothing tried before it finds one. */
  lemma FunctionSalvaged(before: string, name: string, pad: string, body: string, after: string, load: Loader)
    requires Blank(pad) && '<' !in before && '<' !in body && '>' !in name
    requires load("{" + body + "}").Some? && Decided(load("{" + body + "}").value).Some?
    requires var s := Strip(before + Tagged(name, pad, body, after));
             && DecidedBy(JsonObject(s, load)) == None && DecidedBy(FencedJson(s, 0, load)) == None
             && DecidedBy(ArgKeyMarkup(s)) == None
    ensures SalvageDecision([], before + Tagged(name, pad, body, after), load) == Decided(load("{" + body + "}").value)
  {
    var t := Wrapped(pad, body, FUNCTION_END, after);
    FunctionMarks();
    WrappedStripped(pad, body, FUNCTION_END, after);
    RStripOver(">", t);
    RStripOver(name, ">" + t);
    ProseAround(before, FUNCTION, name + (">" + t));
    StrippedHas(before, '<');
    FunctionReads(LStrip(before), name, pad, body, RStrip(after), load);
  }

  // Arguments written out as markup

  /** Trimmed text without the characters the encodings are made of. */
  predicate Plain(s: string) {
    Trimmed(s) && '<' !in s && '{' !in s
  }

  predicate Blank(s: string) {
    forall i :: 0 <= i < |s| ==> IsSpace(s[i])
  }

  predicate AllPlain(ps: seq<Pair>) {
    forall i :: 0 <= i < |ps| ==> Plain(ps[i].key) && Plain(ps[i].value)
  }

  // Reading what was written

  /** Text that does not start like a tag, once leading whitespace is gone. */
  lemma TextIsNoTag(text: string, rest: string, tag: string)
    requires text != "" && !IsSpace(text[|text| - 1]) && '<' !in text && tag != "" && tag[0] == '<'
    ensures !(tag <= LStrip(text + rest))
  {
    if IsSpace(text[0]) {
      assert (text + rest)[1..] == text[1..] + rest;
      TextIsNoTag(text[1..], rest, tag);
    } else {
      assert LStrip(text + rest)[0] == text[0];
    }
  }

  lemma TagStaysPut(tag: string, rest: string)
    requires tag != "" && tag[0] == '<'
    ensures LStrip(tag + rest) == tag + rest && (tag + rest)[|tag|..] == rest && tag <= tag + rest
  {
    assert (tag + rest)[0] == '<';
  }

  lemma {:induction false} FieldReads(text: string, close: string, rest: string)
    requires (text != "" ==> !IsSpace(text[|text| - 1])) && '<' !in text && close != "" && close[0] == '<'
    ensures ReadField(text + (close + rest), close) == Field(text, rest)
  {
    if text == "" {
      assert text + (close + rest) == close + rest;
      TagStaysPut(close, rest);
    } else {
      var t := text + (close + rest);
      TextIsNoTag(text, close + rest, close);
      assert t[1..] == text[1..] + (close + rest);
      FieldReads(text[1..], close, rest);
      assert [t[0]] + text[1..] == text;
    }
  }

  lemma {:induction false} PadGoes(pad: string, rest: string)
    requires Blank(pad)
    ensures LStrip(pad + rest) == LStrip(rest)
  {
    if pad == "" {
      assert pad + rest == rest;
    } else {
      assert (pad + rest)[1..] == pad[1..] + rest;
      PadGoes(pad[1..], rest);
    }
  }

  lemma TextStaysPut(text: string, tag: string, rest: string)
    requires Trimmed(text) && tag != "" && tag[0] == '<'
    ensures LStrip(text + (tag + rest)) == text + (tag + rest)
  {
    if text == "" {
      assert text + (tag + rest) == tag + rest;
      TagStaysPut(tag, rest);
    }
  }

  function ValuePart(g: Tags, pad: string, value: string, rest: string): string {
    pad + (g.vo + (value + (g.vc + rest)))
  }

  lemma ValueReads(g: Tags, pad: string, value: string, rest: string)
    requires Angled(g) && Blank(pad) && Plain(value)
    ensures ReadValue(g, ValuePart(g, pad, value, rest)) == Field(value, rest)
  {
    var body := value + (g.vc + rest);
    PadGoes(pad, g.vo + body);
    TagStaysPut(g.vo, body);
    TextStaysPut(value, g.vc, rest);
    FieldReads(value, g.vc, rest);
  }

  function KeyPart(g: Tags, key: string, pad: string, value: string, rest: string): string {
    key + (g.kc + ValuePart(g, pad, value, rest))
  }

  lemma {:induction false} PairReads(g: Tags, key: string, pad: string, value: string, rest: string)
    requires Angled(g) && Blank(pad) && Plain(value)
    requires (key != "" ==> !IsSpace(key[|key| - 1])) && '<' !in key
    ensures ReadPair(g, KeyPart(g, key, pad, value, rest)) == Reading(Pair(key, value), rest)
  {
    var t := KeyPart(g, key, pad, value, rest);
    var after := ValuePart(g, pad, value, rest);
    if key == "" {
      assert t == g.kc + after;
      TagStaysPut(g.kc, after);
      ValueReads(g, pad, value, rest);
    } else {
      TextIsNoTag(key, g.kc + after, g.kc);
      assert t[1..] == KeyPart(g, key[1..], pad, value, rest);
      PairReads(g, key[1..], pad, value, rest);
      assert [t[0]] + key[1..] == key;
    }
  }

  function Markup(g: Tags, p: Pair, pad: string, rest: string): string {
    g.ko + KeyPart(g, p.key, pad, p.value, rest)
  }

  /** A written pair is read as it was written, and the scan goes on behind it. */
  lemma MarkupReads(g: Tags, p: Pair, pad: string, rest: string)
    requires Angled(g) && Blank(pad) && Plain(p.key) && Plain(p.value)
    ensures Pairs(g, Markup(g, p, pad, rest)) == [p] + Pairs(g, rest)
  {
    var body := KeyPart(g, p.key, pad, p.value, rest);
    TagStaysPut(g.ko, body);
    TextStaysPut(p.key, g.kc, ValuePart(g, pad, p.value, rest));
    PairReads(g, p.key, pad, p.value, rest);
  }

  lemma {:induction false} PadSkipped(g: Tags, pad: string, rest: string)
    requires Angled(g) && Blank(pad)
    ensures Pairs(g, pad + rest) == Pairs(g, rest)
  {
    if pad == "" {
      assert pad + rest == rest;
    } else {
      assert (pad + rest)[1..] == pad[1..] + rest;
      PadSkipped(g, pad[1..], rest);
      assert (pad + rest)[0] != '<';
    }
  }

  /** Pairs one after the other, each followed by padding. */
  function Print(g: Tags, ps: seq<Pair>, pad: string): string {
    if ps == [] then "" else Markup(g, ps[0], pad, pad + Print(g, ps[1..], pad))
  }

  // What is left of markup that was cut off

  predicate Occurs(s: string, pat: string) {
    pat <= s || (s != "" && Occurs(s[1..], pat))
  }

  lemma {:induction false} LStripOccurs(s: string, pat: string)
    requires !Occurs(s, pat)
    ensures !Occurs(LStrip(s), pat)
  {
    if s != "" && IsSpace(s[0]) {
      LStripOccurs(s[1..], pat);
    }
  }

  lemma {:induction false} DropOccurs(s: string, n: nat, pat: string)
    requires !Occurs(s, pat) && n <= |s|
    ensures !Occurs(s[n..], pat)
  {
    if n > 0 {
      assert s[n..] == s[1..][n - 1..];
      DropOccurs(s[1..], n - 1, pat);
    } else {
      assert s[0..] == s;
    }
  }

  lemma {:induction false} NoFieldWithoutClose(t: string, close: string)
    requires !Occurs(t, close)
    ensures ReadField(t, close) == NoField
  {
    LStripOccurs(t, close);
    if t != "" {
      NoFieldWithoutClose(t[1..], close);
    }
  }

  lemma NoValueWithoutClose(g: Tags, t: string)
    requires !Occurs(t, g.vc)
    ensures ReadValue(g, t) == NoField
  {
    LStripOccurs(t, g.vc);
    if g.vo <= LStrip(t) {
      DropOccurs(LStrip(t), |g.vo|, g.vc);
      LStripOccurs(LStrip(t)[|g.vo|..], g.vc);
      NoFieldWithoutClose(LStrip(LStrip(t)[|g.vo|..]), g.vc);
    }
  }

  lemma {:induction false} NoPairWithoutClose(g: Tags, t: string)
    requires !Occurs(t, g.vc)
    ensures ReadPair(g, t) == NoPair
  {
    LStripOccurs(t, g.vc);
    if g.kc <= LStrip(t) {
      DropOccurs(LStrip(t), |g.kc|, g.vc);
      NoValueWithoutClose(g, LStrip(t)[|g.kc|..]);
    }
    if t != "" {
      NoPairWithoutClose(g, t[1..]);
    }
  }

  /** Without a closing value tag there is no pair to read. */
  lemma {:induction false} NothingWithoutClose(g: Tags, s: string)
    requires !Occurs(s, g.vc)
    ensures Pairs(g, s) == []
    decreases |s|
  {
    if s != "" {
      NothingWithoutClose(g, s[1..]);
      if g.ko != "" && g.ko <= s {
        DropOccurs(s, |g.ko|, g.vc);
        LStripOccurs(s[|g.ko|..], g.vc);
        NoPairWithoutClose(g, LStrip(s[|g.ko|..]));
      }
    }
  }

  predicate Differ(a: string, b: string) {
    exists k :: 0 <= k < |a| && k < |b| && a[k] != b[k]
  }

  /** The tags cannot be mistaken for the closing value tag. */
  predicate Distinguishable(g: Tags) {
    && Angled(g)
    && '<' !in g.ko[1..] && '<' !in g.kc[1..] && '<' !in g.vo[1..] && '<' !in g.vc[1..]
    && Differ(g.ko, g.vc) && Differ(g.kc, g.vc) && Differ(g.vo, g.vc)
  }

  lemma {:induction false} FlatOccurs(text: string, rest: string, tag: string)
    requires '<' !in text && tag != "" && tag[0] == '<'
    ensures Occurs(text + rest, tag) <==> Occurs(rest, tag)
  {
    if text == "" {
      assert text + rest == rest;
    } else {
      assert (text + rest)[1..] == text[1..] + rest;
      assert (text + rest)[0] != '<';
      FlatOccurs(text[1..], rest, tag);
    }
  }

  lemma TagOccurs(tag: string, rest: string, close: string)
    requires tag != "" && '<' !in tag[1..] && close != "" && close[0] == '<' && Differ(tag, close)
    ensures Occurs(tag + rest, close) <==> Occurs(rest, close)
  {
    var k :| 0 <= k < |tag| && k < |close| && tag[k] != close[k];
    assert (tag + rest)[k] == tag[k];
    assert (tag + rest)[1..] == tag[1..] + rest;
    FlatOccurs(tag[1..], rest, close);
  }

  lemma TooShort(tag: string, n: nat)
    requires tag != "" && tag[0] == '<' && '<' !in tag[1..] && n < |tag|
    ensures !Occurs(tag[..n], tag)
  {
    if n > 0 {
      assert tag[..n][1..] == tag[1..n];
      assert '<' !in tag[1..n] by {
        assert forall i :: 0 <= i < n - 1 ==> tag[1..n][i] == tag[1..][i];
      }
      FlatHasNone(tag[1..n], tag);
    }
  }

  lemma FlatHasNone(text: string, tag: string)
    requires '<' !in text && tag != "" && tag[0] == '<'
    ensures !Occurs(text, tag)
  {
    FlatOccurs(text, "", tag);
    assert text + "" == text;
  }

  /** Cutting a text in two parts within the first, or within the second. */
  lemma CutText(text: string, rest: string, n: nat, close: string)
    requires n <= |text| + |rest| && '<' !in text && close != "" && close[0] == '<'
    requires n > |text| ==> !Occurs(rest[..n - |text|], close)
    ensures !Occurs((text + rest)[..n], close)
  {
    if n <= |text| {
      assert (text + rest)[..n] == text[..n];
      FlatHasNone(text[..n], close);
    } else {
      assert (text + rest)[..n] == text + rest[..n - |text|];
      FlatOccurs(text, rest[..n - |text|], close);
    }
  }

  lemma CutTag(tag: string, rest: string, n: nat, close: string)
    requires n <= |tag| + |rest| && tag != "" && '<' !in tag[1..] && close != "" && close[0] == '<' && Differ(tag, close)
    requires n > |tag| ==> !Occurs(rest[..n - |tag|], close)
    ensures !Occurs((tag + rest)[..n], close)
  {
    if n <= |tag| {
      assert (tag + rest)[..n] == tag[..n];
      CutOneTag(tag, n, close);
    } else {
      assert (tag + rest)[..n] == tag + rest[..n - |tag|];
      TagOccurs(tag, rest[..n - |tag|], close);
    }
  }

  lemma CutOneTag(tag: string, n: nat, close: string)
    requires tag != "" && n <= |tag| && '<' !in tag[1..] && close != "" && close[0] == '<' && Differ(tag, close)
    ensures !Occurs(tag[..n], close)
  {
    if n > 0 {
      assert tag[..n][1..] == tag[1..n];
      assert '<' !in tag[1..n] by {
        assert forall i :: 0 <= i < n - 1 ==> tag[1..n][i] == tag[1..][i];
      }
      FlatHasNone(tag[1..n], close);
      var k :| 0 <= k < |tag| && k < |close| && tag[k] != close[k];
      assert k < n ==> tag[..n][k] == tag[k];
    }
  }

  /** A pair cut off before its last character cannot be read. */
  lemma CutPair(g: Tags, p: Pair, pad: string, rest: string, n: nat)
    requires Distinguishable(g) && Plain(p.key) && Plain(p.value) && Blank(pad)
    requires n < |g.ko| + |p.key| + |g.kc| + |pad| + |g.vo| + |p.value| + |g.vc|
    ensures n <= |Markup(g, p, pad, rest)| && Pairs(g, Markup(g, p, pad, rest)[..n]) == []
  {
    var t1 := g.vc + rest;
    var t2 := p.value + t1;
    var t3 := g.vo + t2;
    var t4 := pad + t3;
    var t5 := g.kc + t4;
    var t6 := p.key + t5;
    var n6 := n - |g.ko|;
    var n5 := n6 - |p.key|;
    var n4 := n5 - |g.kc|;
    var n3 := n4 - |pad|;
    var n2 := n3 - |g.vo|;
    var n1 := n2 - |p.value|;
    assert '<' !in pad;
    if n1 >= 0 {
      assert t1[..n1] == g.vc[..n1];
      TooShort(g.vc, n1);
    }
    if n2 >= 0 {
      CutText(p.value, t1, n2, g.vc);
    }
    if n3 >= 0 {
      CutTag(g.vo, t2, n3, g.vc);
    }
    if n4 >= 0 {
      CutText(pad, t3, n4, g.vc);
    }
    if n5 >= 0 {
      CutTag(g.kc, t4, n5, g.vc);
    }
    if n6 >= 0 {
      CutText(p.key, t5, n6, g.vc);
    }
    CutTag(g.ko, t6, n, g.vc);
    NothingWithoutClose(g, Markup(g, p, pad, rest)[..n]);
  }

  function Size(g: Tags, p: Pair, pad: string): nat {
    |g.ko| + |p.key| + |g.kc| + |pad| + |g.vo| + |p.value| + |g.vc|
  }

  /** What is left of a limit after so many characters. */
  function Left(m: nat, k: nat): nat {
    if m > k then m - k else 0
  }

  /** How many pairs are complete within the first n characters. */
  function Fits(g: Tags, ps: seq<Pair>, pad: string, n: nat): (k: nat)
    ensures k <= |ps|
  {
    if ps == [] || Size(g, ps[0], pad) > n then 0
    else
      var m := n - Size(g, ps[0], pad);
      1 + Fits(g, ps[1..], pad, Left(m, |pad|))
  }

  lemma MarkupSize(g: Tags, p: Pair, pad: string, rest: string)
    ensures |Markup(g, p, pad, rest)| == Size(g, p, pad) + |rest|
  {
  }

  lemma ClipMarkup(g: Tags, p: Pair, pad: string, rest: string, n: nat)
    requires n >= Size(g, p, pad)
    ensures Clip(Markup(g, p, pad, rest), n) == Markup(g, p, pad, Clip(rest, n - Size(g, p, pad)))
  {
    MarkupSize(g, p, pad, rest);
    var m := n - Size(g, p, pad);
    if |rest| > m {
      TakeMarkup(g, p, pad, rest, m);
    }
  }

  lemma TakeMarkup(g: Tags, p: Pair, pad: string, rest: string, m: nat)
    requires m <= |rest|
    ensures Markup(g, p, pad, rest)[..Size(g, p, pad) + m] == Markup(g, p, pad, rest[..m])
  {
    var n1 := |g.vc| + m;
    var n2 := |p.value| + n1;
    var n3 := |g.vo| + n2;
    var n4 := |pad| + n3;
    var n5 := |g.kc| + n4;
    var n6 := |p.key| + n5;
    TakeOver(g.vc, rest, m);
    TakeOver(p.value, g.vc + rest, n1);
    TakeOver(g.vo, p.value + (g.vc + rest), n2);
    TakeOver(pad, g.vo + (p.value + (g.vc + rest)), n3);
    TakeOver(g.kc, ValuePart(g, pad, p.value, rest), n4);
    TakeOver(p.key, g.kc + ValuePart(g, pad, p.value, rest), n5);
    TakeOver(g.ko, KeyPart(g, p.key, pad, p.value, rest), n6);
  }

  lemma TakeOver(a: string, b: string, m: nat)
    requires m <= |b|
    ensures (a + b)[..|a| + m] == a + b[..m]
  {
  }

  lemma {:induction false} BlankHasNone(g: Tags, pad: string)
    requires Angled(g) && Blank(pad)
    ensures Pairs(g, pad) == []
  {
    PadSkipped(g, pad, "");
    assert pad + "" == pad;
  }

  /** One pair that fits, and then what the rest gives. */
  lemma OneFits(g: Tags, ps: seq<Pair>, pad: string, n: nat, m: nat)
    requires Angled(g) && Blank(pad) && AllPlain(ps) && ps != [] && n == Size(g, ps[0], pad) + m
    requires Pairs(g, Clip(Print(g, ps[1..], pad), Left(m, |pad|))) == ps[1..][..Fits(g, ps[1..], pad, Left(m, |pad|))]
    ensures Pairs(g, Clip(Print(g, ps, pad), n)) == ps[..Fits(g, ps, pad, n)]
  {
    var more := Print(g, ps[1..], pad);
    assert Print(g, ps, pad) == Markup(g, ps[0], pad, pad + more);
    ClippedFirst(g, ps[0], pad, more, n, m);
    TakeOneMore(ps, Fits(g, ps[1..], pad, Left(m, |pad|)));
  }

  lemma NoneFits(g: Tags, ps: seq<Pair>, pad: string, n: nat)
    requires Distinguishable(g) && Blank(pad) && AllPlain(ps) && ps != [] && Size(g, ps[0], pad) > n
    ensures Pairs(g, Clip(Print(g, ps, pad), n)) == []
  {
    var rest := pad + Print(g, ps[1..], pad);
    assert Print(g, ps, pad) == Markup(g, ps[0], pad, rest);
    MarkupSize(g, ps[0], pad, rest);
    CutPair(g, ps[0], pad, rest, n);
  }

  /** Of markup that was cut off, exactly the pairs that are complete are read. */
  lemma {:induction false} ClippedReads(g: Tags, ps: seq<Pair>, pad: string, n: nat)
    requires Distinguishable(g) && Blank(pad) && AllPlain(ps)
    ensures Pairs(g, Clip(Print(g, ps, pad), n)) == ps[..Fits(g, ps, pad, n)]
  {
    if ps == [] {
    } else if Size(g, ps[0], pad) > n {
      NoneFits(g, ps, pad, n);
    } else {
      var m := n - Size(g, ps[0], pad);
      assert AllPlain(ps[1..]);
      ClippedReads(g, ps[1..], pad, Left(m, |pad|));
      OneFits(g, ps, pad, n, m);
    }
  }

  lemma TakeOneMore(ps: seq<Pair>, k: nat)
    requires ps != [] && k < |ps|
    ensures [ps[0]] + ps[1..][..k] == ps[..1 + k]
  {
  }

  lemma ClippedFirst(g: Tags, p: Pair, pad: string, more: string, n: nat, m: nat)
    requires Angled(g) && Blank(pad) && Plain(p.key) && Plain(p.value) && n == Size(g, p, pad) + m
    ensures Pairs(g, Clip(Markup(g, p, pad, pad + more), n)) == [p] + Pairs(g, Clip(more, Left(m, |pad|)))
  {
    var rest := pad + more;
    ClipMarkup(g, p, pad, rest, n);
    var after := Clip(rest, m);
    assert Clip(Markup(g, p, pad, rest), n) == Markup(g, p, pad, after);
    ClippedPad(g, pad, more, m);
    MarkupReads(g, p, pad, after);
  }

  lemma ClippedPad(g: Tags, pad: string, more: string, m: nat)
    requires Angled(g) && Blank(pad)
    ensures Pairs(g, Clip(pad + more, m)) == Pairs(g, Clip(more, Left(m, |pad|)))
  {
    if m > |pad| {
      assert Clip(pad + more, m) == pad + Clip(more, m - |pad|);
      PadSkipped(g, pad, Clip(more, m - |pad|));
    } else {
      var cut := Clip(pad + more, m);
      assert Blank(cut) by {
        assert forall i :: 0 <= i < |cut| ==> cut[i] == pad[i];
      }
      BlankHasNone(g, cut);
      assert Clip(more, 0) == "";
    }
  }

  // Whitespace at the end

  lemma LStripTail(t: string, c: char)
    requires IsSpace(c)
    ensures LStrip(t + [c]) == if LStrip(t) == "" then "" else LStrip(t) + [c]
  {
    if t == "" {
      assert t + [c] == [c];
      assert LStrip([c]) == LStrip([c][1..]);
    } else if IsSpace(t[0]) {
      assert (t + [c])[1..] == t[1..] + [c];
      LStripTail(t[1..], c);
    }
  }

  /** A tag that does not end in whitespace is not completed by whitespace. */
  lemma PrefixTail(x: string, tag: string, c: char)
    requires IsSpace(c) && tag != "" && !IsSpace(tag[|tag| - 1])
    ensures tag <= LStrip(x + [c]) <==> tag <= LStrip(x)
    ensures tag <= LStrip(x) ==> LStrip(x + [c])[|tag|..] == LStrip(x)[|tag|..] + [c]
  {
    LStripTail(x, c);
    var t := LStrip(x);
    assert (t + [c])[|t|] == c;
  }

  predicate Firm(g: Tags) {
    && Angled(g)
    && !IsSpace(g.ko[|g.ko| - 1]) && !IsSpace(g.kc[|g.kc| - 1]) && !IsSpace(g.vo[|g.vo| - 1]) && !IsSpace(g.vc[|g.vc| - 1])
  }

  function Longer(f: Field, c: char): Field {
    if f.Field? then Field(f.text, f.rest + [c]) else NoField
  }

  lemma {:induction false} FieldTail(t: string, close: string, c: char)
    requires IsSpace(c) && close != "" && !IsSpace(close[|close| - 1])
    ensures ReadField(t + [c], close) == Longer(ReadField(t, close), c)
  {
    PrefixTail(t, close, c);
    if !(close <= LStrip(t)) {
      if t == "" {
        assert (t + [c])[1..] == "";
      } else {
        assert (t + [c])[1..] == t[1..] + [c];
        FieldTail(t[1..], close, c);
      }
    }
  }

  lemma ValueTail(g: Tags, t: string, c: char)
    requires Firm(g) && IsSpace(c)
    ensures ReadValue(g, t + [c]) == Longer(ReadValue(g, t), c)
  {
    PrefixTail(t, g.vo, c);
    if g.vo <= LStrip(t) {
      var rest := LStrip(t)[|g.vo|..];
      LStripTail(rest, c);
      if LStrip(rest) == "" {
        assert "" + [c] == [c];
        FieldTail("", g.vc, c);
        EmptyHasNoField(g.vc, c);
      } else {
        FieldTail(LStrip(rest), g.vc, c);
      }
    }
  }

  lemma EmptyHasNoField(close: string, c: char)
    requires IsSpace(c) && close != ""
    ensures ReadField("", close) == NoField
  {
  }

  lemma {:induction false} PairTail(g: Tags, t: string, c: char)
    requires Firm(g) && IsSpace(c)
    ensures ReadPair(g, t + [c]) == (var r := ReadPair(g, t); if r.Reading? then Reading(r.pair, r.rest + [c]) else NoPair)
  {
    PrefixTail(t, g.kc, c);
    if g.kc <= LStrip(t) {
      ValueTail(g, LStrip(t)[|g.kc|..], c);
    }
    if t == "" {
      assert (t + [c])[1..] == "";
    } else {
      assert (t + [c])[1..] == t[1..] + [c];
      PairTail(g, t[1..], c);
    }
  }

  lemma {:induction false} PairsTail(g: Tags, s: string, c: char)
    requires Firm(g) && IsSpace(c)
    ensures Pairs(g, s + [c]) == Pairs(g, s)
    decreases |s|
  {
    if s == "" {
      assert s + [c] == [c];
      assert [c][1..] == "";
    } else {
      assert (s + [c])[1..] == s[1..] + [c];
      PairsTail(g, s[1..], c);
      OpenTail(g, s, c);
      if g.ko <= s && OpenedPair(g, s).Reading? {
        PairsTail(g, OpenedPair(g, s).rest, c);
      }
    }
  }

  lemma OpenTail(g: Tags, s: string, c: char)
    requires Firm(g) && IsSpace(c) && s != ""
    ensures g.ko <= s + [c] <==> g.ko <= s
    ensures g.ko <= s ==> OpenedPair(g, s + [c]) == (var r := OpenedPair(g, s); if r.Reading? then Reading(r.pair, r.rest + [c]) else NoPair)
  {
    assert (s + [c])[|s|] == c;
    if g.ko <= s {
      var rest := s[|g.ko|..];
      assert (s + [c])[|g.ko|..] == rest + [c];
      LStripTail(rest, c);
      if LStrip(rest) == "" {
        NothingOpened(g, c);
      } else {
        PairTail(g, LStrip(rest), c);
      }
    }
  }

  lemma NothingOpened(g: Tags, c: char)
    requires Angled(g)
    ensures ReadPair(g, "") == NoPair
  {
  }

  lemma {:induction false} RStripReads(g: Tags, s: string)
    requires Firm(g)
    ensures Pairs(g, RStrip(s)) == Pairs(g, s)
  {
    if s != "" && IsSpace(s[|s| - 1]) {
      RStripReads(g, s[..|s| - 1]);
      PairsTail(g, s[..|s| - 1], s[|s| - 1]);
      assert s[..|s| - 1] + [s[|s| - 1]] == s;
    }
  }

  // Markup all the way through

  lemma {:induction false} NoFenceWithoutBrace(s: string, i: nat, load: Loader)
    requires i <= |s| && '{' !in s
    ensures FencedJson(s, i, load).None?
    decreases |s| - i
  {
    if i < |s| {
      NoFenceWithoutBrace(s, i + 1, load);
    }
  }

  lemma {:induction false} NoFunctionWithoutBrace(s: string, i: nat, load: Loader)
    requires i <= |s| && '{' !in s
    ensures FunctionMarkup(s, i, load).None?
    decreases |s| - i
  {
    if i < |s| {
      NoFunctionWithoutBrace(s, i + 1, load);
    }
  }

  /** Without a brace, only the key and value markup can decide. */
  lemma BracelessText(s: string, load: Loader)
    requires '{' !in s
    ensures FromText(s, load) == DecidedBy(ArgKeyMarkup(s))
  {
    NoFenceWithoutBrace(s, 0, load);
    NoFunctionWithoutBrace(s, 0, load);
  }

  lemma {:induction false} PrintIsBraceless(g: Tags, ps: seq<Pair>, pad: string)
    requires AllPlain(ps) && Blank(pad) && '{' !in g.ko && '{' !in g.kc && '{' !in g.vo && '{' !in g.vc
    ensures '{' !in Print(g, ps, pad)
  {
    if ps != [] {
      assert AllPlain(ps[1..]);
      PrintIsBraceless(g, ps[1..], pad);
      assert '{' !in pad;
    }
  }

  lemma PrintStartsWithTag(g: Tags, ps: seq<Pair>, pad: string)
    requires Angled(g)
    ensures Print(g, ps, pad) != "" ==> Print(g, ps, pad)[0] == '<'
  {
  }

  predicate Shaped(tag: string) {
    |tag| > 1 && tag[0] == '<' && '<' !in tag[1..] && '{' !in tag && tag[|tag| - 1] == '>'
  }

  lemma ArgTagsShaped()
    ensures Shaped("<arg_key>") && Shaped("</arg_key>")
    ensures Shaped("<arg_value>") && Shaped("</arg_value>")
  {
    assert "<arg_key>"[1..] == "arg_key>";
    assert "</arg_key>"[1..] == "/arg_key>";
    assert "<arg_value>"[1..] == "arg_value>";
    assert "</arg_value>"[1..] == "/arg_value>";
  }

  lemma ArgTagsDiffer()
    ensures Differ("<arg_key>", "</arg_value>") && Differ("</arg_key>", "</arg_value>") && Differ("<arg_value>", "</arg_value>")
  {
    assert "<arg_key>"[1] != "</arg_value>"[1];
    assert "</arg_key>"[6] != "</arg_value>"[6];
    assert "<arg_value>"[1] != "</arg_value>"[1];
  }

  lemma ArgTagsAreFine()
    ensures Distinguishable(ARG_TAGS) && Firm(ARG_TAGS)
    ensures '{' !in ARG_TAGS.ko && '{' !in ARG_TAGS.kc && '{' !in ARG_TAGS.vo && '{' !in ARG_TAGS.vc
  {
    ArgTagsShaped();
    ArgTagsDiffer();
  }

  lemma StrippedMarkup(g: Tags, s: string)
    requires s != "" ==> !IsSpace(s[0])
    requires Angled(g) && Firm(g) && '{' !in s
    ensures Pairs(g, Strip(s)) == Pairs(g, s) && '{' !in Strip(s)
  {
    assert LStrip(s) == s;
    RStripReads(g, s);
    var i := RStripSpan(s);
    assert '{' !in s[..i];
  }

  /** The caller passes on only the first characters of a reply. Of a decision written as
      markup, exactly the pairs that are complete by then count, whatever the JSON parser
      would have made of the text. */
  lemma MarkupSalvaged(ps: seq<Pair>, pad: string, n: nat, load: Loader)
    requires AllPlain(ps) && Blank(pad)
    ensures var k := Fits(ARG_TAGS, ps, pad, n);
            SalvageDecision([], Clip(Print(ARG_TAGS, ps, pad), n), load) == if k == 0 then None else Decided(Dict(ps[..k]))
  {
    var g := ARG_TAGS;
    var whole := Print(g, ps, pad);
    var s := Clip(whole, n);
    ArgTagsAreFine();
    ClippedReads(g, ps, pad, n);
    PrintStartsWithTag(g, ps, pad);
    PrintIsBraceless(g, ps, pad);
    StrippedMarkup(g, s);
    BracelessText(Strip(s), load);
  }

  lemma {:induction false} AllFit(g: Tags, ps: seq<Pair>, pad: string, n: nat)
    requires n >= |Print(g, ps, pad)|
    ensures Fits(g, ps, pad, n) == |ps|
  {
    if ps != [] {
      MarkupSize(g, ps[0], pad, pad + Print(g, ps[1..], pad));
      var m := n - Size(g, ps[0], pad);
      AllFit(g, ps[1..], pad, if m > |pad| then m - |pad| else 0);
    }
  }

  lemma {:induction false} DictHas(ps: seq<Pair>, i: nat)
    requires i < |ps| && forall j :: 0 <= j < |ps| && j != i ==> ps[j].key != ps[i].key
    ensures ps[i].key in Dict(ps) && Dict(ps)[ps[i].key] == Str(ps[i].value)
  {
    var rest := ps[..|ps| - 1];
    if i < |ps| - 1 {
      assert rest[i] == ps[i];
      DictHas(rest, i);
    }
  }

  lemma {:induction false} DictLacks(ps: seq<Pair>, key: string)
    requires forall j :: 0 <= j < |ps| ==> ps[j].key != key
    ensures key !in Dict(ps)
  {
    if ps != [] {
      DictLacks(ps[..|ps| - 1], key);
    }
  }

  predicate DistinctKeys(ps: seq<Pair>) {
    forall i, j :: 0 <= i < j < |ps| ==> ps[i].key != ps[j].key
  }

  /** What complete pairs decide. */
  lemma KeptDecides(kept: seq<Pair>, i: nat)
    requires AllPlain(kept) && DistinctKeys(kept)
    requires i < |kept| && kept[i].key == "next_speaker" && kept[i].value != ""
    ensures var r := Decided(Dict(kept));
            && r.Some? && r.value.speaker == kept[i].value
            && (forall j :: 0 <= j < |kept| && kept[j].key == "reasoning" ==> r.value.reasoning == kept[j].value)
            && ((forall j :: 0 <= j < |kept| ==> kept[j].key != "reasoning") ==> r.value.reasoning == "")
  {
    DictHas(kept, i);
    StripTrimmed(kept[i].value);
    if j :| 0 <= j < |kept| && kept[j].key == "reasoning" {
      DictHas(kept, j);
      StripTrimmed(kept[j].value);
    } else {
      DictLacks(kept, "reasoning");
    }
  }

  lemma Undecided(kept: seq<Pair>)
    requires forall j :: 0 <= j < |kept| ==> kept[j].key != "next_speaker"
    ensures Decided(Dict(kept)) == None
  {
    DictLacks(kept, "next_speaker");
  }

  lemma TakesPairs(ps: seq<Pair>, k: nat)
    requires AllPlain(ps) && DistinctKeys(ps) && k <= |ps|
    ensures AllPlain(ps[..k]) && DistinctKeys(ps[..k])
  {
  }

  /** Round trip, with its exact limit: the named speaker comes back if and only if its pair
      is complete within what the caller passes on, and then with the reasoning that is. */
  lemma MarkupRoundTrip(ps: seq<Pair>, pad: string, n: nat, load: Loader, i: nat)
    requires AllPlain(ps) && Blank(pad) && DistinctKeys(ps)
    requires i < |ps| && ps[i].key == "next_speaker" && ps[i].value != ""
    ensures var k := Fits(ARG_TAGS, ps, pad, n);
            var r := SalvageDecision([], Clip(Print(ARG_TAGS, ps, pad), n), load);
            && (r.Some? <==> i < k)
            && (i < k ==> r.value.speaker == ps[i].value)
            && (i < k ==> forall j :: 0 <= j < k && ps[j].key == "reasoning" ==> r.value.reasoning == ps[j].value)
            && (i < k && (forall j :: 0 <= j < k ==> ps[j].key != "reasoning") ==> r.value.reasoning == "")
  {
    var k := Fits(ARG_TAGS, ps, pad, n);
    var kept := ps[..k];
    MarkupSalvaged(ps, pad, n, load);
    if i < k {
      TakesPairs(ps, k);
      KeptDecides(kept, i);
      assert forall j :: 0 <= j < k ==> kept[j] == ps[j];
    } else {
      Undecided(kept);
    }
  }

  const DIAGNOSTIC_LIMIT := 300

  /** Within the limit nothing is lost. */
  lemma ShortMarkupRoundTrip(ps: seq<Pair>, pad: string, load: Loader, i: nat)
    requires AllPlain(ps) && Blank(pad) && DistinctKeys(ps) && |Print(ARG_TAGS, ps, pad)| <= DIAGNOSTIC_LIMIT
    requires i < |ps| && ps[i].key == "next_speaker" && ps[i].value != ""
    ensures var r := SalvageDecision([], Clip(Print(ARG_TAGS, ps, pad), DIAGNOSTIC_LIMIT), load);
            && r.Some? && r.value.speaker == ps[i].value
            && forall j :: 0 <= j < |ps| && ps[j].key == "reasoning" ==> r.value.reasoning == ps[j].value
  {
    AllFit(ARG_TAGS, ps, pad, DIAGNOSTIC_LIMIT);
    MarkupRoundTrip(ps, pad, DIAGNOSTIC_LIMIT, load, i);
  }

  /** A perfectly good decision is lost when its reasoning comes first and is long. */
  lemma LongReasoningLosesTheSpeaker(reasoning: string, speaker: string, load: Loader)
    requires Plain(reasoning) && Plain(speaker) && |reasoning| > DIAGNOSTIC_LIMIT
    ensures var ps := [Pair("reasoning", reasoning), Pair("next_speaker", speaker)];
            SalvageDecision([], Clip(Print(ARG_TAGS, ps, ""), DIAGNOSTIC_LIMIT), load) == None
  {
    var ps := [Pair("reasoning", reasoning), Pair("next_speaker", speaker)];
    assert Plain("reasoning") && Plain("next_speaker");
    MarkupSalvaged(ps, "", DIAGNOSTIC_LIMIT, load);
  }
}
