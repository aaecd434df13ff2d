/** Separating what an attendee thinks from what it says out loud. The regular
    expressions are written out as scanners. */
module Thought {
  import opened Wrappers
  import opened Text
  import Cache = TurnCache

  const OPEN_TAGS := ["<thought>", "<thinking>"]
  const CLOSE_TAGS := ["</thought>", "</thinking>"]

  /** The length of the opening tag that starts at a position, or 0. */
  function OpenAt(s: string, i: nat): (n: nat)
    requires i <= |s|
    ensures n > 0 ==> i + n <= |s| && n >= 9
    ensures n > 0 ==> s[i] == '<'
  {
    if IsAt(s, i, "<thought>") then
      assert s[i..i + 9][0] == '<';
      9
    else if IsAt(s, i, "<thinking>") then
      assert s[i..i + 10][0] == '<';
      10
    else 0
  }

  function CloseAt(s: string, i: nat): (n: nat)
    requires i <= |s|
    ensures n > 0 ==> i + n <= |s| && n >= 10
    ensures n > 0 ==> s[i] == '<'
  {
    if IsAt(s, i, "</thought>") then
      assert s[i..i + 10][0] == '<';
      10
    else if IsAt(s, i, "</thinking>") then
      assert s[i..i + 11][0] == '<';
      11
    else 0
  }

  /** The first closing tag from a position on. */
  function FindClose(s: string, from: nat): (r: Option<nat>)
    requires from <= |s|
    ensures r.Some? ==> from <= r.value <= |s| && CloseAt(s, r.value) > 0
    ensures r.Some? ==> forall i :: from <= i < r.value ==> CloseAt(s, i) == 0
    ensures r.None? ==> forall i :: from <= i <= |s| ==> CloseAt(s, i) == 0
    decreases |s| - from
  {
    if CloseAt(s, from) > 0 then Some(from) else if from == |s| then None else FindClose(s, from + 1)
  }

  function FindOpen(s: string, from: nat): (r: Option<nat>)
    requires from <= |s|
    ensures r.Some? ==> from <= r.value <= |s| && OpenAt(s, r.value) > 0
    ensures r.Some? ==> forall i :: from <= i < r.value ==> OpenAt(s, i) == 0
    ensures r.None? ==> forall i :: from <= i <= |s| ==> OpenAt(s, i) == 0
    decreases |s| - from
  {
    if OpenAt(s, from) > 0 then Some(from) else if from == |s| then None else FindOpen(s, from + 1)
  }

  /** What the scan makes of a text: characters it keeps, and spans it removes. */
  datatype Piece = Kept(c: char) | Span(open: string, body: string, close: string)

  function Pieces(s: string): seq<Piece>
    decreases |s|
  {
    if s == [] then []
    else
      var n := OpenAt(s, 0);
      var end := if n > 0 then FindClose(s, n) else None;
      if end.Some? then
        var j, k := end.value, end.value + CloseAt(s, end.value);
        [Span(s[..n], s[n..j], s[j..k])] + Pieces(s[k..])
      else [Kept(s[0])] + Pieces(s[1..])
  }

  function Written(p: Piece): string {
    match p
    case Kept(c) => [c]
    case Span(open, body, close) => open + body + close
  }

  function Render(ps: seq<Piece>): string {
    if ps == [] then [] else Written(ps[0]) + Render(ps[1..])
  }

  /** The text with every closed span deleted. */
  function Public(ps: seq<Piece>): string {
    if ps == [] then [] else (if ps[0].Kept? then [ps[0].c] else []) + Public(ps[1..])
  }

  function Bodies(ps: seq<Piece>): seq<string> {
    if ps == [] then [] else (if ps[0].Span? then [ps[0].body] else []) + Bodies(ps[1..])
  }

  /** Where an opening tag without a closing one begins, after the deletions. */
  function Cut(public: string): (i: nat)
    ensures i <= |public|
    ensures forall j :: 0 <= j < i ==> OpenAt(public, j) == 0
    ensures i < |public| ==> OpenAt(public, i) > 0
  {
    match FindOpen(public, 0)
    case None => |public|
    case Some(i) => i
  }

  function Tail(public: string): seq<string> {
    var i := Cut(public);
    if i < |public| then [public[i + OpenAt(public, i)..]] else []
  }

  function NonBlank(texts: seq<string>): seq<string> {
    if texts == [] then []
    else (if Strip(texts[0]) != "" then [Strip(texts[0])] else []) + NonBlank(texts[1..])
  }

  datatype Utterance = Utterance(public: string, thought: string)

  /** The public text before trimming. */
  function Untrimmed(content: string): string {
    var public := Public(Pieces(content));
    public[..Cut(public)]
  }

  function SplitThought(content: string): Utterance {
    var ps := Pieces(content);
    Utterance(Strip(Untrimmed(content)), Join(NonBlank(Bodies(ps) + Tail(Public(ps))), "\n\n"))
  }

  // Nothing private becomes public

  ghost predicate Tagless(s: string) {
    forall i :: 0 <= i <= |s| ==> OpenAt(s, i) == 0
  }

  lemma OpenInSlice(s: string, lo: nat, hi: nat, i: nat)
    requires lo <= hi <= |s| && i <= hi - lo && OpenAt(s[lo..hi], i) > 0
    ensures OpenAt(s, lo + i) > 0
  {
    if IsAt(s[lo..hi], i, "<thought>") {
      IsAtSlice(s, lo, hi, i, "<thought>");
    } else {
      IsAtSlice(s, lo, hi, i, "<thinking>");
    }
  }

  lemma TaglessSlice(s: string, lo: nat, hi: nat)
    requires lo <= hi <= |s| && forall i :: lo <= i < hi ==> OpenAt(s, i) == 0
    ensures Tagless(s[lo..hi])
  {
    forall i | 0 <= i <= hi - lo ensures OpenAt(s[lo..hi], i) == 0 {
      if OpenAt(s[lo..hi], i) > 0 {
        OpenInSlice(s, lo, hi, i);
      }
    }
  }

  lemma TaglessStrip(s: string)
    requires Tagless(s)
    ensures Tagless(Strip(s))
  {
    var i, j := StripSpan(s);
    TaglessSlice(s, i, j);
  }

  /** Whatever the model wrote, the public text contains no opening tag: not even one that
      deleting a span has just glued together. */
  lemma PublicHasNoTag(content: string)
    ensures Tagless(SplitThought(content).public) && Tagless(Untrimmed(content))
  {
    var public := Public(Pieces(content));
    TaglessSlice(public, 0, Cut(public));
    assert public[0..Cut(public)] == Untrimmed(content);
    TaglessStrip(Untrimmed(content));
  }

  /** The scan loses nothing: the pieces spell the text, and each removed span is an
      opening tag, a body without closing tags, and a closing tag. */
  lemma {:induction false} PiecesSpell(s: string)
    ensures Render(Pieces(s)) == s
    ensures forall p :: p in Pieces(s) && p.Span? ==>
              p.open in OPEN_TAGS && p.close in CLOSE_TAGS && FindClose(p.body, 0).None?
    decreases |s|
  {
    if s != [] {
      var n := OpenAt(s, 0);
      var end := if n > 0 then FindClose(s, n) else None;
      if end.Some? {
        var j, k := end.value, end.value + CloseAt(s, end.value);
        PiecesSpell(s[k..]);
        BodyIsOpen(s, n, j);
        TagsCut(s, n, j, k);
      } else {
        PiecesSpell(s[1..]);
      }
    }
  }

  lemma TagsCut(s: string, n: nat, j: nat, k: nat)
    requires 0 < n <= j <= |s| && n == OpenAt(s, 0) && CloseAt(s, j) > 0 && k == j + CloseAt(s, j)
    ensures s[..n] in OPEN_TAGS && s[j..k] in CLOSE_TAGS
    ensures s[..n] + s[n..j] + s[j..k] + s[k..] == s
  {
    assert s[..n] == s[0..0 + n];
  }

  lemma CloseInSlice(s: string, lo: nat, hi: nat, i: nat)
    requires lo <= hi <= |s| && i <= hi - lo && CloseAt(s[lo..hi], i) > 0
    ensures CloseAt(s, lo + i) > 0 && lo + i < hi
  {
    if IsAt(s[lo..hi], i, "</thought>") {
      IsAtSlice(s, lo, hi, i, "</thought>");
    } else {
      IsAtSlice(s, lo, hi, i, "</thinking>");
    }
  }

  lemma BodyIsOpen(s: string, n: nat, j: nat)
    requires n <= j <= |s| && forall i :: n <= i < j ==> CloseAt(s, i) == 0
    ensures FindClose(s[n..j], 0).None?
  {
    var body := s[n..j];
    forall i | 0 <= i <= |body| ensures CloseAt(body, i) == 0 {
      if CloseAt(body, i) > 0 {
        CloseInSlice(s, n, j, i);
      }
    }
  }

  lemma {:induction false} PublicIsSubsequence(ps: seq<Piece>)
    ensures Cache.Subsequence(Public(ps), Render(ps))
  {
    if ps != [] {
      PublicIsSubsequence(ps[1..]);
      match ps[0]
      case Kept(c) =>
        assert Public(ps)[1..] == Public(ps[1..]);
        assert Render(ps)[1..] == Render(ps[1..]);
      case Span(open, body, close) =>
        assert Public(ps) == Public(ps[1..]);
        SubsequencePrefix(Public(ps[1..]), Written(ps[0]), Render(ps[1..]));
    }
  }

  lemma {:induction false} SubsequencePrefix(a: string, pre: string, b: string)
    requires Cache.Subsequence(a, b)
    ensures Cache.Subsequence(a, pre + b)
  {
    if pre == [] {
      assert pre + b == b;
    } else {
      SubsequencePrefix(a, pre[1..], b);
      assert (pre + b)[1..] == pre[1..] + b;
      Cache.SubsequenceWiden(a, pre + b);
    }
  }

  lemma {:induction false} SubsequenceTake(a: string, b: string, n: nat)
    requires Cache.Subsequence(a, b) && n <= |a|
    ensures Cache.Subsequence(a[..n], b)
  {
    if n > 0 {
      if a[0] == b[0] {
        SubsequenceTake(a[1..], b[1..], n - 1);
        assert a[..n][1..] == a[1..][..n - 1];
      } else {
        SubsequenceTake(a, b[1..], n);
      }
    }
  }

  /** Before trimming, the public text is what remains of the input in its own order. */
  lemma PublicKeepsOrder(content: string)
    ensures Cache.Subsequence(Untrimmed(content), content)
  {
    var ps := Pieces(content);
    PiecesSpell(content);
    PublicIsSubsequence(ps);
    SubsequenceTake(Public(ps), content, Cut(Public(ps)));
  }

  lemma TaglessTail(s: string)
    requires Tagless(s) && s != []
    ensures Tagless(s[1..])
  {
    TaglessSlice(s, 1, |s|);
    assert s[1..] == s[1..|s|];
  }

  lemma {:induction false} TaglessPieces(s: string)
    requires Tagless(s)
    ensures Public(Pieces(s)) == s && Bodies(Pieces(s)) == []
  {
    if s != [] {
      TaglessTail(s);
      TaglessPieces(s[1..]);
      assert OpenAt(s, 0) == 0;
      assert Pieces(s) == [Kept(s[0])] + Pieces(s[1..]);
      assert [s[0]] + s[1..] == s;
    }
  }

  /** A text without tags is all public; so splitting the public text again changes
      nothing and finds no further thought. */
  lemma SplitTagless(s: string)
    requires Tagless(s)
    ensures SplitThought(s) == Utterance(Strip(s), "")
  {
    TaglessPieces(s);
    assert Cut(s) == |s| by {
      assert forall i :: 0 <= i <= |s| ==> OpenAt(s, i) == 0;
    }
    assert s[..|s|] == s;
    assert Bodies(Pieces(s)) + Tail(s) == [];
  }

  lemma SplitIsIdempotent(content: string)
    ensures SplitThought(SplitThought(content).public) == Utterance(SplitThought(content).public, "")
  {
    PublicHasNoTag(content);
    var i, j := StripSpan(Untrimmed(content));
    SplitTagless(SplitThought(content).public);
    StripTrimmed(SplitThought(content).public);
  }

  // The speaker prefix

  /** The length of a leading "[...]" on the first line, with the whitespace after it. */
  function PrefixEnd(s: string, i: nat): Option<nat>
    requires i <= |s|
    decreases |s| - i
  {
    if i == |s| || s[i] == '\n' then None else if s[i] == ']' then Some(i + 1) else PrefixEnd(s, i + 1)
  }

  lemma PrefixEndBound(s: string, i: nat)
    requires i <= |s|
    ensures PrefixEnd(s, i).Some? ==> i < PrefixEnd(s, i).value <= |s|
    decreases |s| - i
  {
  }

  function StripSpeakerPrefix(s: string): string {
    PrefixEndBound(s, if s == [] then 0 else 1);
    if s != [] && s[0] == '[' && PrefixEnd(s, 1).Some? then Strip(LStrip(s[PrefixEnd(s, 1).value..])) else Strip(s)
  }

  const SILENCE := "(no comment this turn)"

  /** What the runtime publishes of a model's answer. */
  function PublicText(raw: string): string {
    var public := StripSpeakerPrefix(SplitThought(raw).public);
    if public == "" then SILENCE else public
  }

  /** Dropping the prefix keeps an end of the text, so it uncovers no tag. */
  lemma PrefixKeepsTagless(s: string)
    requires Tagless(s)
    ensures Tagless(StripSpeakerPrefix(s))
  {
    PrefixEndBound(s, if s == [] then 0 else 1);
    if s != [] && s[0] == '[' && PrefixEnd(s, 1).Some? {
      var from := PrefixEnd(s, 1).value;
      TaglessSlice(s, from, |s|);
      assert s[from..] == s[from..|s|];
      var i := LStripSpan(s[from..]);
      TaglessSlice(s[from..], i, |s[from..]|);
      assert LStrip(s[from..]) == s[from..][i..|s[from..]|];
      TaglessStrip(LStrip(s[from..]));
    } else {
      TaglessStrip(s);
    }
  }

  lemma SilenceIsTagless()
    ensures Tagless(SILENCE)
  {
    assert '<' !in SILENCE;
  }

  /** What is published is never empty and never opens a thought. */
  lemma PublishedText(raw: string)
    ensures PublicText(raw) != "" && Tagless(PublicText(raw))
  {
    PublicHasNoTag(raw);
    PrefixKeepsTagless(SplitThought(raw).public);
    SilenceIsTagless();
  }

  // What is published

  /** The text opens with something in brackets, closed on its first line. */
  predicate Bracketed(p: string, name: string, rest: string) {
    p == "[" + name + "]" + rest && ']' !in name && '\n' !in name
  }

  lemma {:induction false} PrefixEndsAt(name: string, rest: string, front: string)
    requires ']' !in name && '\n' !in name
    ensures PrefixEnd(front + (name + ("]" + rest)), |front|) == Some(|front| + |name| + 1)
    decreases |name|
  {
    var s := front + (name + ("]" + rest));
    if name == "" {
      assert s[|front|] == ']';
    } else {
      assert s[|front|] == name[0];
      var front' := front + [name[0]];
      assert s == front' + (name[1..] + ("]" + rest));
      PrefixEndsAt(name[1..], rest, front');
    }
  }

  lemma {:induction false} PrefixEndMeans(s: string, i: nat)
    requires i <= |s| && PrefixEnd(s, i).Some?
    ensures var e := PrefixEnd(s, i).value;
            i < e <= |s| && s[e - 1] == ']' && ']' !in s[i..e - 1] && '\n' !in s[i..e - 1]
    decreases |s| - i
  {
    PrefixEndBound(s, i);
    if s[i] != ']' {
      PrefixEndMeans(s, i + 1);
      var e := PrefixEnd(s, i).value;
      assert s[i..e - 1] == [s[i]] + s[i + 1..e - 1];
    }
  }

  lemma StripsBracketed(p: string, name: string, rest: string)
    requires Bracketed(p, name, rest)
    ensures StripSpeakerPrefix(p) == Strip(rest)
  {
    assert p == "[" + (name + ("]" + rest));
    PrefixEndsAt(name, rest, "[");
    assert p[|name| + 2..] == rest;
    LStripTwice(rest);
  }

  lemma LStripTwice(s: string)
    ensures LStrip(LStrip(s)) == LStrip(s)
  {
    var i := LStripSpan(s);
  }

  lemma StripsOthers(p: string)
    requires forall name, rest :: !Bracketed(p, name, rest)
    ensures StripSpeakerPrefix(p) == Strip(p)
  {
    if p != [] && p[0] == '[' && PrefixEnd(p, 1).Some? {
      PrefixEndMeans(p, 1);
      var e := PrefixEnd(p, 1).value;
      assert p == "[" + p[1..e - 1] + "]" + p[e..];
      assert Bracketed(p, p[1..e - 1], p[e..]);
    }
  }

  /** The text itself, or a notice instead of nothing. */
  function OrSilence(s: string): string {
    if s == "" then "(no comment this turn)" else s
  }

  /** What is published of an answer: its public part, less a bracketed prefix on the first line if
      there is one, or a notice exactly when nothing is left. */
  ghost predicate PublishedAs(raw: string, text: string) {
    var p := SplitThought(raw).public;
    && (forall name, rest :: Bracketed(p, name, rest) ==> text == OrSilence(Strip(rest)))
    && ((forall name, rest :: !Bracketed(p, name, rest)) ==> text == OrSilence(p))
  }

  lemma PublishedExactly(raw: string, text: string)
    ensures PublishedAs(raw, text) <==> text == PublicText(raw)
  {
    var p := SplitThought(raw).public;
    var i, j := StripSpan(Untrimmed(raw));
    StripTrimmed(p);
    if name, rest :| Bracketed(p, name, rest) {
      forall name, rest | Bracketed(p, name, rest) ensures PublicText(raw) == OrSilence(Strip(rest)) {
        StripsBracketed(p, name, rest);
      }
    } else {
      StripsOthers(p);
    }
  }

  // When a thought is removed whole

  /** Some tag closes in the text. */
  predicate Closed(s: string) {
    FindClose(s, 0).Some?
  }

  predicate OneBracket(tag: string) {
    tag != "" && tag[0] == '<' && forall k :: 1 <= k < |tag| ==> tag[k] != '<'
  }

  lemma TagsHaveOneBracket(tag: string)
    requires tag in OPEN_TAGS + CLOSE_TAGS
    ensures OneBracket(tag)
  {
    assert tag == "<thought>" || tag == "<thinking>" || tag == "</thought>" || tag == "</thinking>";
  }

  /** A tag that begins in one text does not run on into one that begins with a bracket. */
  lemma NoStraddle(a: string, b: string, i: nat, tag: string)
    requires tag in OPEN_TAGS + CLOSE_TAGS && i < |a| && (b == "" || b[0] == '<')
    requires IsAt(a + b, i, tag)
    ensures IsAt(a, i, tag)
  {
    TagEndsInside(a, b, i, tag);
    assert (a + b)[i..i + |tag|] == a[i..i + |tag|];
  }

  lemma TagEndsInside(a: string, b: string, i: nat, tag: string)
    requires tag in OPEN_TAGS + CLOSE_TAGS && i < |a| && (b == "" || b[0] == '<')
    requires IsAt(a + b, i, tag)
    ensures i + |tag| <= |a|
  {
    TagsHaveOneBracket(tag);
    if i + |tag| > |a| {
      IsAtIndex(a + b, i, tag, |a| - i);
    }
  }

  lemma CloseInFront(a: string, b: string, i: nat)
    requires i < |a| && (b == "" || b[0] == '<') && CloseAt(a + b, i) > 0
    ensures CloseAt(a, i) > 0
  {
    if IsAt(a + b, i, "</thought>") {
      NoStraddle(a, b, i, "</thought>");
    } else {
      NoStraddle(a, b, i, "</thinking>");
    }
  }

  lemma OpenInFront(a: string, b: string, i: nat)
    requires i < |a| && (b == "" || b[0] == '<') && OpenAt(a + b, i) > 0
    ensures OpenAt(a, i) > 0
  {
    if IsAt(a + b, i, "<thought>") {
      NoStraddle(a, b, i, "<thought>");
    } else {
      NoStraddle(a, b, i, "<thinking>");
    }
  }

  lemma CloseBehind(a: string, b: string, i: nat)
    requires |a| <= i <= |a| + |b| && CloseAt(a + b, i) > 0
    ensures CloseAt(b, i - |a|) > 0
  {
    if IsAt(a + b, i, "</thought>") {
      IsAtBehind(a, b, i, "</thought>");
    } else {
      IsAtBehind(a, b, i, "</thinking>");
    }
  }

  lemma IsAtBehind(a: string, b: string, i: nat, tag: string)
    requires |a| <= i && IsAt(a + b, i, tag)
    ensures IsAt(b, i - |a|, tag)
  {
    assert (a + b)[i..i + |tag|] == b[i - |a|..i - |a| + |tag|];
  }

  /** Between an opening tag and a closing one, tags close only where they do in the body. */
  lemma BodyCloses(open: string, body: string, close: string, rest: string, i: nat)
    requires close in CLOSE_TAGS && |open| <= i < |open| + |body|
    requires CloseAt(open + body + close + rest, i) > 0
    ensures Closed(body)
  {
    TagsHaveOneBracket(close);
    assert open + body + close + rest == open + (body + (close + rest));
    CloseBehind(open, body + (close + rest), i);
    CloseInFront(body, close + rest, i - |open|);
  }

  /** A marked thought is removed whole, and no more than it, exactly when nothing in it
      closes a tag. */
  lemma RemovedWholeExactly(open: string, body: string, close: string, rest: string)
    requires open in OPEN_TAGS && close in CLOSE_TAGS
    ensures Pieces(open + body + close + rest) == [Span(open, body, close)] + Pieces(rest) <==> !Closed(body)
  {
    var s := open + body + close + rest;
    if !Closed(body) {
      forall i | |open| <= i < |open| + |body| ensures CloseAt(s, i) == 0 {
        if CloseAt(s, i) > 0 {
          BodyCloses(open, body, close, rest, i);
        }
      }
      SpanThenRest(open, body, close, rest);
    } else if Pieces(s) == [Span(open, body, close)] + Pieces(rest) {
      assert Span(open, body, close) in Pieces(s);
      PiecesSpell(s);
    }
  }

  /** An opening tag, a body in which no tag closes, and a closing tag make one span. */
  lemma SpanThenRest(open: string, body: string, close: string, rest: string)
    requires open in OPEN_TAGS && close in CLOSE_TAGS
    requires forall i :: |open| <= i < |open| + |body| ==> CloseAt(open + body + close + rest, i) == 0
    ensures Pieces(open + body + close + rest) == [Span(open, body, close)] + Pieces(rest)
  {
    var s := open + body + close + rest;
    var n, j := |open|, |open| + |body|;
    FourParts(open, body, close, rest);
    OpenHere(s, open);
    CloseHere(s, j, close);
    FindCloseIs(s, n, j);
    SpanFirst(s, n, j, j + |close|);
  }

  lemma SpanFirst(s: string, n: nat, j: nat, k: nat)
    requires 0 < n <= j < k <= |s| && OpenAt(s, 0) == n && FindClose(s, n) == Some(j) && CloseAt(s, j) == k - j
    ensures Pieces(s) != [] && Pieces(s)[0] == Span(s[..n], s[n..j], s[j..k]) && Pieces(s)[1..] == Pieces(s[k..])
  {
  }

  lemma FourParts(a: string, b: string, c: string, d: string)
    ensures var s := a + b + c + d;
            var n, j, k := |a|, |a| + |b|, |a| + |b| + |c|;
            s[0..n] == s[..n] == a && s[n..j] == b && s[j..k] == c && s[k..] == d
  {
    var s := a + b + c + d;
    var n, j, k := |a|, |a| + |b|, |a| + |b| + |c|;
    assert s[..n] == a;
    assert s[n..j] == b;
    assert s[j..k] == c;
    assert s[k..] == d;
  }

  lemma FindCloseIs(s: string, from: nat, j: nat)
    requires from <= j <= |s| && CloseAt(s, j) > 0 && forall i :: from <= i < j ==> CloseAt(s, i) == 0
    ensures FindClose(s, from) == Some(j)
  {
  }

  lemma SpanCounts(p: Piece, ps: seq<Piece>)
    requires p.Span?
    ensures Public([p] + ps) == Public(ps) && Bodies([p] + ps) == [p.body] + Bodies(ps)
  {
    assert ([p] + ps)[1..] == ps;
  }

  lemma OpenHere(s: string, open: string)
    requires open in OPEN_TAGS && |open| <= |s| && s[0..|open|] == open
    ensures OpenAt(s, 0) == |open|
  {
    if open == "<thinking>" {
      assert s[3] == open[3] == 'i';
      if IsAt(s, 0, "<thought>") {
        IsAtIndex(s, 0, "<thought>", 3);
      }
    }
  }

  lemma CloseHere(s: string, j: nat, close: string)
    requires close in CLOSE_TAGS && j + |close| <= |s| && s[j..j + |close|] == close
    ensures CloseAt(s, j) == |close|
  {
    if close == "</thinking>" {
      assert s[j + 4] == close[4] == 'i';
      if IsAt(s, j, "</thought>") {
        IsAtIndex(s, j, "</thought>", 4);
      }
    }
  }

  /** Any text in which a tag closes is what comes before the first closing tag, that tag, and
      the rest. */
  lemma FirstClose(body: string) returns (early: string, shut: string, late: string)
    requires Closed(body)
    ensures body == early + shut + late && shut in CLOSE_TAGS && !Closed(early)
  {
    var j := FindClose(body, 0).value;
    var k := j + CloseAt(body, j);
    BodyIsOpen(body, 0, j);
    early, shut, late := body[0..j], body[j..k], body[k..];
  }

  /** A thought in which a tag closes ends there, whatever it was opened with: the rest of it,
      and its own closing tag, are left to what follows. */
  lemma EarlyClose(open: string, early: string, shut: string, late: string, rest: string)
    requires open in OPEN_TAGS && shut in CLOSE_TAGS && !Closed(early)
    ensures Pieces(open + (early + shut + late) + rest) == [Span(open, early, shut)] + Pieces(late + rest)
  {
    RemovedWholeExactly(open, early, shut, late + rest);
    Regroup(open, early, shut, late, rest);
  }

  lemma Regroup(a: string, b: string, c: string, d: string, e: string)
    ensures a + b + c + (d + e) == a + (b + c + d) + e
  {
  }

  lemma EndedEarly(open: string, early: string, shut: string, late: string, rest: string)
    requires open in OPEN_TAGS && shut in CLOSE_TAGS && !Closed(early) && Tagless(late + rest)
    ensures SplitThought(open + (early + shut + late) + rest) == Utterance(Strip(late + rest), Strip(early))
  {
    EarlyClose(open, early, shut, late, rest);
    SpanCounts(Span(open, early, shut), Pieces(late + rest));
    TaglessPieces(late + rest);
    TaglessCut(late + rest);
    OneThought(early);
    assert [early] + [] == [early];
  }

  /** So of every thought in which a tag closes, all that follows the first closing tag is left to
      the public scan, and published unless something opens a thought in it. */
  lemma EarlyCloseLeaks(open: string, body: string, rest: string) returns (early: string, shut: string, late: string)
    requires open in OPEN_TAGS && Closed(body)
    ensures body == early + shut + late && shut in CLOSE_TAGS && !Closed(early)
    ensures Pieces(open + body + rest) == [Span(open, early, shut)] + Pieces(late + rest)
    ensures Tagless(late + rest) ==> SplitThought(open + body + rest) == Utterance(Strip(late + rest), Strip(early))
  {
    early, shut, late := FirstClose(body);
    EarlyClose(open, early, shut, late, rest);
    if Tagless(late + rest) {
      EndedEarly(open, early, shut, late, rest);
    }
  }

  lemma TaglessCut(s: string)
    ensures Cut(s) == |s| <==> Tagless(s)
    ensures Tagless(s) ==> s[..Cut(s)] == s && Tail(s) == []
  {
    if Cut(s) == |s| {
      assert FindOpen(s, 0).None?;
    }
  }

  lemma OneThought(thought: string)
    ensures Join(NonBlank([thought]), "\n\n") == Strip(thought)
  {
  }

  predicate Flat(s: string) {
    '<' !in s
  }

  /** For one, a thought written inside a thought ends the outer one. */
  lemma NestedThoughtLeaks(outer: string, inner: string, rest: string)
    requires Flat(outer) && Flat(inner) && Flat(rest)
    ensures SplitThought("<thought>" + (outer + "<thought>" + inner + "</thought>" + rest) + "</thought>").public
            == Strip(rest + "</thought>")
  {
    NestedStaysOpen(outer, inner);
    AfterIsTagless(rest);
    EndedEarly("<thought>", outer + "<thought>" + inner, "</thought>", rest, "</thought>");
  }

  lemma NestedStaysOpen(outer: string, inner: string)
    requires Flat(outer) && Flat(inner)
    ensures !Closed(outer + "<thought>" + inner)
  {
    var s := outer + "<thought>" + inner;
    forall i | 0 <= i <= |s| ensures CloseAt(s, i) == 0 {
      if i == |outer| {
        assert s[i + 1] == 't';
        NotClose(s, i);
      } else if i < |s| {
        assert i < |outer| || i >= |outer| + 9 || s[i] == "<thought>"[i - |outer|];
      }
    }
  }

  lemma NotClose(s: string, i: nat)
    requires i + 1 < |s| && s[i + 1] == 't'
    ensures CloseAt(s, i) == 0
  {
    if IsAt(s, i, "</thought>") {
      IsAtIndex(s, i, "</thought>", 1);
    }
    if IsAt(s, i, "</thinking>") {
      IsAtIndex(s, i, "</thinking>", 1);
    }
  }

  lemma AfterIsTagless(rest: string)
    requires Flat(rest)
    ensures Tagless(rest + "</thought>")
  {
    var s := rest + "</thought>";
    forall i | 0 <= i <= |s| ensures OpenAt(s, i) == 0 {
      if i < |s| && s[i] == '<' {
        assert s[i + 1] == '/';
        if IsAt(s, i, "<thought>") {
          IsAtIndex(s, i, "<thought>", 1);
        }
        if IsAt(s, i, "<thinking>") {
          IsAtIndex(s, i, "<thinking>", 1);
        }
      }
    }
  }

  // Writing thoughts down and reading them back

  /** Some text, and a thought after it. */
  datatype Passage = Passage(text: string, open: string, thought: string, close: string)

  predicate Tagged(ps: seq<Passage>) {
    forall p :: p in ps ==> p.open in OPEN_TAGS && p.close in CLOSE_TAGS
  }

  /** Passages, and the text after the last of them. */
  function Print(ps: seq<Passage>, last: string): string {
    if ps == [] then last
    else ps[0].text + (ps[0].open + ps[0].thought + ps[0].close + Print(ps[1..], last))
  }

  function Texts(ps: seq<Passage>, last: string): string {
    if ps == [] then last else ps[0].text + Texts(ps[1..], last)
  }

  function Thoughts(ps: seq<Passage>): seq<string> {
    if ps == [] then [] else [ps[0].thought] + Thoughts(ps[1..])
  }

  ghost predicate TextsTagless(ps: seq<Passage>, last: string) {
    Tagless(last) && forall p :: p in ps ==> Tagless(p.text)
  }

  predicate NoneCloses(ps: seq<Passage>) {
    forall p :: p in ps ==> !Closed(p.thought)
  }

  /** The pieces its author meant the text to have. */
  function Meant(ps: seq<Passage>, last: string): seq<Piece> {
    if ps == [] then Plain(last)
    else Plain(ps[0].text) + ([Span(ps[0].open, ps[0].thought, ps[0].close)] + Meant(ps[1..], last))
  }

  function Plain(text: string): (ps: seq<Piece>)
    ensures |ps| == |text| && forall i :: 0 <= i < |ps| ==> ps[i] == Kept(text[i])
  {
    if text == "" then [] else [Kept(text[0])] + Plain(text[1..])
  }

  lemma {:induction false} TextThenRest(text: string, rest: string)
    requires Tagless(text) && (rest == "" || rest[0] == '<')
    ensures Pieces(text + rest) == Plain(text) + Pieces(rest)
  {
    var s := text + rest;
    if text == "" {
      assert s == rest;
    } else {
      assert s[0] == text[0] && s[1..] == text[1..] + rest;
      TaglessTail(text);
      TextThenRest(text[1..], rest);
      if OpenAt(s, 0) > 0 {
        OpenInFront(text, rest, 0);
      }
      assert Pieces(s) == [Kept(text[0])] + (Plain(text[1..]) + Pieces(rest));
    }
  }

  lemma MarkedOpens(p: Passage, rest: string)
    requires p.open in OPEN_TAGS
    ensures var s := p.open + p.thought + p.close + rest; s != "" && s[0] == '<'
  {
    TagsHaveOneBracket(p.open);
  }

  lemma {:induction false} PrintedPieces(ps: seq<Passage>, last: string)
    requires Tagged(ps) && TextsTagless(ps, last) && NoneCloses(ps)
    ensures Pieces(Print(ps, last)) == Meant(ps, last)
  {
    if ps == [] {
      TextThenRest(last, "");
      assert last + "" == last;
      assert Plain(last) + [] == Plain(last);
    } else {
      var p, rest := ps[0], Print(ps[1..], last);
      assert p in ps;
      PrintedPieces(ps[1..], last);
      RemovedWholeExactly(p.open, p.thought, p.close, rest);
      MarkedOpens(p, rest);
      TextThenRest(p.text, p.open + p.thought + p.close + rest);
    }
  }

  lemma {:induction false} MeantHasThoughts(ps: seq<Passage>, last: string, p: Passage)
    requires p in ps
    ensures Span(p.open, p.thought, p.close) in Meant(ps, last)
  {
    if p != ps[0] {
      MeantHasThoughts(ps[1..], last, p);
    }
  }

  /** Texts without an opening tag, and thoughts marked off between them, are taken apart as
      their author meant exactly when no thought holds a closing tag. */
  lemma TakenApartAsMeantExactly(ps: seq<Passage>, last: string)
    requires Tagged(ps) && TextsTagless(ps, last)
    ensures Pieces(Print(ps, last)) == Meant(ps, last) <==> NoneCloses(ps)
  {
    if NoneCloses(ps) {
      PrintedPieces(ps, last);
    } else if Pieces(Print(ps, last)) == Meant(ps, last) {
      var p :| p in ps && Closed(p.thought);
      MeantHasThoughts(ps, last, p);
      PiecesSpell(Print(ps, last));
    }
  }

  lemma KeptCounts(c: char, ps: seq<Piece>)
    ensures Public([Kept(c)] + ps) == [c] + Public(ps) && Bodies([Kept(c)] + ps) == Bodies(ps)
  {
    assert ([Kept(c)] + ps)[1..] == ps;
  }

  lemma {:induction false} PlainCounts(text: string, ps: seq<Piece>)
    ensures Public(Plain(text) + ps) == text + Public(ps) && Bodies(Plain(text) + ps) == Bodies(ps)
  {
    if text == "" {
      assert Plain(text) + ps == ps;
    } else {
      var rest := Plain(text[1..]) + ps;
      PlainCounts(text[1..], ps);
      assert Plain(text) + ps == [Kept(text[0])] + rest;
      KeptCounts(text[0], rest);
      assert text + Public(ps) == [text[0]] + (text[1..] + Public(ps));
    }
  }

  lemma {:induction false} MeantCounts(ps: seq<Passage>, last: string)
    ensures Public(Meant(ps, last)) == Texts(ps, last) && Bodies(Meant(ps, last)) == Thoughts(ps)
  {
    if ps == [] {
      PlainCounts(last, []);
      assert Plain(last) + [] == Plain(last);
      assert last + "" == last;
    } else {
      var p := ps[0];
      MeantCounts(ps[1..], last);
      SpanCounts(Span(p.open, p.thought, p.close), Meant(ps[1..], last));
      PlainCounts(p.text, [Span(p.open, p.thought, p.close)] + Meant(ps[1..], last));
    }
  }

  /** An answer in the prompted form is taken apart exactly: its thoughts are private, its text
      is public up to the first opening tag that taking out a thought puts together, and what
      follows that is private too. All of the text is public exactly when there is none. */
  lemma SplitReadsBack(ps: seq<Passage>, last: string)
    requires Tagged(ps) && TextsTagless(ps, last) && NoneCloses(ps)
    ensures var text := Texts(ps, last);
            && SplitThought(Print(ps, last))
               == Utterance(Strip(text[..Cut(text)]), Join(NonBlank(Thoughts(ps) + Tail(text)), "\n\n"))
            && (Untrimmed(Print(ps, last)) == text <==> Tagless(text))
            && (Tagless(text) ==>
                  SplitThought(Print(ps, last)) == Utterance(Strip(text), Join(NonBlank(Thoughts(ps)), "\n\n")))
  {
    PrintedPieces(ps, last);
    MeantCounts(ps, last);
    var text := Texts(ps, last);
    TaglessCut(text);
    assert Thoughts(ps) + [] == Thoughts(ps);
  }
}
