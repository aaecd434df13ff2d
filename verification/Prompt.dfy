/** Assembling a persona's system prompt: placeholders replaced one key after the other. */
module Prompt {
  import opened Wrappers
  import opened Text

  /** Every occurrence of a pattern, from the left and without overlap. */
  function Replace(s: string, pat: string, value: string): string
    requires pat != ""
    decreases |s|
  {
    if s == "" then "" else if pat <= s then value + Replace(s[|pat|..], pat, value) else [s[0]] + Replace(s[1..], pat, value)
  }

  function Token(key: string): (t: string)
    ensures t != ""
  {
    "{{" + key + "}}"
  }

  datatype Sub = Sub(key: string, value: string)

  /** The loop's result: each key's token replaced in what the keys before it left. */
  function InTurn(template: string, subs: seq<Sub>): string {
    if subs == [] then template
    else Replace(InTurn(template, subs[..|subs| - 1]), Token(subs[|subs| - 1].key), subs[|subs| - 1].value)
  }

  method BuildSystemPrompt(template: string, subs: seq<Sub>) returns (rendered: string)
    ensures rendered == InTurn(template, subs)
  {
    rendered := template;
    for i := 0 to |subs|
      invariant rendered == InTurn(template, subs[..i])
    {
      assert subs[..i + 1][..i] == subs[..i];
      rendered := Replace(rendered, Token(subs[i].key), subs[i].value);
    }
    assert subs[..|subs|] == subs;
  }

  // The one-pass meaning

  /** A template is literal text and placeholders. */
  datatype Piece = Lit(text: string) | Hole(name: string)

  function Written(p: Piece): string {
    match p
    case Lit(text) => text
    case Hole(name) => Token(name)
  }

  function Render(ps: seq<Piece>): string {
    if ps == [] then "" else Written(ps[0]) + Render(ps[1..])
  }

  predicate BraceFree(s: string) {
    '{' !in s && '}' !in s
  }

  /** Nothing in the text can begin a placeholder. */
  predicate Unopened(s: string) {
    '{' !in s
  }

  predicate Clean(ps: seq<Piece>) {
    forall p :: p in ps ==> if p.Lit? then Unopened(p.text) else BraceFree(p.name)
  }

  predicate CleanSub(s: Sub) {
    BraceFree(s.key) && Unopened(s.value)
  }

  predicate CleanSubs(subs: seq<Sub>) {
    forall i :: 0 <= i < |subs| ==> CleanSub(subs[i])
  }

  /** The value given for a name, if any: the first one stands. */
  function ValueFor(subs: seq<Sub>, name: string): Option<string> {
    if subs == [] then None else if subs[0].key == name then Some(subs[0].value) else ValueFor(subs[1..], name)
  }

  /** All placeholders at once: a known name becomes its value, an unknown one stays. */
  function Substitute(ps: seq<Piece>, subs: seq<Sub>): string {
    if ps == [] then ""
    else
      (match ps[0]
       case Lit(text) => text
       case Hole(name) => if ValueFor(subs, name).Some? then ValueFor(subs, name).value else Token(name))
      + Substitute(ps[1..], subs)
  }

  // One key

  function Fill(ps: seq<Piece>, key: string, value: string): seq<Piece> {
    if ps == [] then []
    else [if ps[0] == Hole(key) then Lit(value) else ps[0]] + Fill(ps[1..], key, value)
  }

  lemma {:induction false} TextSkipped(text: string, rest: string, key: string, value: string)
    requires '{' !in text
    ensures Replace(text + rest, Token(key), value) == text + Replace(rest, Token(key), value)
  {
    if text == "" {
      assert text + rest == rest;
    } else {
      assert (text + rest)[0] == text[0] && Token(key)[0] == '{';
      assert (text + rest)[1..] == text[1..] + rest;
      TextSkipped(text[1..], rest, key, value);
    }
  }

  lemma TokenReplaced(key: string, rest: string, value: string)
    ensures Replace(Token(key) + rest, Token(key), value) == value + Replace(rest, Token(key), value)
  {
    assert (Token(key) + rest)[|Token(key)|..] == rest;
  }

  /** A token starts like another only if the names agree. */
  lemma TokenPrefix(name: string, rest: string, key: string)
    requires BraceFree(name) && BraceFree(key) && Token(key) <= Token(name) + rest
    ensures name == key
  {
    var s := Token(name) + rest;
    assert s[2 + |name|] == '}' && s[2 + |key|] == '}';
    assert forall i :: 0 <= i < |name| ==> s[2 + i] == name[i];
    assert forall i :: 0 <= i < |key| ==> s[2 + i] == Token(key)[2 + i] == key[i];
    assert forall i :: 2 <= i < 2 + |name| ==> s[i] == name[i - 2];
    assert forall i :: 2 <= i < 2 + |key| ==> s[i] == key[i - 2];
  }

  /** Another key's token is passed over, brace by brace. */
  lemma TokenSkipped(name: string, rest: string, key: string, value: string)
    requires BraceFree(name) && BraceFree(key) && name != key
    ensures Replace(Token(name) + rest, Token(key), value) == Token(name) + Replace(rest, Token(key), value)
  {
    var s := Token(name) + rest;
    var tail := name + "}}";
    if Token(key) <= s {
      TokenPrefix(name, rest, key);
    }
    assert s[1..] == "{" + (tail + rest);
    SecondBrace(tail + rest, key, value);
    TextSkipped(tail, rest, key, value);
    assert Token(name) == ['{'] + (['{'] + tail);
  }

  lemma SecondBrace(rest: string, key: string, value: string)
    requires rest != "" && rest[0] != '{'
    ensures Replace("{" + rest, Token(key), value) == "{" + Replace(rest, Token(key), value)
  {
    assert ("{" + rest)[1] == rest[0] && Token(key)[1] == '{';
    assert ("{" + rest)[1..] == rest;
  }

  /** Replacing one key's token in a written template fills that key's placeholders. */
  lemma {:induction false} ReplaceFills(ps: seq<Piece>, key: string, value: string)
    requires Clean(ps) && BraceFree(key)
    ensures Replace(Render(ps), Token(key), value) == Render(Fill(ps, key, value))
  {
    if ps != [] {
      var rest := Render(ps[1..]);
      assert Clean(ps[1..]);
      assert ps[0] in ps;
      ReplaceFills(ps[1..], key, value);
      match ps[0]
      case Lit(text) => TextSkipped(text, rest, key, value);
      case Hole(name) =>
        if name == key {
          TokenReplaced(key, rest, value);
        } else {
          TokenSkipped(name, rest, key, value);
        }
    }
  }

  // All keys

  function FillAll(ps: seq<Piece>, subs: seq<Sub>): seq<Piece> {
    if subs == [] then ps else Fill(FillAll(ps, subs[..|subs| - 1]), subs[|subs| - 1].key, subs[|subs| - 1].value)
  }

  lemma {:induction false} FillKeepsClean(ps: seq<Piece>, key: string, value: string)
    requires Clean(ps) && Unopened(value)
    ensures Clean(Fill(ps, key, value))
  {
    if ps != [] {
      assert ps[0] in ps && Clean(ps[1..]);
      FillKeepsClean(ps[1..], key, value);
    }
  }

  lemma {:induction false} InTurnFills(ps: seq<Piece>, subs: seq<Sub>)
    requires Clean(ps) && CleanSubs(subs)
    ensures InTurn(Render(ps), subs) == Render(FillAll(ps, subs)) && Clean(FillAll(ps, subs))
  {
    if subs != [] {
      var earlier, last := subs[..|subs| - 1], subs[|subs| - 1];
      InTurnFills(ps, earlier);
      ReplaceFills(FillAll(ps, earlier), last.key, last.value);
      FillKeepsClean(FillAll(ps, earlier), last.key, last.value);
    }
  }

  /** What becomes of one piece. */
  function Settled(p: Piece, subs: seq<Sub>): Piece {
    if p.Hole? && ValueFor(subs, p.name).Some? then Lit(ValueFor(subs, p.name).value) else p
  }

  lemma {:induction false} FillEach(ps: seq<Piece>, key: string, value: string)
    ensures |Fill(ps, key, value)| == |ps|
    ensures forall i :: 0 <= i < |ps| ==> Fill(ps, key, value)[i] == if ps[i] == Hole(key) then Lit(value) else ps[i]
  {
    if ps != [] {
      FillEach(ps[1..], key, value);
    }
  }

  lemma {:induction false} ValueForLast(subs: seq<Sub>, name: string)
    requires subs != []
    ensures var earlier, last := subs[..|subs| - 1], subs[|subs| - 1];
            ValueFor(subs, name) == if ValueFor(earlier, name).Some? then ValueFor(earlier, name)
                                    else if last.key == name then Some(last.value) else None
  {
    if |subs| > 1 {
      assert subs[1..][..|subs| - 2] == subs[..|subs| - 1][1..];
      ValueForLast(subs[1..], name);
    }
  }

  lemma {:induction false} FillAllEach(ps: seq<Piece>, subs: seq<Sub>)
    ensures |FillAll(ps, subs)| == |ps|
    ensures forall i :: 0 <= i < |ps| ==> FillAll(ps, subs)[i] == Settled(ps[i], subs)
  {
    if subs != [] {
      var earlier, last := subs[..|subs| - 1], subs[|subs| - 1];
      FillAllEach(ps, earlier);
      FillEach(FillAll(ps, earlier), last.key, last.value);
      forall i | 0 <= i < |ps| ensures FillAll(ps, subs)[i] == Settled(ps[i], subs) {
        if ps[i].Hole? {
          ValueForLast(subs, ps[i].name);
        }
      }
    }
  }

  lemma {:induction false} RenderSettled(ps: seq<Piece>, qs: seq<Piece>, subs: seq<Sub>)
    requires |qs| == |ps| && forall i :: 0 <= i < |ps| ==> qs[i] == Settled(ps[i], subs)
    ensures Render(qs) == Substitute(ps, subs)
  {
    if ps != [] {
      RenderSettled(ps[1..], qs[1..], subs);
    }
  }

  /** For templates of plain text and placeholders, and values that open no brace, replacing key
      after key is the same as substituting all placeholders at once; unknown placeholders
      are left as they are. */
  lemma SequentialIsSimultaneous(ps: seq<Piece>, subs: seq<Sub>)
    requires Clean(ps) && CleanSubs(subs)
    ensures InTurn(Render(ps), subs) == Substitute(ps, subs)
  {
    InTurnFills(ps, subs);
    FillAllEach(ps, subs);
    RenderSettled(ps, FillAll(ps, subs), subs);
  }

  predicate DistinctNames(subs: seq<Sub>) {
    forall i, j :: 0 <= i < j < |subs| ==> subs[i].key != subs[j].key
  }

  lemma {:induction false} ValueForIs(subs: seq<Sub>, name: string)
    requires DistinctNames(subs)
    ensures forall v :: ValueFor(subs, name) == Some(v) <==> Sub(name, v) in subs
  {
    if subs != [] {
      ValueForIs(subs[1..], name);
      assert forall x :: x in subs[1..] ==> x.key != subs[0].key;
      assert forall x :: x in subs <==> x == subs[0] || x in subs[1..];
    }
  }

  /** The order of the keys does not matter. */
  lemma {:induction false} SubstituteAgrees(ps: seq<Piece>, xs: seq<Sub>, ys: seq<Sub>)
    requires forall name :: ValueFor(xs, name) == ValueFor(ys, name)
    ensures Substitute(ps, xs) == Substitute(ps, ys)
  {
    if ps != [] {
      SubstituteAgrees(ps[1..], xs, ys);
    }
  }

  lemma KeyOrderIsIrrelevant(ps: seq<Piece>, xs: seq<Sub>, ys: seq<Sub>)
    requires Clean(ps) && CleanSubs(xs) && CleanSubs(ys) && DistinctNames(xs) && DistinctNames(ys)
    requires forall x :: x in xs <==> x in ys
    ensures InTurn(Render(ps), xs) == InTurn(Render(ps), ys)
  {
    forall name ensures ValueFor(xs, name) == ValueFor(ys, name) {
      ValueForIs(xs, name);
      ValueForIs(ys, name);
      if ValueFor(xs, name).Some? {
        assert Sub(name, ValueFor(xs, name).value) in ys;
      } else {
        assert forall v :: Sub(name, v) !in ys;
      }
    }
    SequentialIsSimultaneous(ps, xs);
    SequentialIsSimultaneous(ps, ys);
    SubstituteAgrees(ps, xs, ys);
  }

  // Any values at all

  /** A placeholder of this name stands at this place of the written pieces. */
  predicate HoleAt(ps: seq<Piece>, i: int, name: string) {
    ps != [] && ((i == 0 && ps[0] == Hole(name)) || HoleAt(ps[1..], i - |Written(ps[0])|, name))
  }

  predicate StandsAt(s: string, i: int, pat: string) {
    0 <= i <= |s| && pat <= s[i..]
  }

  /** A name's token is found only where its own placeholders stand: no text spells it. */
  ghost predicate OnlyAtHoles(ps: seq<Piece>, name: string) {
    forall i :: StandsAt(Render(ps), i, Token(name)) ==> HoleAt(ps, i, name)
  }

  /** How often a pattern occurs in a text, counting every place. */
  function Count(s: string, pat: string): nat {
    if s == "" then 0 else (if pat <= s then 1 else 0) + Count(s[1..], pat)
  }

  /** How often it occurs from the first of two texts on. */
  function Starts(text: string, rest: string, pat: string): nat {
    if text == "" then 0 else (if pat <= text + rest then 1 else 0) + Starts(text[1..], rest, pat)
  }

  function Holes(ps: seq<Piece>, name: string): nat {
    if ps == [] then 0 else (if ps[0] == Hole(name) then 1 else 0) + Holes(ps[1..], name)
  }

  /** Occurrences of a name's token that start outside its own placeholders. */
  function Strays(ps: seq<Piece>, name: string): nat {
    if ps == [] then 0
    else (if ps[0] == Hole(name) then 0 else Starts(Written(ps[0]), Render(ps[1..]), Token(name))) + Strays(ps[1..], name)
  }

  lemma {:induction false} CountSplits(text: string, rest: string, pat: string)
    ensures Count(text + rest, pat) == Starts(text, rest, pat) + Count(rest, pat)
  {
    if text == "" {
      assert text + rest == rest;
    } else {
      assert (text + rest)[1..] == text[1..] + rest;
      CountSplits(text[1..], rest, pat);
    }
  }

  /** What stands in a text beyond its first character stands in the rest of it. */
  lemma StandsLater(s: string, i: int, pat: string)
    requires s != "" && i > 0
    ensures StandsAt(s, i, pat) <==> StandsAt(s[1..], i - 1, pat)
  {
    if i <= |s| {
      assert s[i..] == s[1..][i - 1..];
    }
  }

  lemma {:induction false} NoStart(text: string, rest: string, pat: string)
    ensures Starts(text, rest, pat) == 0 <==> forall i :: 0 <= i < |text| ==> !StandsAt(text + rest, i, pat)
  {
    if text != "" {
      var s := text + rest;
      assert s[0..] == s && s[1..] == text[1..] + rest;
      NoStart(text[1..], rest, pat);
      if Starts(text, rest, pat) == 0 {
        forall i | 0 <= i < |text| ensures !StandsAt(s, i, pat) {
          if i > 0 {
            StandsLater(s, i, pat);
          }
        }
      } else if pat <= s {
        assert StandsAt(s, 0, pat);
      } else {
        var i :| 0 <= i < |text[1..]| && StandsAt(text[1..] + rest, i, pat);
        StandsLater(s, i + 1, pat);
        assert StandsAt(s, i + 1, pat);
      }
    }
  }

  /** A token never overlaps itself: its two opening braces come first, and no other follows. */
  lemma NoOverlap(name: string, rest: string, i: int)
    requires BraceFree(name) && 0 < i < |Token(name)|
    ensures !StandsAt(Token(name) + rest, i, Token(name))
  {
    OtherStart(name, rest, i, name);
  }

  /** Past its first brace, a token is where no other begins; nor at it, but for its own name. */
  lemma OtherStart(name: string, rest: string, i: int, key: string)
    requires BraceFree(name) && BraceFree(key) && 0 <= i < |Token(name)| && (i == 0 ==> name != key)
    ensures !StandsAt(Token(name) + rest, i, Token(key))
  {
    var t, k := Token(name), Token(key);
    var s := t + rest;
    if i == 0 {
      assert s[0..] == s;
      if k <= s {
        TokenPrefix(name, rest, key);
      }
    } else if i == 1 {
      assert s[1..][1] == t[2] != '{';
    } else {
      assert s[i..][0] == t[i] != '{';
    }
  }

  lemma OwnStart(name: string, rest: string)
    requires BraceFree(name)
    ensures Starts(Token(name), rest, Token(name)) == 1
  {
    var t := Token(name);
    var s, tail := t + rest, t[1..] + rest;
    forall i | 0 <= i < |t[1..]| ensures !StandsAt(tail, i, t) {
      NoOverlap(name, rest, i + 1);
      assert s[i + 1..] == tail[i..];
    }
    NoStart(t[1..], rest, t);
  }

  /** Deleting a token takes its length away once for every place it occurs at. */
  lemma {:induction false} DeletionCounts(s: string, name: string)
    requires BraceFree(name)
    ensures |Replace(s, Token(name), "")| + |Token(name)| * Count(s, Token(name)) == |s|
    decreases |s|
  {
    var t := Token(name);
    if s == "" {
    } else if t <= s {
      var rest := s[|t|..];
      assert s == t + rest;
      DeletionCounts(rest, name);
      OneMoreToken(name, rest);
      assert Replace(s, t, "") == Replace(rest, t, "");
      Distribute(|t|, Count(rest, t));
    } else {
      DeletionCounts(s[1..], name);
    }
  }

  lemma OneMoreToken(name: string, rest: string)
    requires BraceFree(name)
    ensures Count(Token(name) + rest, Token(name)) == 1 + Count(rest, Token(name))
  {
    OwnStart(name, rest);
    CountSplits(Token(name), rest, Token(name));
  }

  lemma Distribute(a: nat, b: nat)
    ensures a * (1 + b) == a + a * b
  {
  }

  lemma {:induction false} CountIs(ps: seq<Piece>, name: string)
    requires BraceFree(name)
    ensures Count(Render(ps), Token(name)) == Holes(ps, name) + Strays(ps, name)
  {
    if ps != [] {
      CountIs(ps[1..], name);
      CountSplits(Written(ps[0]), Render(ps[1..]), Token(name));
      if ps[0] == Hole(name) {
        OwnStart(name, Render(ps[1..]));
      }
    }
  }

  lemma {:induction false} EmptiedLength(ps: seq<Piece>, name: string)
    ensures |Render(Fill(ps, name, ""))| + |Token(name)| * Holes(ps, name) == |Render(ps)|
  {
    if ps != [] {
      EmptiedLength(ps[1..], name);
      Distribute(|Token(name)|, Holes(ps[1..], name));
    }
  }

  lemma {:induction false} StartlessSkipped(text: string, rest: string, pat: string, value: string)
    requires pat != "" && Starts(text, rest, pat) == 0
    ensures Replace(text + rest, pat, value) == text + Replace(rest, pat, value)
  {
    if text == "" {
      assert text + rest == rest;
    } else {
      assert (text + rest)[1..] == text[1..] + rest;
      StartlessSkipped(text[1..], rest, pat, value);
    }
  }

  lemma {:induction false} StraylessFills(ps: seq<Piece>, name: string, value: string)
    requires Strays(ps, name) == 0
    ensures Replace(Render(ps), Token(name), value) == Render(Fill(ps, name, value))
  {
    if ps != [] {
      var rest := Render(ps[1..]);
      StraylessFills(ps[1..], name, value);
      if ps[0] == Hole(name) {
        TokenReplaced(name, rest, value);
      } else {
        StartlessSkipped(Written(ps[0]), rest, Token(name), value);
      }
    }
  }

  lemma {:induction false} HolesAreAhead(ps: seq<Piece>, i: int, name: string)
    requires HoleAt(ps, i, name)
    ensures 0 <= i
  {
    if !(i == 0 && ps[0] == Hole(name)) {
      HolesAreAhead(ps[1..], i - |Written(ps[0])|, name);
    }
  }

  lemma StandsBehind(front: string, rest: string, i: int, pat: string)
    requires i >= |front|
    ensures StandsAt(front + rest, i, pat) <==> StandsAt(rest, i - |front|, pat)
  {
    if i <= |front| + |rest| {
      assert (front + rest)[i..] == rest[i - |front|..];
    }
  }

  lemma BehindPiece(ps: seq<Piece>, i: int, pat: string)
    requires ps != [] && i >= |Written(ps[0])|
    ensures StandsAt(Render(ps), i, pat) <==> StandsAt(Render(ps[1..]), i - |Written(ps[0])|, pat)
  {
    StandsBehind(Written(ps[0]), Render(ps[1..]), i, pat);
  }

  lemma {:induction false} StraylessExactly(ps: seq<Piece>, name: string)
    requires BraceFree(name)
    ensures Strays(ps, name) == 0 <==> OnlyAtHoles(ps, name)
  {
    if ps != [] {
      var n, rest := |Written(ps[0])|, ps[1..];
      StraylessExactly(rest, name);
      NoStart(Written(ps[0]), Render(rest), Token(name));
      if Strays(ps, name) == 0 {
        forall i | StandsAt(Render(ps), i, Token(name)) ensures HoleAt(ps, i, name) {
          StrayFreeHole(ps, i, name);
        }
      } else if OnlyAtHoles(ps, name) {
        HolesOnlyRest(ps, name);
        if ps[0] != Hole(name) {
          HolesOnlyFirst(ps, name);
        }
      }
    } else {
      assert forall i :: !StandsAt(Render(ps), i, Token(name));
    }
  }

  lemma StrayFreeHole(ps: seq<Piece>, i: int, name: string)
    requires BraceFree(name) && ps != [] && Strays(ps, name) == 0 && OnlyAtHoles(ps[1..], name)
    requires StandsAt(Render(ps), i, Token(name))
    ensures HoleAt(ps, i, name)
  {
    var n := |Written(ps[0])|;
    if i >= n {
      BehindPiece(ps, i, Token(name));
    } else if ps[0] == Hole(name) {
      if i > 0 {
        NoOverlap(name, Render(ps[1..]), i);
      }
    } else {
      NoStart(Written(ps[0]), Render(ps[1..]), Token(name));
    }
  }

  lemma HolesOnlyFirst(ps: seq<Piece>, name: string)
    requires ps != [] && OnlyAtHoles(ps, name) && ps[0] != Hole(name)
    ensures Starts(Written(ps[0]), Render(ps[1..]), Token(name)) == 0
  {
    var n := |Written(ps[0])|;
    assert Render(ps) == Written(ps[0]) + Render(ps[1..]);
    forall i | 0 <= i < n ensures !StandsAt(Render(ps), i, Token(name)) {
      if HoleAt(ps, i, name) {
        HolesAreAhead(ps[1..], i - n, name);
      }
    }
    NoStart(Written(ps[0]), Render(ps[1..]), Token(name));
  }

  lemma HolesOnlyRest(ps: seq<Piece>, name: string)
    requires ps != [] && OnlyAtHoles(ps, name)
    ensures OnlyAtHoles(ps[1..], name)
  {
    var n := |Written(ps[0])|;
    forall i | StandsAt(Render(ps[1..]), i, Token(name)) ensures HoleAt(ps[1..], i, name) {
      BehindPiece(ps, i + n, Token(name));
      assert HoleAt(ps, i + n, name);
    }
  }

  /** Whatever the texts, replacing a token fills its placeholders and nothing else, for every
      value, exactly when the token occurs nowhere but at them. */
  lemma ReplaceFillsExactly(ps: seq<Piece>, key: string)
    requires BraceFree(key)
    ensures (forall w :: Replace(Render(ps), Token(key), w) == Render(Fill(ps, key, w))) <==> OnlyAtHoles(ps, key)
  {
    if OnlyAtHoles(ps, key) {
      StraylessExactly(ps, key);
      forall w ensures Replace(Render(ps), Token(key), w) == Render(Fill(ps, key, w)) {
        StraylessFills(ps, key, w);
      }
    } else {
      DeletionTells(ps, key);
      assert Replace(Render(ps), Token(key), "") != Render(Fill(ps, key, ""));
    }
  }

  /** Deleting shows the difference whenever there is one: it takes away too much. */
  lemma DeletionTells(ps: seq<Piece>, key: string)
    requires BraceFree(key) && !OnlyAtHoles(ps, key)
    ensures |Replace(Render(ps), Token(key), "")| < |Render(Fill(ps, key, ""))|
  {
    StraylessExactly(ps, key);
    DeletionCounts(Render(ps), key);
    EmptiedLength(ps, key);
    CountIs(ps, key);
    MoreIsMore(|Token(key)|, Holes(ps, key), Strays(ps, key));
  }

  lemma MoreIsMore(a: nat, b: nat, c: nat)
    requires a > 0 && c > 0
    ensures a * (b + c) > a * b
  {
  }

  lemma FilledMeans(ps: seq<Piece>, subs: seq<Sub>)
    ensures Render(FillAll(ps, subs)) == Substitute(ps, subs)
  {
    FillAllEach(ps, subs);
    RenderSettled(ps, FillAll(ps, subs), subs);
  }

  /** Key after key, for any template and any values: as long as the replacements so far are the
      one-pass substitution, the next key keeps it so, whatever its value, exactly when its token
      occurs in what they left only where its own placeholders stand. */
  lemma NextKeyExactly(ps: seq<Piece>, earlier: seq<Sub>, key: string)
    requires BraceFree(key) && InTurn(Render(ps), earlier) == Substitute(ps, earlier)
    ensures (forall w :: InTurn(Render(ps), earlier + [Sub(key, w)]) == Substitute(ps, earlier + [Sub(key, w)]))
            <==> OnlyAtHoles(FillAll(ps, earlier), key)
  {
    var qs := FillAll(ps, earlier);
    FilledMeans(ps, earlier);
    forall w
      ensures InTurn(Render(ps), earlier + [Sub(key, w)]) == Replace(Render(qs), Token(key), w)
      ensures Substitute(ps, earlier + [Sub(key, w)]) == Render(Fill(qs, key, w))
    {
      assert (earlier + [Sub(key, w)])[..|earlier|] == earlier;
      FilledMeans(ps, earlier + [Sub(key, w)]);
    }
    ReplaceFillsExactly(qs, key);
    if OnlyAtHoles(qs, key) {
      forall w ensures InTurn(Render(ps), earlier + [Sub(key, w)]) == Substitute(ps, earlier + [Sub(key, w)]) {
        assert Replace(Render(qs), Token(key), w) == Render(Fill(qs, key, w));
      }
    } else {
      var w :| Replace(Render(qs), Token(key), w) != Render(Fill(qs, key, w));
      assert InTurn(Render(ps), earlier + [Sub(key, w)]) != Substitute(ps, earlier + [Sub(key, w)]);
    }
  }

  // One value, whatever the template

  /** The replacements of two keys are the one-pass substitution. */
  predicate Obeys(ps: seq<Piece>, a: string, v: string, b: string, w: string) {
    InTurn(Render(ps), [Sub(a, v), Sub(b, w)]) == Substitute(ps, [Sub(a, v), Sub(b, w)])
  }

  /** The value may come to spell the token: alone, with what a template writes after it, or with
      another copy of itself. */
  predicate Reenters(v: string, key: string) {
    || Occurs(v, Token(key))
    || (exists k :: 2 <= k < |Token(key)| && k <= |v| && v[|v| - k..] == Token(key)[..k])
    || (v != "" && v[|v| - 1] == '{' && (v == "{" || "{" + key + "}}" <= v))
  }

  predicate Occurs(s: string, pat: string) {
    pat <= s || (s != "" && Occurs(s[1..], pat))
  }

  lemma {:induction false} OccursExactly(s: string, pat: string)
    requires pat != ""
    ensures Occurs(s, pat) <==> exists i :: StandsAt(s, i, pat)
  {
    if s == "" {
      assert forall i :: !StandsAt(s, i, pat);
    } else {
      OccursExactly(s[1..], pat);
      if pat <= s {
        assert s[0..] == s;
        assert StandsAt(s, 0, pat);
      } else if Occurs(s, pat) {
        var i :| StandsAt(s[1..], i, pat);
        assert s[1..][i..] == s[i + 1..];
        assert StandsAt(s, i + 1, pat);
      } else if i :| StandsAt(s, i, pat) {
        assert s[0..] == s;
        assert s[1..][i - 1..] == s[i..];
        assert StandsAt(s[1..], i - 1, pat);
      }
    }
  }

  /** In one clean template both keys are replaced as they should be exactly when the second
      token, after the first is filled, occurs only at its own placeholders. */
  lemma TwoKeysExactly(ps: seq<Piece>, a: string, v: string, b: string)
    requires Clean(ps) && BraceFree(a) && BraceFree(b)
    ensures (forall w :: Obeys(ps, a, v, b, w)) <==> OnlyAtHoles(Fill(ps, a, v), b)
  {
    var qs := Fill(ps, a, v);
    forall w ensures Obeys(ps, a, v, b, w) <==> Replace(Render(qs), Token(b), w) == Render(Fill(qs, b, w)) {
      TwoSteps(ps, a, v, b, w);
    }
    ReplaceFillsExactly(qs, b);
    if OnlyAtHoles(qs, b) {
      forall w ensures Obeys(ps, a, v, b, w) {
        assert Replace(Render(qs), Token(b), w) == Render(Fill(qs, b, w));
      }
    } else {
      var w :| Replace(Render(qs), Token(b), w) != Render(Fill(qs, b, w));
      assert !Obeys(ps, a, v, b, w);
    }
  }

  lemma TwoSteps(ps: seq<Piece>, a: string, v: string, b: string, w: string)
    requires Clean(ps) && BraceFree(a)
    ensures InTurn(Render(ps), [Sub(a, v), Sub(b, w)]) == Replace(Render(Fill(ps, a, v)), Token(b), w)
    ensures Substitute(ps, [Sub(a, v), Sub(b, w)]) == Render(Fill(Fill(ps, a, v), b, w))
  {
    var one, two := [Sub(a, v)], [Sub(a, v), Sub(b, w)];
    assert one[..0] == [] && two[..1] == one;
    ReplaceFills(ps, a, v);
    assert InTurn(Render(ps), one) == Render(Fill(ps, a, v));
    assert FillAll(ps, one) == Fill(ps, a, v);
    FilledMeans(ps, two);
  }

  /** What can follow a value that ends in a brace does not complete a token with it. */
  lemma {:induction false} NoCompletion(ps: seq<Piece>, a: string, v: string, b: string)
    requires Clean(ps) && BraceFree(b) && v != "" && v[|v| - 1] == '{' && v != "{" && !("{" + b + "}}" <= v)
    ensures !("{" + b + "}}" <= Render(Fill(ps, a, v)))
  {
    var need := "{" + b + "}}";
    assert forall j :: 1 <= j < |need| ==> need[j] == (b + "}}")[j - 1] != '{';
    if ps != [] {
      assert ps[0] in ps && Clean(ps[1..]);
      NoCompletion(ps[1..], a, v, b);
      var rest := Render(Fill(ps[1..], a, v));
      if ps[0] == Hole(a) {
        if need <= v + rest {
          CutShort(v, rest, need);
        }
      } else if ps[0].Lit? {
        if ps[0].text == "" {
          assert "" + rest == rest;
        } else {
          assert (ps[0].text + rest)[0] == ps[0].text[0];
        }
      } else {
        assert (Token(ps[0].name) + rest)[1] == '{';
      }
    }
  }

  lemma CutShort(v: string, rest: string, need: string)
    requires v != "" && v[|v| - 1] == '{' && v != "{" && (forall j :: 1 <= j < |need| ==> need[j] != '{') && need <= v + rest
    ensures need <= v
  {
    var last := |v| - 1;
    assert (v + rest)[last] == '{' && last > 0;
    assert forall j :: 0 <= j < |need| ==> need[j] == (v + rest)[j];
    assert (v + rest)[..|need|] == v[..|need|];
  }

  /** A value that does not re-enter starts no token, whatever a clean template puts behind it. */
  lemma NoStartInValue(ps: seq<Piece>, a: string, v: string, b: string)
    requires Clean(ps) && BraceFree(b) && !Reenters(v, b)
    ensures Starts(v, Render(Fill(ps, a, v)), Token(b)) == 0
  {
    var t, rest := Token(b), Render(Fill(ps, a, v));
    var s := v + rest;
    forall i | 0 <= i < |v| ensures !StandsAt(s, i, t) {
      if StandsAt(s, i, t) {
        assert s[i..] == v[i..] + rest;
        StartInValue(v, i, rest, b);
        NoCompletion(ps, a, v, b);
      }
    }
    NoStart(v, rest, t);
  }

  lemma StartInValue(v: string, i: nat, rest: string, b: string)
    requires i < |v| && Token(b) <= v[i..] + rest && !Reenters(v, b)
    ensures v[|v| - 1] == '{' && v != "{" && !("{" + b + "}}" <= v) && "{" + b + "}}" <= rest
  {
    var t, s := Token(b), v[i..] + rest;
    if |v| - i >= |t| {
      HeldWhole(v, i, rest, t);
    } else if |v| - i >= 2 {
      BegunAtEnd(v, i, rest, b);
    } else {
      assert v[i] == s[0] == t[0];
      assert t[1..] == "{" + b + "}}";
      assert s[1..] == rest;
    }
  }

  lemma HeldWhole(v: string, i: nat, rest: string, t: string)
    requires t != "" && i + |t| <= |v| && t <= v[i..] + rest
    ensures Occurs(v, t)
  {
    OccursExactly(v, t);
    assert t == (v[i..] + rest)[..|t|] == v[i..][..|t|];
    assert StandsAt(v, i, t);
  }

  lemma BegunAtEnd(v: string, i: nat, rest: string, b: string)
    requires 2 <= |v| - i < |Token(b)| && Token(b) <= v[i..] + rest
    ensures Reenters(v, b)
  {
    var t, k := Token(b), |v| - i;
    assert t[..k] == (v[i..] + rest)[..k] == v[i..];
    assert v[|v| - k..] == t[..k];
  }

  lemma {:induction false} ValueLeavesNoStrays(ps: seq<Piece>, a: string, v: string, b: string)
    requires Clean(ps) && BraceFree(b) && !Reenters(v, b)
    ensures Strays(Fill(ps, a, v), b) == 0
  {
    if ps != [] {
      assert ps[0] in ps && Clean(ps[1..]);
      ValueLeavesNoStrays(ps[1..], a, v, b);
      var rest := Render(Fill(ps[1..], a, v));
      if ps[0] == Hole(a) {
        NoStartInValue(ps[1..], a, v, b);
      } else if ps[0].Lit? {
        UnopenedStartsNothing(ps[0].text, rest, b);
      } else if ps[0].name != b {
        NameStartsNothing(ps[0].name, rest, b);
      }
    }
  }

  lemma UnopenedStartsNothing(text: string, rest: string, b: string)
    requires Unopened(text)
    ensures Starts(text, rest, Token(b)) == 0
  {
    forall i | 0 <= i < |text| ensures !StandsAt(text + rest, i, Token(b)) {
      assert (text + rest)[i..][0] == text[i] != Token(b)[0];
    }
    NoStart(text, rest, Token(b));
  }

  lemma NameStartsNothing(name: string, rest: string, b: string)
    requires BraceFree(name) && BraceFree(b) && name != b
    ensures Starts(Token(name), rest, Token(b)) == 0
  {
    forall i | 0 <= i < |Token(name)| ensures !StandsAt(Token(name) + rest, i, Token(b)) {
      OtherStart(name, rest, i, b);
    }
    NoStart(Token(name), rest, Token(b));
  }

  predicate AllText(ps: seq<Piece>) {
    forall p :: p in ps ==> p.Lit?
  }

  lemma {:induction false} TextHasNoHoles(ps: seq<Piece>, i: int, name: string)
    requires AllText(ps)
    ensures !HoleAt(ps, i, name)
  {
    if ps != [] {
      assert ps[0] in ps && AllText(ps[1..]);
      TextHasNoHoles(ps[1..], i - |Written(ps[0])|, name);
    }
  }

  /** Once filled, the template is all text, and the second token stands in it somewhere. */
  ghost predicate Spells(ps: seq<Piece>, a: string, v: string, b: string) {
    Clean(ps) && AllText(Fill(ps, a, v)) && exists i :: StandsAt(Render(Fill(ps, a, v)), i, Token(b))
  }

  lemma SpellsAt(ps: seq<Piece>, a: string, v: string, b: string, i: int)
    requires Clean(ps) && AllText(Fill(ps, a, v)) && StandsAt(Render(Fill(ps, a, v)), i, Token(b))
    ensures Spells(ps, a, v, b)
  {
  }

  lemma SpellsItAlone(a: string, v: string, b: string)
    requires BraceFree(a) && Occurs(v, Token(b))
    ensures Spells([Hole(a)], a, v, b)
  {
    OccursExactly(v, Token(b));
    assert [Hole(a)][1..] == [];
    assert Render(Fill([Hole(a)], a, v)) == v + "" == v;
  }

  lemma SpellsItWithText(a: string, v: string, b: string, k: nat)
    requires BraceFree(a) && BraceFree(b) && 2 <= k < |Token(b)| && k <= |v| && v[|v| - k..] == Token(b)[..k]
    ensures Spells([Hole(a), Lit(Token(b)[k..])], a, v, b)
  {
    var tail := Token(b)[k..];
    TailUnopened(b, k);
    FillsTwo(Hole(a), Lit(tail), a, v);
    Rejoined(v, Token(b), k);
    SpellsAt([Hole(a), Lit(tail)], a, v, b, |v| - k);
  }

  lemma TailUnopened(b: string, k: nat)
    requires BraceFree(b) && 2 <= k <= |Token(b)|
    ensures Unopened(Token(b)[k..])
  {
    assert Token(b)[k..] == (b + "}}")[k - 2..];
  }

  lemma Rejoined(v: string, t: string, k: nat)
    requires k <= |t| && k <= |v| && v[|v| - k..] == t[..k]
    ensures StandsAt(v + t[k..], |v| - k, t)
  {
    assert (v + t[k..])[|v| - k..] == t[..k] + t[k..] == t;
  }

  lemma FillsTwo(p: Piece, q: Piece, a: string, v: string)
    requires p == Hole(a)
    ensures var second := if q == Hole(a) then Lit(v) else q;
            Fill([p, q], a, v) == [Lit(v), second] && Render(Fill([p, q], a, v)) == v + Written(second)
  {
    assert [p, q][1..] == [q] && [q][1..] == [];
    var second := if q == Hole(a) then Lit(v) else q;
    assert Fill([q], a, v) == [second];
    var filled := [Lit(v), second];
    assert Fill([p, q], a, v) == filled && filled[1..] == [second] && [second][1..] == [];
    assert Render([second]) == Written(second) + "" == Written(second);
    assert Render(filled) == v + Render([second]);
  }

  lemma SpellsItDoubled(a: string, v: string, b: string)
    requires BraceFree(a) && v != "" && v[|v| - 1] == '{' && "{" + b + "}}" <= v
    ensures Spells([Hole(a), Hole(a)], a, v, b)
  {
    FillsTwo(Hole(a), Hole(a), a, v);
    Doubled(v, b);
    SpellsAt([Hole(a), Hole(a)], a, v, b, |v| - 1);
  }

  lemma Doubled(v: string, b: string)
    requires v != "" && v[|v| - 1] == '{' && "{" + b + "}}" <= v
    ensures StandsAt(v + v, |v| - 1, Token(b))
  {
    assert Token(b) == "{" + ("{" + b + "}}");
    assert (v + v)[|v| - 1..] == "{" + v;
  }

  lemma SpellsItFromBraces(a: string, b: string)
    requires BraceFree(a) && BraceFree(b)
    ensures Spells([Hole(a), Hole(a), Lit(b + "}}")], a, "{", b)
  {
    var ps, tail := [Hole(a), Hole(a), Lit(b + "}}")], [Hole(a), Lit(b + "}}")];
    assert ps[1..] == tail;
    FillsTwo(Hole(a), Lit(b + "}}"), a, "{");
    var filled := [Lit("{"), Lit("{"), Lit(b + "}}")];
    assert Fill(ps, a, "{") == filled && filled[1..] == Fill(tail, a, "{");
    assert Clean(ps) && AllText(filled);
    var s := Render(Fill(ps, a, "{"));
    assert s == "{" + ("{" + (b + "}}"));
    assert s == Token(b) && s[0..] == s;
    SpellsAt(ps, a, "{", b, 0);
  }

  lemma ReentryHappens(a: string, v: string, b: string) returns (ps: seq<Piece>)
    requires BraceFree(a) && BraceFree(b) && Reenters(v, b)
    ensures Clean(ps) && !OnlyAtHoles(Fill(ps, a, v), b)
  {
    if Occurs(v, Token(b)) {
      ps := [Hole(a)];
      SpellsItAlone(a, v, b);
    } else if k: nat :| 2 <= k < |Token(b)| && k <= |v| && v[|v| - k..] == Token(b)[..k] {
      ps := [Hole(a), Lit(Token(b)[k..])];
      SpellsItWithText(a, v, b, k);
    } else if v == "{" {
      ps := [Hole(a), Hole(a), Lit(b + "}}")];
      SpellsItFromBraces(a, b);
    } else {
      ps := [Hole(a), Hole(a)];
      SpellsItDoubled(a, v, b);
    }
    var i :| StandsAt(Render(Fill(ps, a, v)), i, Token(b));
    TextHasNoHoles(Fill(ps, a, v), i, b);
  }

  /** A value is safe in every template, whatever the later key's value, exactly when it neither
      holds that key's placeholder, nor ends in the beginning of one, nor completes one with
      another copy of itself. */
  lemma ValuesReenterExactly(a: string, v: string, b: string)
    requires BraceFree(a) && BraceFree(b) && a != b
    ensures (forall ps, w :: Clean(ps) ==> Obeys(ps, a, v, b, w)) <==> !Reenters(v, b)
  {
    if Reenters(v, b) {
      var ps := ReentryHappens(a, v, b);
      TwoKeysExactly(ps, a, v, b);
    } else {
      forall ps, w | Clean(ps) ensures Obeys(ps, a, v, b, w) {
        ValueLeavesNoStrays(ps, a, v, b);
        StraylessExactly(Fill(ps, a, v), b);
        TwoKeysExactly(ps, a, v, b);
      }
    }
  }

  predicate SameEitherWay(ps: seq<Piece>, a: string, v: string, b: string, w: string) {
    InTurn(Render(ps), [Sub(a, v), Sub(b, w)]) == InTurn(Render(ps), [Sub(b, w), Sub(a, v)])
  }

  lemma SwappedMeans(ps: seq<Piece>, a: string, v: string, b: string, w: string)
    requires a != b
    ensures Substitute(ps, [Sub(a, v), Sub(b, w)]) == Substitute(ps, [Sub(b, w), Sub(a, v)])
  {
    var xs, ys := [Sub(a, v), Sub(b, w)], [Sub(b, w), Sub(a, v)];
    assert xs[1..] == [Sub(b, w)] && ys[1..] == [Sub(a, v)];
    forall name ensures ValueFor(xs, name) == ValueFor(ys, name) {
      assert [Sub(a, v)][1..] == [] && [Sub(b, w)][1..] == [];
    }
    SubstituteAgrees(ps, xs, ys);
  }

  /** And the order of two keys makes no difference in any template, for any harmless second
      value, exactly when the first value is harmless too. */
  lemma OrderMattersExactly(a: string, v: string, b: string)
    requires BraceFree(a) && BraceFree(b) && a != b
    ensures (forall ps, w :: Clean(ps) && !Reenters(w, a) ==> SameEitherWay(ps, a, v, b, w)) <==> !Reenters(v, b)
  {
    forall ps, w | Clean(ps) && !Reenters(w, a) ensures SameEitherWay(ps, a, v, b, w) <==> Obeys(ps, a, v, b, w) {
      ValuesReenterExactly(b, w, a);
      assert Obeys(ps, b, w, a, v);
      SwappedMeans(ps, a, v, b, w);
    }
    ValuesReenterExactly(a, v, b);
    if Reenters(v, b) {
      var ps := ReentryHappens(a, v, b);
      EmptyValueTells(ps, a, v, b);
      EmptyIsHarmless(a);
    }
  }

  /** The empty value shows the difference whenever there is one, and is harmless itself. */
  lemma EmptyValueTells(ps: seq<Piece>, a: string, v: string, b: string)
    requires Clean(ps) && BraceFree(a) && BraceFree(b) && !OnlyAtHoles(Fill(ps, a, v), b)
    ensures !Obeys(ps, a, v, b, "")
  {
    TwoSteps(ps, a, v, b, "");
    DeletionTells(Fill(ps, a, v), b);
  }

  lemma EmptyIsHarmless(a: string)
    ensures !Reenters("", a)
  {
  }

  // A template that is one placeholder

  /** In a template that is the one placeholder, a value is put in as it stands exactly when the
      other key's placeholder does not occur in it; and only then is the order irrelevant. */
  lemma OnePlaceholderExactly(a: string, b: string, v: string)
    requires BraceFree(a) && BraceFree(b) && a != b
    ensures (forall w :: InTurn(Token(a), [Sub(a, v), Sub(b, w)]) == v) <==> !Occurs(v, Token(b))
    ensures (forall w :: InTurn(Token(a), [Sub(a, v), Sub(b, w)]) == InTurn(Token(a), [Sub(b, w), Sub(a, v)]))
            <==> !Occurs(v, Token(b))
  {
    var ps, filled := [Hole(a)], [Lit(v)];
    assert ps[1..] == [] && filled[1..] == [];
    assert Render(ps) == Token(a) + "" == Token(a);
    assert Fill(ps, a, v) == filled && Render(filled) == v + "" == v;
    forall w
      ensures Obeys(ps, a, v, b, w) <==> InTurn(Token(a), [Sub(a, v), Sub(b, w)]) == v
      ensures InTurn(Token(a), [Sub(b, w), Sub(a, v)]) == v
    {
      TwoInTurn(a, b, v, w);
      assert Substitute(ps, [Sub(a, v), Sub(b, w)]) == v + "" == v;
    }
    TwoKeysExactly(ps, a, v, b);
    OccursExactly(v, Token(b));
    forall i ensures !HoleAt(filled, i, b) {
      TextHasNoHoles(filled, i, b);
    }
  }

  lemma TwoInTurn(a: string, b: string, v: string, w: string)
    requires BraceFree(a) && BraceFree(b) && a != b
    ensures InTurn(Token(a), [Sub(a, v), Sub(b, w)]) == Replace(v, Token(b), w)
    ensures InTurn(Token(a), [Sub(b, w), Sub(a, v)]) == v
  {
    WholeToken(a, v);
    OtherToken(a, b, w);
    var xs, ys := [Sub(a, v), Sub(b, w)], [Sub(b, w), Sub(a, v)];
    assert xs[..1] == [Sub(a, v)] && ys[..1] == [Sub(b, w)];
    assert [Sub(a, v)][..0] == [] && [Sub(b, w)][..0] == [];
    assert InTurn(Token(a), xs[..1]) == v;
    assert InTurn(Token(a), ys[..1]) == Token(a);
  }

  /** For one, a value that spells another placeholder is itself replaced when that key comes
      later, and stays when it came before. */
  lemma BracesReenter(a: string, b: string, value: string)
    requires BraceFree(a) && BraceFree(b) && a != b
    ensures InTurn(Token(a), [Sub(a, Token(b)), Sub(b, value)]) == value
    ensures InTurn(Token(a), [Sub(b, value), Sub(a, Token(b))]) == Token(b)
  {
    TwoInTurn(a, b, Token(b), value);
    WholeToken(b, value);
  }

  lemma WholeToken(key: string, value: string)
    ensures Replace(Token(key), Token(key), value) == value
  {
    TokenReplaced(key, "", value);
    assert Token(key) + "" == Token(key);
    assert value + "" == value;
  }

  lemma OtherToken(name: string, key: string, value: string)
    requires BraceFree(name) && BraceFree(key) && name != key
    ensures Replace(Token(name), Token(key), value) == Token(name)
  {
    TokenSkipped(name, "", key, value);
    assert Token(name) + "" == Token(name);
  }

  // What a persona substitutes

  datatype Spec = Spec(
    displayName: string, title: string, department: string, summary: string, guidance: string, seniority: string,
    tone: seq<string>, collaborationStyle: string, challengeStyle: string, riskTolerance: string,
    responsibilities: seq<string>, kpis: seq<string>, objectives: seq<string>, priorities: seq<string>)

  datatype Occasion = Occasion(objective: string, agenda: string, brief: string, expectations: string,
                               attendees: string, tools: string)

  function OrElse(s: string, other: string): string {
    if s == "" then other else s
  }

  function Bullets(items: seq<string>): string {
    if items == [] then "None specified." else Join(seq(|items|, i requires 0 <= i < |items| => "- " + items[i]), "\n")
  }

  function CommaList(items: seq<string>, empty: string): string {
    if items == [] then empty else Join(items, ", ")
  }

  const WHO := ["DISPLAY_NAME", "TITLE", "DEPARTMENT", "SUMMARY", "PERSONA_GUIDANCE", "SENIORITY", "TONE"]
  const HOW := ["COLLABORATION_STYLE", "CHALLENGE_STYLE", "RISK_TOLERANCE", "RESPONSIBILITIES", "KPIS", "OBJECTIVES", "PRIORITIES"]
  const WHAT := ["OBJECTIVE", "AGENDA", "BRIEF", "EXPECTATIONS", "ATTENDEE_LIST", "TOOLS", "ATTENDEE LIST"]
  const NAMES := WHO + HOW + WHAT

  function WhoValues(p: Spec): seq<string> {
    [p.displayName, p.title, p.department, p.summary, p.guidance, OrElse(p.seniority, "Unspecified"),
     CommaList(p.tone, "Neutral")]
  }

  function HowValues(p: Spec): seq<string> {
    [OrElse(p.collaborationStyle, "Collaborative"), OrElse(p.challengeStyle, "Constructive"),
     OrElse(p.riskTolerance, "Medium"), Bullets(p.responsibilities), Bullets(p.kpis), Bullets(p.objectives),
     Bullets(p.priorities)]
  }

  function WhatValues(o: Occasion): seq<string> {
    [o.objective, o.agenda, o.brief, o.expectations, o.attendees, OrElse(o.tools, "You have no tools available."),
     o.attendees]
  }

  function Values(p: Spec, o: Occasion): seq<string> {
    WhoValues(p) + HowValues(p) + WhatValues(o)
  }

  function Zip(names: seq<string>, values: seq<string>): seq<Sub>
    requires |names| == |values|
  {
    seq(|names|, i requires 0 <= i < |names| => Sub(names[i], values[i]))
  }

  function Substitutions(p: Spec, o: Occasion): seq<Sub> {
    Zip(NAMES, Values(p, o))
  }

  /** A list becomes one dashed line for each item, in order, and an empty one says so. */
  lemma BulletsExactly(items: seq<string>, last: string)
    ensures Bullets([]) == "None specified." && Bullets([last]) == "- " + last
    ensures items != [] ==> Bullets(items + [last]) == Bullets(items) + "\n" + ("- " + last)
  {
    var marked := seq(|items|, i requires 0 <= i < |items| => "- " + items[i]);
    var more := items + [last];
    assert seq(|more|, i requires 0 <= i < |more| => "- " + more[i]) == marked + ["- " + last];
    JoinGrows(marked, "- " + last, "\n");
    assert seq(1, i requires 0 <= i < 1 => "- " + [last][i]) == ["- " + last];
  }

  lemma CommaListExactly(items: seq<string>, last: string, empty: string)
    ensures CommaList([], empty) == empty && CommaList([last], empty) == last
    ensures items != [] ==> CommaList(items + [last], empty) == CommaList(items, empty) + ", " + last
  {
    JoinGrows(items, last, ", ");
  }

  lemma NamesDiffer()
    ensures forall i, j :: 0 <= i < j < |NAMES| ==> NAMES[i] != NAMES[j]
  {
  }

  /** Who the persona is, under which placeholder, and what stands in for a field left empty. */
  function AboutPersona(p: Spec): seq<Sub> {
    [Sub("DISPLAY_NAME", p.displayName), Sub("TITLE", p.title), Sub("DEPARTMENT", p.department),
     Sub("SUMMARY", p.summary), Sub("PERSONA_GUIDANCE", p.guidance),
     Sub("SENIORITY", if p.seniority == "" then "Unspecified" else p.seniority),
     Sub("TONE", CommaList(p.tone, "Neutral"))]
  }

  function AboutManner(p: Spec): seq<Sub> {
    [Sub("COLLABORATION_STYLE", if p.collaborationStyle == "" then "Collaborative" else p.collaborationStyle),
     Sub("CHALLENGE_STYLE", if p.challengeStyle == "" then "Constructive" else p.challengeStyle),
     Sub("RISK_TOLERANCE", if p.riskTolerance == "" then "Medium" else p.riskTolerance),
     Sub("RESPONSIBILITIES", Bullets(p.responsibilities)), Sub("KPIS", Bullets(p.kpis)),
     Sub("OBJECTIVES", Bullets(p.objectives)), Sub("PRIORITIES", Bullets(p.priorities))]
  }

  /** The attendee list goes by two names. */
  function AboutMeeting(o: Occasion): seq<Sub> {
    [Sub("OBJECTIVE", o.objective), Sub("AGENDA", o.agenda), Sub("BRIEF", o.brief), Sub("EXPECTATIONS", o.expectations),
     Sub("ATTENDEE_LIST", o.attendees), Sub("TOOLS", if o.tools == "" then "You have no tools available." else o.tools),
     Sub("ATTENDEE LIST", o.attendees)]
  }

  lemma PersonaPart(p: Spec)
    ensures Zip(WHO, WhoValues(p)) == AboutPersona(p)
  {
  }

  lemma MannerPart(p: Spec)
    ensures Zip(HOW, HowValues(p)) == AboutManner(p)
  {
  }

  lemma MeetingPart(o: Occasion)
    ensures Zip(WHAT, WhatValues(o)) == AboutMeeting(o)
  {
  }

  lemma ZipThree(a: seq<string>, b: seq<string>, c: seq<string>, x: seq<string>, y: seq<string>, z: seq<string>)
    requires |a| == |x| && |b| == |y| && |c| == |z|
    ensures Zip(a + b + c, x + y + z) == Zip(a, x) + Zip(b, y) + Zip(c, z)
  {
  }

  lemma PartsTogether(p: Spec, o: Occasion)
    ensures Substitutions(p, o) == AboutPersona(p) + AboutManner(p) + AboutMeeting(o)
  {
    PersonaPart(p);
    MannerPart(p);
    MeetingPart(o);
    ZipThree(WHO, HOW, WHAT, WhoValues(p), HowValues(p), WhatValues(o));
  }

  lemma DistinctZip(names: seq<string>, values: seq<string>, name: string, value: string)
    requires |names| == |values| && forall i, j :: 0 <= i < j < |names| ==> names[i] != names[j]
    ensures ValueFor(Zip(names, values), name) == Some(value) <==> Sub(name, value) in Zip(names, values)
  {
    ValueForIs(Zip(names, values), name);
  }

  /** The placeholder of each name is filled by the field that belongs to it, and no name beyond
      these is filled at all. */
  lemma FieldsFill(p: Spec, o: Occasion, name: string, value: string)
    ensures ValueFor(Substitutions(p, o), name) == Some(value)
            <==> Sub(name, value) in AboutPersona(p) + AboutManner(p) + AboutMeeting(o)
  {
    NamesDiffer();
    DistinctZip(NAMES, Values(p, o), name, value);
    PartsTogether(p, o);
  }

  predicate AllUnopened(items: seq<string>) {
    forall i :: 0 <= i < |items| ==> Unopened(items[i])
  }

  predicate AllBraceFree(items: seq<string>) {
    forall i :: 0 <= i < |items| ==> BraceFree(items[i])
  }

  predicate CleanSpec(p: Spec) {
    && Unopened(p.displayName) && Unopened(p.title) && Unopened(p.department) && Unopened(p.summary)
    && Unopened(p.guidance) && Unopened(p.seniority) && AllUnopened(p.tone) && Unopened(p.collaborationStyle)
    && Unopened(p.challengeStyle) && Unopened(p.riskTolerance) && AllUnopened(p.responsibilities)
    && AllUnopened(p.kpis) && AllUnopened(p.objectives) && AllUnopened(p.priorities)
  }

  predicate CleanOccasion(o: Occasion) {
    && Unopened(o.objective) && Unopened(o.agenda) && Unopened(o.brief) && Unopened(o.expectations)
    && Unopened(o.attendees) && Unopened(o.tools)
  }

  lemma {:induction false} JoinedIsClean(items: seq<string>, sep: string)
    requires AllUnopened(items) && Unopened(sep)
    ensures Unopened(Join(items, sep))
  {
    if |items| > 1 {
      assert AllUnopened(items[1..]);
      JoinedIsClean(items[1..], sep);
    }
  }

  lemma ListsAreClean(items: seq<string>, empty: string)
    requires AllUnopened(items) && Unopened(empty)
    ensures Unopened(Bullets(items)) && Unopened(CommaList(items, empty))
  {
    var marked := seq(|items|, i requires 0 <= i < |items| => "- " + items[i]);
    assert AllUnopened(marked);
    JoinedIsClean(marked, "\n");
    JoinedIsClean(items, ", ");
  }

  lemma OrElseIsClean(s: string, other: string)
    requires Unopened(s) && Unopened(other)
    ensures Unopened(OrElse(s, other))
  {
  }

  lemma ValuesAreClean(p: Spec, o: Occasion)
    requires CleanSpec(p) && CleanOccasion(o)
    ensures AllUnopened(Values(p, o))
  {
    OrElseIsClean(p.seniority, "Unspecified");
    OrElseIsClean(p.collaborationStyle, "Collaborative");
    OrElseIsClean(p.challengeStyle, "Constructive");
    OrElseIsClean(p.riskTolerance, "Medium");
    OrElseIsClean(o.tools, "You have no tools available.");
    ListsAreClean(p.tone, "Neutral");
    ListsAreClean(p.responsibilities, "");
    ListsAreClean(p.kpis, "");
    ListsAreClean(p.objectives, "");
    ListsAreClean(p.priorities, "");
  }

  lemma WhoIsClean()
    ensures AllBraceFree(WHO)
  {
  }

  lemma HowIsClean()
    ensures AllBraceFree(HOW)
  {
  }

  lemma WhatIsClean()
    ensures AllBraceFree(WHAT)
  {
  }

  lemma TogetherClean(xs: seq<string>, ys: seq<string>, zs: seq<string>)
    requires AllBraceFree(xs) && AllBraceFree(ys) && AllBraceFree(zs)
    ensures AllBraceFree(xs + ys + zs)
  {
  }

  lemma NamesAreClean()
    ensures AllBraceFree(NAMES)
  {
    WhoIsClean();
    HowIsClean();
    WhatIsClean();
    TogetherClean(WHO, HOW, WHAT);
  }

  /** A persona whose fields open no brace gets exactly the one-pass prompt. */
  lemma PersonaPrompt(ps: seq<Piece>, p: Spec, o: Occasion)
    requires Clean(ps) && CleanSpec(p) && CleanOccasion(o)
    ensures InTurn(Render(ps), Substitutions(p, o)) == Substitute(ps, Substitutions(p, o))
  {
    NamesAreClean();
    ValuesAreClean(p, o);
    ZipIsClean(NAMES, Values(p, o));
    SequentialIsSimultaneous(ps, Substitutions(p, o));
  }

  lemma ZipIsClean(names: seq<string>, values: seq<string>)
    requires |names| == |values| && AllBraceFree(names) && AllUnopened(values)
    ensures CleanSubs(Zip(names, values))
  {
  }
}
