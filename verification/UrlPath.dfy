/** The normal form of a request path: percent-decoded as text, then percent-encoded again
    (RFC 3986, sections 2.1 and 6.2.2; UTF-8 as in RFC 3629). */
module UrlPath {
  import opened Wrappers
  import opened Text

  type Byte = b: int | 0 <= b < 256

  // UTF-8

  predicate Scalar(n: int) {
    0 <= n < 0xD800 || 0xE000 <= n < 0x11_0000
  }

  function Utf8Char(c: char): (bs: seq<Byte>)
    ensures 1 <= |bs| <= 4
  {
    var n := c as int;
    if n < 0x80 then [n]
    else if n < 0x800 then [0xC0 + n / 64, 0x80 + n % 64]
    else if n < 0x1_0000 then [0xE0 + n / 4096, 0x80 + n / 64 % 64, 0x80 + n % 64]
    else [0xF0 + n / 262144, 0x80 + n / 4096 % 64, 0x80 + n / 64 % 64, 0x80 + n % 64]
  }

  function Utf8(t: string): seq<Byte> {
    if t == "" then [] else Utf8Char(t[0]) + Utf8(t[1..])
  }

  predicate Continues(b: Byte) {
    0x80 <= b <= 0xBF
  }

  /** How many bytes a sequence with this first byte has, or 0 if none starts so. */
  function Needs(b: Byte): nat {
    if b < 0x80 then 1
    else if 0xC2 <= b <= 0xDF then 2
    else if 0xE0 <= b <= 0xEF then 3
    else if 0xF0 <= b <= 0xF4 then 4
    else 0
  }

  /** The second byte excludes overlong forms, surrogates and numbers out of range. */
  predicate SecondFits(first: Byte, second: Byte) {
    if first == 0xE0 then 0xA0 <= second <= 0xBF
    else if first == 0xED then 0x80 <= second <= 0x9F
    else if first == 0xF0 then 0x90 <= second <= 0xBF
    else if first == 0xF4 then 0x80 <= second <= 0x8F
    else Continues(second)
  }

  /** How many bytes from the start belong to a well-formed sequence. */
  function Matching(bs: seq<Byte>): (n: nat)
    requires bs != []
    ensures n <= |bs| && n <= Needs(bs[0])
    ensures n >= 2 ==> SecondFits(bs[0], bs[1])
    ensures n >= 3 ==> Continues(bs[2])
    ensures n >= 4 ==> Continues(bs[3])
  {
    var need := Needs(bs[0]);
    if need <= 1 || |bs| == 1 || !SecondFits(bs[0], bs[1]) then (if need == 0 then 0 else 1)
    else if need == 2 || |bs| == 2 || !Continues(bs[2]) then 2
    else if need == 3 || |bs| == 3 || !Continues(bs[3]) then 3
    else 4
  }

  predicate WellFormed(bs: seq<Byte>) {
    bs != [] && Needs(bs[0]) > 0 && Matching(bs) == Needs(bs[0])
  }

  /** The number a well-formed sequence spells: six bits from each byte after the first. */
  function Two(b0: int, b1: int): int {
    (b0 - 0xC0) * 64 + (b1 - 0x80)
  }

  function Three(b0: int, b1: int, b2: int): int {
    (b0 - 0xE0) * 4096 + (b1 - 0x80) * 64 + (b2 - 0x80)
  }

  function Four(b0: int, b1: int, b2: int, b3: int): int {
    (b0 - 0xF0) * 262144 + (b1 - 0x80) * 4096 + (b2 - 0x80) * 64 + (b3 - 0x80)
  }

  function CharOf(bs: seq<Byte>): char
    requires WellFormed(bs)
  {
    match Needs(bs[0])
    case 1 => bs[0] as char
    case 2 => Two(bs[0], bs[1]) as char
    case 3 => Three(bs[0], bs[1], bs[2]) as char
    case _ => Four(bs[0], bs[1], bs[2], bs[3]) as char
  }

  const REPLACEMENT: char := '\U{FFFD}'

  /** Decoding with replacement: a broken sequence becomes one replacement character. */
  function Decode(bs: seq<Byte>): string
    decreases |bs|
  {
    if bs == [] then ""
    else if WellFormed(bs) then [CharOf(bs)] + Decode(bs[Needs(bs[0])..])
    else [REPLACEMENT] + Decode(bs[if Matching(bs) == 0 then 1 else Matching(bs)..])
  }

  /** The bytes of a character, read as a sequence of that length. */
  ghost predicate Reads(bs: seq<Byte>, c: char, n: nat) {
    WellFormed(bs) && Needs(bs[0]) == n && CharOf(bs) == c
  }

  lemma TwoBytesRead(n: int, bs: seq<Byte>)
    requires 0x80 <= n < 0x800 && |bs| >= 2 && bs[0] == 0xC0 + n / 64 && bs[1] == 0x80 + n % 64
    ensures Reads(bs, n as char, 2)
  {
    assert Two(bs[0], bs[1]) == n;
  }

  lemma ThreeBytesRead(n: int, bs: seq<Byte>)
    requires 0x800 <= n < 0x1_0000 && Scalar(n)
    requires |bs| >= 3 && bs[0] == 0xE0 + n / 4096 && bs[1] == 0x80 + n / 64 % 64 && bs[2] == 0x80 + n % 64
    ensures Reads(bs, n as char, 3)
  {
    assert Three(bs[0], bs[1], bs[2]) == n;
    assert SecondFits(bs[0], bs[1]);
    assert Continues(bs[2]);
  }

  lemma FourDigits(n: int)
    requires 0x1_0000 <= n < 0x11_0000
    ensures var b0, b1, b2, b3 := 0xF0 + n / 262144, 0x80 + n / 4096 % 64, 0x80 + n / 64 % 64, 0x80 + n % 64;
            0xF0 <= b0 <= 0xF4 && SecondFits(b0, b1) && Four(b0, b1, b2, b3) == n
  {
  }

  lemma FourBytesRead(n: int, bs: seq<Byte>)
    requires 0x1_0000 <= n < 0x11_0000
    requires |bs| >= 4 && bs[0] == 0xF0 + n / 262144 && bs[1] == 0x80 + n / 4096 % 64
    requires bs[2] == 0x80 + n / 64 % 64 && bs[3] == 0x80 + n % 64
    ensures Reads(bs, n as char, 4)
  {
    FourDigits(n);
    assert Continues(bs[2]) && Continues(bs[3]);
  }

  lemma CharReads(c: char, rest: seq<Byte>)
    ensures Reads(Utf8Char(c) + rest, c, |Utf8Char(c)|)
  {
    var n := c as int;
    var bs := Utf8Char(c) + rest;
    if n >= 0x1_0000 {
      FourBytesRead(n, bs);
    } else if n >= 0x800 {
      ThreeBytesRead(n, bs);
    } else if n >= 0x80 {
      TwoBytesRead(n, bs);
    }
  }

  lemma {:induction false} DecodeUtf8(t: string)
    ensures Decode(Utf8(t)) == t
  {
    if t != "" {
      CharReads(t[0], Utf8(t[1..]));
      assert Utf8(t)[|Utf8Char(t[0])|..] == Utf8(t[1..]);
      DecodeUtf8(t[1..]);
    }
  }

  // Percent encoding

  function HexDigit(n: int): char
    requires 0 <= n < 16
  {
    if n < 10 then ('0' as int + n) as char else ('A' as int + n - 10) as char
  }

  /** Letters, digits and the characters a path may hold unescaped. */
  predicate Safe(b: Byte) {
    || ('0' as int <= b <= '9' as int) || ('A' as int <= b <= 'Z' as int) || ('a' as int <= b <= 'z' as int)
    || b == '_' as int || b == '.' as int || b == '-' as int || b == '~' as int || b == '/' as int
    || b == '!' as int || b == '$' as int || b == '&' as int || b == '\'' as int || b == '(' as int || b == ')' as int
    || b == '*' as int || b == '+' as int || b == ',' as int || b == ';' as int || b == '=' as int
    || b == ':' as int || b == '@' as int
  }

  function QuoteByte(b: Byte): (s: string)
    ensures |s| == 1 || |s| == 3
  {
    if Safe(b) then [b as char] else ['%', HexDigit(b / 16), HexDigit(b % 16)]
  }

  function QuoteBytes(bs: seq<Byte>): string {
    if bs == [] then "" else QuoteByte(bs[0]) + QuoteBytes(bs[1..])
  }

  function Quote(t: string): string {
    QuoteBytes(Utf8(t))
  }

  predicate Ascii(s: string) {
    forall i :: 0 <= i < |s| ==> s[i] as int < 0x80
  }

  /** An escape with two hexadecimal digits is a byte; anything else stands for itself. */
  function UnquoteBytes(s: string): seq<Byte>
    requires Ascii(s)
    decreases |s|
  {
    if s == "" then []
    else if s[0] == '%' && |s| >= 3 && HexValue(s[1]).Some? && HexValue(s[2]).Some? then
      [HexValue(s[1]).value * 16 + HexValue(s[2]).value] + UnquoteBytes(s[3..])
    else [s[0] as int] + UnquoteBytes(s[1..])
  }

  function AsciiRun(s: string): (n: nat)
    ensures n <= |s| && Ascii(s[..n]) && (n < |s| ==> s[n] as int >= 0x80)
  {
    if s != "" && s[0] as int < 0x80 then
      var n := AsciiRun(s[1..]);
      assert s[..1 + n] == [s[0]] + s[1..][..n];
      1 + n
    else 0
  }

  /** Runs of ASCII are unescaped and decoded; other characters are kept. */
  function UnquoteRuns(s: string): string
    decreases |s|
  {
    if s == "" then ""
    else
      var n := AsciiRun(s);
      if n > 0 then Decode(UnquoteBytes(s[..n])) + UnquoteRuns(s[n..]) else [s[0]] + UnquoteRuns(s[1..])
  }

  function Unquote(s: string): string {
    if '%' !in s then s else UnquoteRuns(s)
  }

  function Normalise(path: string): Result<string, string> {
    if path == "" then Ok("/") else if path[0] != '/' then Err("path must be absolute") else Ok(Quote(Unquote(path)))
  }

  // Quoting can be undone

  lemma QuoteByteReads(b: Byte, rest: string)
    requires Ascii(rest)
    ensures Ascii(QuoteByte(b) + rest) && UnquoteBytes(QuoteByte(b) + rest) == [b] + UnquoteBytes(rest)
  {
    var s := QuoteByte(b) + rest;
    if Safe(b) {
      assert s[1..] == rest;
    } else {
      assert s[1] == HexDigit(b / 16) && s[2] == HexDigit(b % 16) && s[3..] == rest;
      assert HexValue(HexDigit(b / 16)) == Some(b / 16) && HexValue(HexDigit(b % 16)) == Some(b % 16);
    }
  }

  /** The characters of a path: unreserved ones, delimiters within a segment, and those between
      (RFC 3986, sections 2.2, 2.3 and 3.3). */
  predicate Unreserved(c: char) {
    'a' <= c <= 'z' || 'A' <= c <= 'Z' || '0' <= c <= '9' || c in "-._~"
  }

  predicate PathChar(c: char) {
    Unreserved(c) || c in "!$&'()*+,;=" || c == ':' || c == '@' || c == '/'
  }

  function Escaped(bs: seq<Byte>): string {
    if bs == [] then "" else ['%', HexDigit(bs[0] / 16), HexDigit(bs[0] % 16)] + Escaped(bs[1..])
  }

  lemma {:induction false} QuoteBytesAppend(xs: seq<Byte>, ys: seq<Byte>)
    ensures QuoteBytes(xs + ys) == QuoteBytes(xs) + QuoteBytes(ys)
  {
    if xs == [] {
      assert xs + ys == ys;
    } else {
      assert (xs + ys)[1..] == xs[1..] + ys;
      QuoteBytesAppend(xs[1..], ys);
    }
  }

  lemma {:induction false} UnsafeEscaped(bs: seq<Byte>)
    requires forall i :: 0 <= i < |bs| ==> !Safe(bs[i])
    ensures QuoteBytes(bs) == Escaped(bs)
  {
    if bs != [] {
      UnsafeEscaped(bs[1..]);
    }
  }

  lemma SafeBytes(c: char)
    ensures PathChar(c) ==> c as int < 0x80 && Safe(c as int)
    ensures !PathChar(c) && c as int < 0x80 ==> !Safe(c as int)
  {
  }

  lemma CharQuotes(c: char)
    ensures QuoteBytes(Utf8Char(c)) == if PathChar(c) then [c] else Escaped(Utf8Char(c))
  {
    SafeBytes(c);
    var bs := Utf8Char(c);
    if PathChar(c) {
      assert bs[1..] == [];
    } else {
      UnsafeEscaped(bs);
    }
  }

  /** Character by character, quoting leaves exactly the characters of a path as they are, and
      escapes every byte of any other. */
  lemma QuotesExactly(c: char, t: string)
    ensures Quote([c] + t) == (if PathChar(c) then [c] else Escaped(Utf8Char(c))) + Quote(t)
  {
    assert ([c] + t)[1..] == t;
    QuoteBytesAppend(Utf8Char(c), Utf8(t));
    CharQuotes(c);
  }

  lemma {:induction false} UnquoteQuoted(bs: seq<Byte>)
    ensures Ascii(QuoteBytes(bs)) && UnquoteBytes(QuoteBytes(bs)) == bs
  {
    if bs != [] {
      UnquoteQuoted(bs[1..]);
      QuoteByteReads(bs[0], QuoteBytes(bs[1..]));
    }
  }

  predicate EscapeAt(s: string, i: nat) {
    i + 2 < |s| && s[i] == '%' && HexValue(s[i + 1]).Some? && HexValue(s[i + 2]).Some?
  }

  ghost predicate Escapeless(s: string) {
    forall i: nat :: !EscapeAt(s, i)
  }

  lemma SliceEscapes(s: string, lo: nat, hi: nat)
    requires lo <= hi <= |s|
    ensures forall i: nat :: EscapeAt(s[lo..hi], i) ==> EscapeAt(s, lo + i)
  {
  }

  lemma EscapelessTail(s: string)
    requires s != "" && Escapeless(s)
    ensures !EscapeAt(s, 0) && Escapeless(s[1..])
  {
    SliceEscapes(s, 1, |s|);
    assert s[1..|s|] == s[1..];
  }

  lemma AsciiTail(s: string, n: nat)
    requires Ascii(s) && n <= |s|
    ensures Ascii(s[n..])
  {
    assert forall i :: 0 <= i < |s| - n ==> s[n..][i] == s[i + n];
  }

  lemma AsciiDecodes(b: Byte, bs: seq<Byte>)
    requires b < 0x80
    ensures Decode([b] + bs) == [b as char] + Decode(bs)
  {
    var all := [b] + bs;
    assert all[0] == b && all[1..] == bs;
    assert WellFormed(all) && CharOf(all) == b as char;
  }

  lemma {:induction false} EscapelessDecodes(s: string)
    requires Ascii(s) && Escapeless(s)
    ensures Decode(UnquoteBytes(s)) == s
  {
    if s != "" {
      AsciiTail(s, 1);
      EscapelessTail(s);
      EscapelessDecodes(s[1..]);
      AsciiDecodes(s[0] as int, UnquoteBytes(s[1..]));
      assert [s[0]] + s[1..] == s;
    }
  }

  lemma {:induction false} DecodeShorter(bs: seq<Byte>)
    ensures |Decode(bs)| <= |bs|
    decreases |bs|
  {
    if bs != [] {
      DecodeShorter(bs[if WellFormed(bs) then Needs(bs[0]) else if Matching(bs) == 0 then 1 else Matching(bs)..]);
    }
  }

  lemma {:induction false} BytesShorter(s: string)
    requires Ascii(s)
    ensures |UnquoteBytes(s)| <= |s| && (!Escapeless(s) ==> |UnquoteBytes(s)| < |s|)
    decreases |s|
  {
    if s != "" {
      AsciiTail(s, 1);
      if EscapeAt(s, 0) {
        AsciiTail(s, 3);
        BytesShorter(s[3..]);
      } else {
        BytesShorter(s[1..]);
        if i: nat :| EscapeAt(s, i) {
          assert EscapeAt(s[1..], i - 1);
        }
      }
    }
  }

  /** Where the rest of the text begins, after a run of ASCII or one other character. */
  function NextRun(s: string): (n: nat)
    requires s != ""
    ensures 0 < n <= |s|
  {
    if AsciiRun(s) > 0 then AsciiRun(s) else 1
  }

  function FirstRun(s: string): string
    requires s != ""
  {
    if AsciiRun(s) > 0 then Decode(UnquoteBytes(s[..AsciiRun(s)])) else [s[0]]
  }

  lemma RunByRun(s: string)
    requires s != ""
    ensures UnquoteRuns(s) == FirstRun(s) + UnquoteRuns(s[NextRun(s)..])
  {
  }

  lemma PartsEscapeless(s: string)
    requires s != ""
    ensures Escapeless(s) ==> Escapeless(s[..NextRun(s)]) && Escapeless(s[NextRun(s)..])
    ensures !Escapeless(s) ==> !Escapeless(s[..NextRun(s)]) || !Escapeless(s[NextRun(s)..])
  {
    var n := NextRun(s);
    SliceEscapes(s, 0, n);
    SliceEscapes(s, n, |s|);
    assert s[0..n] == s[..n] && s[n..|s|] == s[n..];
    forall i: nat | EscapeAt(s, i) ensures EscapeAt(s[..n], i) || (i >= n && EscapeAt(s[n..], i - n)) {
    }
  }

  lemma FirstRunIs(s: string)
    requires s != ""
    ensures Escapeless(s[..NextRun(s)]) ==> FirstRun(s) == s[..NextRun(s)]
    ensures |FirstRun(s)| <= NextRun(s) && (!Escapeless(s[..NextRun(s)]) ==> |FirstRun(s)| < NextRun(s))
  {
    var run := s[..NextRun(s)];
    if AsciiRun(s) > 0 {
      BytesShorter(run);
      DecodeShorter(UnquoteBytes(run));
      if Escapeless(run) {
        EscapelessDecodes(run);
      }
    }
  }

  lemma BothParts(a: string, b: string, x: string, y: string, p: bool, q: bool)
    requires (p ==> x == a) && |x| <= |a| && (!p ==> |x| < |a|)
    requires (q ==> y == b) && |y| <= |b| && (!q ==> |y| < |b|)
    ensures (p && q ==> x + y == a + b) && |x + y| <= |a + b| && (!(p && q) ==> |x + y| < |a + b|)
  {
  }

  lemma FirstRunThen(s: string, after: string)
    requires s != ""
    requires var rest := s[NextRun(s)..];
             (Escapeless(rest) ==> after == rest) && |after| <= |rest| && (!Escapeless(rest) ==> |after| < |rest|)
    ensures Escapeless(s) ==> FirstRun(s) + after == s
    ensures |FirstRun(s) + after| <= |s| && (!Escapeless(s) ==> |FirstRun(s) + after| < |s|)
  {
    var run, rest := s[..NextRun(s)], s[NextRun(s)..];
    PartsEscapeless(s);
    FirstRunIs(s);
    BothParts(run, rest, FirstRun(s), after, Escapeless(run), Escapeless(rest));
    assert run + rest == s;
  }

  lemma {:induction false} RunsChange(s: string)
    ensures Escapeless(s) ==> UnquoteRuns(s) == s
    ensures |UnquoteRuns(s)| <= |s| && (!Escapeless(s) ==> |UnquoteRuns(s)| < |s|)
    decreases |s|
  {
    if s != "" {
      var rest := s[NextRun(s)..];
      RunsChange(rest);
      FirstRunThen(s, UnquoteRuns(rest));
      RunByRun(s);
    }
  }

  lemma EscapesHavePercent(s: string)
    ensures '%' !in s ==> Escapeless(s)
  {
    forall i: nat | EscapeAt(s, i) ensures '%' in s {
      assert s[i] in s;
    }
  }

  /** Unquoting changes a text exactly when it holds an escape, which is a percent sign and two
      hexadecimal digits in either case; anything else after a percent sign stands for itself. */
  lemma UnquoteChangesExactly(s: string)
    ensures Unquote(s) == s <==> Escapeless(s)
  {
    RunsChange(s);
    EscapesHavePercent(s);
  }

  lemma {:induction false} RunsOfAscii(s: string)
    requires Ascii(s)
    ensures AsciiRun(s) == |s|
  {
    if s != "" {
      assert Ascii(s[1..]) by {
        assert forall i :: 0 <= i < |s| - 1 ==> s[1..][i] == s[i + 1];
      }
      RunsOfAscii(s[1..]);
    }
  }

  /** Quoting loses nothing. */
  lemma UnquoteQuote(t: string)
    ensures Unquote(Quote(t)) == t
  {
    var q := Quote(t);
    UnquoteQuoted(Utf8(t));
    DecodeUtf8(t);
    if '%' in q {
      RunsOfAscii(q);
      assert q[..|q|] == q && q[|q|..] == "";
      assert UnquoteRuns(q) == Decode(UnquoteBytes(q)) + "";
    } else {
      EscapesHavePercent(q);
      EscapelessDecodes(q);
    }
  }

  lemma DecodeKeepsSlash(bs: seq<Byte>)
    requires bs != [] && bs[0] == '/' as int
    ensures Decode(bs) != "" && Decode(bs)[0] == '/'
  {
    assert WellFormed(bs);
  }

  lemma UnquoteKeepsSlash(path: string)
    requires path != "" && path[0] == '/'
    ensures Unquote(path) != "" && Unquote(path)[0] == '/'
  {
    if '%' in path {
      var n := AsciiRun(path);
      assert n > 0 && path[..n][0] == '/';
      DecodeKeepsSlash(UnquoteBytes(path[..n]));
    }
  }

  lemma QuoteKeepsSlash(t: string)
    requires t != "" && t[0] == '/'
    ensures Quote(t) != "" && Quote(t)[0] == '/'
  {
    assert Utf8(t)[0] == '/' as int;
  }

  /** A normal form is absolute, and is its own normal form. */
  lemma NormaliseIsIdempotent(path: string)
    requires Normalise(path).Ok?
    ensures Normalise(path).value != "" && Normalise(path).value[0] == '/'
    ensures Normalise(Normalise(path).value) == Normalise(path)
  {
    if path == "" {
      RootIsNormal();
    } else {
      UnquoteKeepsSlash(path);
      QuoteKeepsSlash(Unquote(path));
      UnquoteQuote(Unquote(path));
    }
  }

  lemma RootIsNormal()
    ensures Normalise("/") == Ok("/")
  {
    assert Utf8("/") == [0x2F];
    assert Quote("/") == "/";
  }

  /** What a path means as text; the empty path means the root. */
  function Meaning(path: string): string {
    if path == "" then "/" else Unquote(path)
  }

  /** Two absolute paths have the same normal form exactly when they decode to the same text. */
  lemma SameFormSameText(p: string, q: string)
    requires Normalise(p).Ok? && Normalise(q).Ok?
    ensures Normalise(p) == Normalise(q) <==> Meaning(p) == Meaning(q)
  {
    RootIsNormal();
    UnquoteQuote(Meaning(p));
    UnquoteQuote(Meaning(q));
    assert Unquote("/") == "/";
  }

  /** Only a relative path is refused. */
  lemma NormaliseFails(path: string)
    ensures Normalise(path).Err? <==> path != "" && path[0] != '/'
  {
  }
}
