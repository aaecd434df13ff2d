/** The string operations of the source language, on sequences of characters.
    Case mapping covers the ASCII letters; whitespace is the full set that
    strip() and \s recognise. */
module Text {
  import opened Wrappers

  predicate IsSpace(c: char) {
    || '\t' <= c <= '\r' || c == ' '
    || '\U{1c}' <= c <= '\U{1f}'
    || c == '\U{85}' || c == '\U{a0}' || c == '\U{1680}' || c == '\U{2028}' || c == '\U{2029}'
    || c == '\U{202f}' || c == '\U{205f}' || c == '\U{3000}'
    || '\U{2000}' <= c <= '\U{200a}'
  }

  function LStrip(s: string): string {
    if s != [] && IsSpace(s[0]) then LStrip(s[1..]) else s
  }

  function RStrip(s: string): string {
    if s != [] && IsSpace(s[|s| - 1]) then RStrip(s[..|s| - 1]) else s
  }

  function Strip(s: string): string {
    RStrip(LStrip(s))
  }

  /** No whitespace at either end. */
  predicate Trimmed(s: string) {
    s != [] ==> !IsSpace(s[0]) && !IsSpace(s[|s| - 1])
  }

  /** Not empty, and no whitespace at either end. */
  predicate Solid(s: string) {
    s != "" && !IsSpace(s[0]) && !IsSpace(s[|s| - 1])
  }

  lemma LStripSpan(s: string) returns (i: nat)
    ensures i <= |s| && LStrip(s) == s[i..]
    ensures forall j :: 0 <= j < i ==> IsSpace(s[j])
    ensures LStrip(s) != [] ==> !IsSpace(LStrip(s)[0])
  {
    if s != [] && IsSpace(s[0]) {
      var k := LStripSpan(s[1..]);
      i := k + 1;
      assert s[1..][k..] == s[i..];
      forall j | 0 <= j < i ensures IsSpace(s[j]) {
        assert j > 0 ==> s[j] == s[1..][j - 1];
      }
    } else {
      i := 0;
    }
  }

  lemma RStripSpan(s: string) returns (i: nat)
    ensures i <= |s| && RStrip(s) == s[..i]
    ensures forall j :: i <= j < |s| ==> IsSpace(s[j])
    ensures RStrip(s) != [] ==> !IsSpace(RStrip(s)[|RStrip(s)| - 1])
  {
    if s != [] && IsSpace(s[|s| - 1]) {
      i := RStripSpan(s[..|s| - 1]);
      assert s[..|s| - 1][..i] == s[..i];
      forall j | i <= j < |s| ensures IsSpace(s[j]) {
        assert j < |s| - 1 ==> s[j] == s[..|s| - 1][j];
      }
    } else {
      i := |s|;
    }
  }

  /** Strip cuts whitespace only, and leaves none at the ends. */
  lemma StripSpan(s: string) returns (i: nat, j: nat)
    ensures i <= j <= |s| && Strip(s) == s[i..j] && Trimmed(Strip(s))
    ensures forall k :: 0 <= k < i || j <= k < |s| ==> IsSpace(s[k])
  {
    i := LStripSpan(s);
    var t := LStrip(s);
    var k := RStripSpan(t);
    j := i + k;
    assert t[..k] == s[i..j];
    forall x | j <= x < |s| ensures IsSpace(s[x]) {
      assert s[x] == t[x - i];
    }
    if k > 0 {
      assert t[..k][0] == t[0];
    }
  }

  lemma StripTrimmed(s: string)
    requires Trimmed(s)
    ensures Strip(s) == s
  {
    var i, j := StripSpan(s);
    if s != [] {
      assert i == 0 && j == |s|;
    }
  }

  predicate IsAt(s: string, i: nat, pat: string) {
    i + |pat| <= |s| && s[i..i + |pat|] == pat
  }

  lemma IsAtIndex(s: string, i: nat, pat: string, k: nat)
    requires IsAt(s, i, pat) && k < |pat|
    ensures s[i + k] == pat[k]
  {
    assert s[i..i + |pat|][k] == s[i + k];
  }

  lemma IsAtSlice(s: string, lo: nat, hi: nat, i: nat, pat: string)
    requires lo <= hi <= |s| && IsAt(s[lo..hi], i, pat)
    ensures IsAt(s, lo + i, pat)
  {
    var t := s[lo..hi];
    assert |t| == hi - lo && lo + i + |pat| <= hi;
    forall k | 0 <= k < |pat| ensures s[lo + i..lo + i + |pat|][k] == pat[k] {
      assert t[i..i + |pat|][k] == t[i + k] == s[lo + i + k];
    }
  }

  predicate Contains(s: string, pat: string) {
    exists i: nat :: i <= |s| && IsAt(s, i, pat)
  }

  function UpperChar(c: char): char {
    if 'a' <= c <= 'z' then (c as int - 32) as char else c
  }

  function LowerChar(c: char): char {
    if 'A' <= c <= 'Z' then (c as int + 32) as char else c
  }

  function Upper(s: string): string {
    seq(|s|, i requires 0 <= i < |s| => UpperChar(s[i]))
  }

  function Lower(s: string): string {
    seq(|s|, i requires 0 <= i < |s| => LowerChar(s[i]))
  }

  /** The same character, or the same letter in the other case. */
  predicate SameLetter(c: char, d: char) {
    || c == d
    || ('A' <= c <= 'Z' && d as int == c as int + 32)
    || ('a' <= c <= 'z' && d as int == c as int - 32)
  }

  /** The same text up to the case of its letters. */
  predicate SameLetters(x: string, y: string) {
    |x| == |y| && forall i :: 0 <= i < |x| ==> SameLetter(x[i], y[i])
  }

  lemma LowerExactly(x: string, y: string)
    ensures Lower(x) == Lower(y) <==> SameLetters(x, y)
  {
    if Lower(x) == Lower(y) {
      assert |x| == |y|;
      forall i | 0 <= i < |x| ensures SameLetter(x[i], y[i]) {
        assert Lower(x)[i] == Lower(y)[i];
      }
    }
  }

  lemma UpperExactly(x: string, y: string)
    ensures Upper(x) == Upper(y) <==> SameLetters(x, y)
  {
    if Upper(x) == Upper(y) {
      assert |x| == |y|;
      forall i | 0 <= i < |x| ensures SameLetter(x[i], y[i]) {
        assert Upper(x)[i] == Upper(y)[i];
      }
    }
  }

  /** Some stretch of the text is the pattern, up to the case of letters. */
  ghost predicate Holds(text: string, pat: string) {
    exists x, y, z :: text == x + y + z && SameLetters(y, pat)
  }

  lemma HoldsExactly(text: string, pat: string)
    ensures Contains(Lower(text), Lower(pat)) <==> Holds(text, pat)
  {
    if Contains(Lower(text), Lower(pat)) {
      var i: nat :| i <= |text| && IsAt(Lower(text), i, Lower(pat));
      var y := text[i..i + |pat|];
      assert Lower(y) == Lower(text)[i..i + |pat|];
      LowerExactly(y, pat);
      assert text == text[..i] + y + text[i + |pat|..];
    }
    if x, y, z :| text == x + y + z && SameLetters(y, pat) {
      LowerExactly(y, pat);
      assert Lower(text)[|x|..|x| + |pat|] == Lower(y);
      assert IsAt(Lower(text), |x|, Lower(pat));
    }
  }

  /** There is something in the text that is not whitespace. */
  predicate Visible(s: string) {
    exists i :: 0 <= i < |s| && !IsSpace(s[i])
  }

  lemma VisibleExactly(s: string)
    ensures Strip(s) != "" <==> Visible(s)
  {
    var i, j := StripSpan(s);
    if Strip(s) != "" {
      assert s[i..j][0] == s[i] && !IsSpace(s[i]);
    }
  }

  function Join(parts: seq<string>, sep: string): string {
    if parts == [] then "" else if |parts| == 1 then parts[0] else parts[0] + sep + Join(parts[1..], sep)
  }

  /** One part alone stands for itself, and each part after the first follows a separator. */
  lemma {:induction false} JoinGrows(parts: seq<string>, last: string, sep: string)
    ensures Join(parts + [last], sep) == if parts == [] then last else Join(parts, sep) + sep + last
  {
    if parts != [] {
      var more := parts + [last];
      assert more[0] == parts[0] && more[1..] == parts[1..] + [last];
      JoinGrows(parts[1..], last, sep);
      if |parts| > 1 {
        assert parts[0] + sep + (Join(parts[1..], sep) + sep + last) == parts[0] + sep + Join(parts[1..], sep) + sep + last;
      }
    }
  }

  // Decimal numerals

  function Digit(n: nat): char
    requires n < 10
  {
    ('0' as int + n) as char
  }

  function ShowNat(n: nat): (s: string)
    ensures s != [] && forall c :: c in s ==> '0' <= c <= '9'
  {
    if n < 10 then [Digit(n)] else ShowNat(n / 10) + [Digit(n % 10)]
  }

  function ShowInt(n: int): string {
    if n < 0 then "-" + ShowNat(-n) else ShowNat(n)
  }

  /** The first n characters, as a slice takes them. */
  function Clip(s: string, n: nat): string {
    if |s| <= n then s else s[..n]
  }

  /** The number that decimal digits stand for. */
  function ReadNat(s: string): (r: Option<int>)
    ensures r.Some? ==> r.value >= 0
  {
    if s == "" || !('0' <= s[|s| - 1] <= '9') then None
    else
      var last := s[|s| - 1] as int - '0' as int;
      if |s| == 1 then Some(last)
      else match ReadNat(s[..|s| - 1]) case None => None case Some(n) => Some(10 * n + last)
  }

  function ReadInt(s: string): Option<int> {
    if s != "" && s[0] == '-' then (match ReadNat(s[1..]) case None => None case Some(n) => Some(-n)) else ReadNat(s)
  }

  lemma {:induction false} NatReads(n: nat)
    ensures ReadNat(ShowNat(n)) == Some(n)
  {
    if n >= 10 {
      NatReads(n / 10);
      assert ShowNat(n)[..|ShowNat(n)| - 1] == ShowNat(n / 10);
    }
  }

  /** A number is shown in the digits that stand for it. */
  lemma IntReads(n: int)
    ensures ReadInt(ShowInt(n)) == Some(n)
  {
    if n < 0 {
      NatReads(-n);
      assert ShowInt(n)[1..] == ShowNat(-n);
    } else {
      NatReads(n);
      assert ShowNat(n)[0] in ShowNat(n);
    }
  }

  lemma ShowNatInjective(a: nat, b: nat)
    requires ShowNat(a) == ShowNat(b)
    ensures a == b
  {
    NatReads(a);
    NatReads(b);
  }

  /** A separator that cannot occur in the left parts makes a split unique. */
  lemma SplitUnique(a: string, b: string, sep: char, x: string, y: string)
    requires sep !in a && sep !in b
    requires a + [sep] + x == b + [sep] + y
    ensures a == b && x == y
  {
    var s := a + [sep] + x;
    assert s[|a|] == sep && s[|b|] == sep;
    assert a == s[..|a|] == b;
    assert x == s[|a| + 1..] == y;
  }

  // Hexadecimal digits

  function HexValue(c: char): (r: Option<int>)
    ensures r.Some? ==> 0 <= r.value < 16
  {
    if '0' <= c <= '9' then Some(c as int - '0' as int)
    else if 'A' <= c <= 'F' then Some(c as int - 'A' as int + 10)
    else if 'a' <= c <= 'f' then Some(c as int - 'a' as int + 10)
    else None
  }
}
