/** Minting scoped tokens: unpadded base64url (RFC 4648, section 5) of compact JSON claims,
    in a dotted form that can be taken apart again. */
module ScopedToken {
  import opened Wrappers
  import opened Text
  import opened UrlPath
  import opened Json

  // Base64url

  function Symbol(n: int): char
    requires 0 <= n < 64
  {
    if n < 26 then ('A' as int + n) as char
    else if n < 52 then ('a' as int + n - 26) as char
    else if n < 62 then ('0' as int + n - 52) as char
    else if n == 62 then '-' else '_'
  }

  function SymbolValue(c: char): (r: Option<int>)
    ensures r.Some? ==> 0 <= r.value < 64
  {
    if 'A' <= c <= 'Z' then Some(c as int - 'A' as int)
    else if 'a' <= c <= 'z' then Some(c as int - 'a' as int + 26)
    else if '0' <= c <= '9' then Some(c as int - '0' as int + 52)
    else if c == '-' then Some(62)
    else if c == '_' then Some(63)
    else None
  }

  /** The standard encoding, padded to a multiple of four characters. */
  function Padded(bs: seq<Byte>): string {
    if bs == [] then ""
    else if |bs| == 1 then [Symbol(bs[0] / 4), Symbol(bs[0] % 4 * 16), '=', '=']
    else if |bs| == 2 then [Symbol(bs[0] / 4), Symbol(bs[0] % 4 * 16 + bs[1] / 16), Symbol(bs[1] % 16 * 4), '=']
    else Group(bs[0], bs[1], bs[2]) + Padded(bs[3..])
  }

  function RStripPad(s: string): string {
    if s != "" && s[|s| - 1] == '=' then RStripPad(s[..|s| - 1]) else s
  }

  function B64(bs: seq<Byte>): string {
    RStripPad(Padded(bs))
  }

  /** The same without ever writing the padding. */
  function Unpadded(bs: seq<Byte>): string {
    if bs == [] then ""
    else if |bs| == 1 then [Symbol(bs[0] / 4), Symbol(bs[0] % 4 * 16)]
    else if |bs| == 2 then [Symbol(bs[0] / 4), Symbol(bs[0] % 4 * 16 + bs[1] / 16), Symbol(bs[1] % 16 * 4)]
    else Group(bs[0], bs[1], bs[2]) + Unpadded(bs[3..])
  }

  /** A standard decoder for the unpadded form. */
  function Unbase(s: string): Option<seq<Byte>>
    decreases |s|
  {
    if s == "" then Some([])
    else if |s| == 1 then None
    else
      var a, b := SymbolValue(s[0]), SymbolValue(s[1]);
      if a.None? || b.None? then None
      else if |s| == 2 then (if b.value % 16 == 0 then Some([a.value * 4 + b.value / 16]) else None)
      else
        var c := SymbolValue(s[2]);
        if c.None? then None
        else if |s| == 3 then
          (if c.value % 4 == 0 then Some([a.value * 4 + b.value / 16, b.value % 16 * 16 + c.value / 4]) else None)
        else
          var d, rest := SymbolValue(s[3]), Unbase(s[4..]);
          if d.None? || rest.None? then None
          else Some([a.value * 4 + b.value / 16, b.value % 16 * 16 + c.value / 4, c.value % 4 * 64 + d.value] + rest.value)
  }

  lemma SymbolsRead(n: int)
    requires 0 <= n < 64
    ensures SymbolValue(Symbol(n)) == Some(n) && Symbol(n) != '=' && Symbol(n) != '.' && (Symbol(n) as int) < 0x80
  {
  }

  lemma TwoPads(bs: seq<Byte>, front: string)
    requires |bs| == 1
    ensures RStripPad(front + Padded(bs)) == front + Unpadded(bs)
  {
    SymbolsRead(bs[0] % 4 * 16);
    var kept := front + Unpadded(bs);
    assert front + Padded(bs) == (kept + ['=']) + ['='];
    OnePad(kept + ['=']);
    OnePad(kept);
  }

  lemma LastPad(bs: seq<Byte>, front: string)
    requires |bs| == 2
    ensures RStripPad(front + Padded(bs)) == front + Unpadded(bs)
  {
    SymbolsRead(bs[1] % 16 * 4);
    var kept := front + Unpadded(bs);
    assert front + Padded(bs) == kept + ['='];
    OnePad(kept);
  }

  lemma {:induction false} PadStripped(bs: seq<Byte>, front: string)
    requires front == "" || front[|front| - 1] != '='
    ensures RStripPad(front + Padded(bs)) == front + Unpadded(bs)
  {
    if bs == [] {
      assert front + "" == front;
    } else if |bs| == 1 {
      TwoPads(bs, front);
    } else if |bs| == 2 {
      LastPad(bs, front);
    } else {
      var group := Group(bs[0], bs[1], bs[2]);
      SymbolsRead(bs[2] % 64);
      PadStripped(bs[3..], front + group);
      Assoc(front, group, Padded(bs[3..]));
      Assoc(front, group, Unpadded(bs[3..]));
    }
  }

  function Group(x: Byte, y: Byte, z: Byte): string {
    [Symbol(x / 4), Symbol(x % 4 * 16 + y / 16), Symbol(y % 16 * 4 + z / 64), Symbol(z % 64)]
  }

  lemma Assoc(a: string, b: string, c: string)
    ensures a + (b + c) == (a + b) + c
  {
  }

  /** Three bytes are four groups of six bits. */
  lemma Sextets(x: Byte, y: Byte, z: Byte)
    ensures var a, b, c, d := x / 4, x % 4 * 16 + y / 16, y % 16 * 4 + z / 64, z % 64;
            && 0 <= b < 64 && 0 <= c < 64
            && a * 4 + b / 16 == x && b % 16 * 16 + c / 4 == y && c % 4 * 64 + d == z
  {
  }

  lemma OnePad(s: string)
    ensures RStripPad(s + ['=']) == RStripPad(s)
  {
    assert (s + ['='])[..|s|] == s;
  }

  /** Stripping the padding from the end gives exactly the unpadded form. */
  lemma B64IsUnpadded(bs: seq<Byte>)
    ensures B64(bs) == Unpadded(bs)
  {
    PadStripped(bs, "");
    assert "" + Padded(bs) == Padded(bs);
    assert "" + Unpadded(bs) == Unpadded(bs);
  }

  lemma {:induction false} UnbaseUnpadded(bs: seq<Byte>)
    ensures Unbase(Unpadded(bs)) == Some(bs)
  {
    if bs != [] {
      if |bs| == 1 {
        OneReads(bs[0]);
        assert bs == [bs[0]];
      } else if |bs| == 2 {
        TwoRead(bs[0], bs[1]);
        assert bs == [bs[0], bs[1]];
      } else {
        UnbaseUnpadded(bs[3..]);
        GroupReads(bs[0], bs[1], bs[2], Unpadded(bs[3..]), bs[3..]);
        assert bs == [bs[0], bs[1], bs[2]] + bs[3..];
      }
    }
  }

  lemma OneReads(x: Byte)
    ensures Unbase(Unpadded([x])) == Some([x])
  {
    SymbolsRead(x / 4);
    SymbolsRead(x % 4 * 16);
    assert x / 4 * 4 + x % 4 * 16 / 16 == x;
  }

  lemma TwoRead(x: Byte, y: Byte)
    ensures Unbase(Unpadded([x, y])) == Some([x, y])
  {
    Sextets(x, y, 0);
    SymbolsRead(x / 4);
    SymbolsRead(x % 4 * 16 + y / 16);
    SymbolsRead(y % 16 * 4);
  }

  lemma GroupReads(x: Byte, y: Byte, z: Byte, rest: string, bs: seq<Byte>)
    requires Unbase(rest) == Some(bs)
    ensures Unbase(Group(x, y, z) + rest) == Some([x, y, z] + bs)
  {
    Sextets(x, y, z);
    SymbolsRead(x / 4);
    SymbolsRead(x % 4 * 16 + y / 16);
    SymbolsRead(y % 16 * 4 + z / 64);
    SymbolsRead(z % 64);
    assert (Group(x, y, z) + rest)[4..] == rest;
  }

  lemma {:induction false} UnpaddedSymbols(bs: seq<Byte>)
    ensures '.' !in Unpadded(bs)
  {
    if bs != [] {
      SymbolsRead(bs[0] / 4);
      if |bs| == 1 {
        SymbolsRead(bs[0] % 4 * 16);
      } else if |bs| == 2 {
        SymbolsRead(bs[0] % 4 * 16 + bs[1] / 16);
        SymbolsRead(bs[1] % 16 * 4);
      } else {
        SymbolsRead(bs[0] % 4 * 16 + bs[1] / 16);
        SymbolsRead(bs[1] % 16 * 4 + bs[2] / 64);
        SymbolsRead(bs[2] % 64);
        UnpaddedSymbols(bs[3..]);
      }
    }
  }

  /** Unpadded base64url reads back exactly, and never contains the token's separator. */
  lemma B64RoundTrip(bs: seq<Byte>)
    ensures Unbase(B64(bs)) == Some(bs) && '.' !in B64(bs)
  {
    B64IsUnpadded(bs);
    UnbaseUnpadded(bs);
    UnpaddedSymbols(bs);
  }

  // Claims

  datatype Claims = Claims(namespace: string, name: string, uid: string, port: int, verb: string, path: string, exp: int)

  const CLAIM_KEYS := ["ns", "name", "uid", "port", "method", "path", "exp"]

  function ClaimValues(c: Claims): seq<Json> {
    [Str(c.namespace), Str(c.name), Str(c.uid), Int(c.port), Str(c.verb), Str(c.path), Int(c.exp)]
  }

  /** Compact JSON in printable ASCII, keys in the order they are built. */
  function ClaimsText(c: Claims): string {
    Print(AsciiOnly, Obj(Record(CLAIM_KEYS, ClaimValues(c))))
  }

  lemma KeysDiffer()
    ensures Distinct(CLAIM_KEYS)
  {
  }

  lemma SevenClaims(values: seq<Json>)
    requires |values| == 7 && forall i :: 0 <= i < 7 ==> Proper(values[i])
    ensures var j := Obj(Record(CLAIM_KEYS, values));
            && At(j, "ns") == Some(values[0]) && At(j, "name") == Some(values[1]) && At(j, "uid") == Some(values[2])
            && At(j, "port") == Some(values[3]) && At(j, "method") == Some(values[4]) && At(j, "path") == Some(values[5])
            && At(j, "exp") == Some(values[6]) && Proper(j)
  {
    KeysDiffer();
    RecordProper(CLAIM_KEYS, values);
    forall i | 0 <= i < 7 ensures Get(Record(CLAIM_KEYS, values), CLAIM_KEYS[i]) == Some(values[i]) {
      RecordGet(CLAIM_KEYS, values, i);
    }
    assert CLAIM_KEYS[0] == "ns" && CLAIM_KEYS[1] == "name" && CLAIM_KEYS[2] == "uid" && CLAIM_KEYS[3] == "port"
           && CLAIM_KEYS[4] == "method" && CLAIM_KEYS[5] == "path" && CLAIM_KEYS[6] == "exp";
  }

  /** Every claim is in the object, under the name it goes by. */
  predicate Says(j: Json, c: Claims) {
    && TextAt(j, "ns") == Some(c.namespace) && TextAt(j, "name") == Some(c.name) && TextAt(j, "uid") == Some(c.uid)
    && IntAt(j, "port") == Some(c.port) && TextAt(j, "method") == Some(c.verb) && TextAt(j, "path") == Some(c.path)
    && IntAt(j, "exp") == Some(c.exp)
  }

  /** What a verifier that parses the text finds. */
  lemma ClaimsRead(c: Claims)
    ensures Parse(ClaimsText(c)).Some? && Says(Parse(ClaimsText(c)).value, c)
  {
    IntProper(c.port);
    IntProper(c.exp);
    SevenClaims(ClaimValues(c));
    ParsePrint(AsciiOnly, Obj(Record(CLAIM_KEYS, ClaimValues(c))));
  }

  /** So different claims are different texts: nothing in a field can pass for another field. */
  lemma ClaimsInjective(c: Claims, d: Claims)
    requires ClaimsText(c) == ClaimsText(d)
    ensures c == d
  {
    ClaimsRead(c);
    ClaimsRead(d);
  }

  lemma Peel(k: string, x: string, y: string)
    requires k + x == k + y
    ensures x == y
  {
    assert x == (k + x)[|k|..] && y == (k + y)[|k|..];
  }

  lemma Utf8Injective(s: string, t: string)
    requires Utf8(s) == Utf8(t)
    ensures s == t
  {
    DecodeUtf8(s);
    DecodeUtf8(t);
  }

  // Tokens

  const SIGNING_CONTEXT := "agent-sandbox/scoped-token/v2."

  predicate KeyChar(c: char) {
    'A' <= c <= 'Z' || 'a' <= c <= 'z' || '0' <= c <= '9' || c == '_' || c == '-'
  }

  predicate KeyName(k: string) {
    1 <= |k| <= 128 && forall i :: 0 <= i < |k| ==> KeyChar(k[i])
  }

  /** The characters the pattern takes at first: as many as it can, up to a limit. */
  function LongestRun(k: string, limit: nat): (n: nat)
    ensures n <= |k| && n <= limit && (forall i :: 0 <= i < n ==> KeyChar(k[i]))
    ensures n < limit && n < |k| ==> !KeyChar(k[n])
  {
    if limit == 0 || k == "" || !KeyChar(k[0]) then 0 else 1 + LongestRun(k[1..], limit - 1)
  }

  /** The end anchor: at the end, or before a newline that is the last character. */
  predicate EndAnchor(k: string, n: nat) {
    n == |k| || (n + 1 == |k| && k[n] == '\n')
  }

  /** The anchor is tried after the longest run, and then after ever shorter ones. */
  predicate Backtracks(k: string, n: nat) {
    n >= 1 && (EndAnchor(k, n) || Backtracks(k, n - 1))
  }

  predicate Accepted(k: string) {
    Backtracks(k, LongestRun(k, 128))
  }

  lemma {:induction false} BacktracksTo(k: string, n: nat)
    ensures Backtracks(k, n) <==> exists i :: 1 <= i <= n && EndAnchor(k, i)
  {
    if n >= 1 {
      BacktracksTo(k, n - 1);
    }
  }

  /** The pattern accepts the key names, and key names with a newline after them. */
  lemma AcceptedExactly(k: string)
    ensures Accepted(k) <==> KeyName(k) || (k != "" && k[|k| - 1] == '\n' && KeyName(k[..|k| - 1]))
  {
    var n := LongestRun(k, 128);
    BacktracksTo(k, n);
    if KeyName(k) {
      assert EndAnchor(k, n);
    } else if k != "" && k[|k| - 1] == '\n' && KeyName(k[..|k| - 1]) {
      assert forall i :: 0 <= i < |k| - 1 ==> KeyChar(k[i]) by {
        assert forall i :: 0 <= i < |k| - 1 ==> k[i] == k[..|k| - 1][i];
      }
      assert EndAnchor(k, n);
    }
  }

  datatype Target = Target(namespace: string, sandboxName: string, sandboxUid: string, port: int, verb: string, path: string)

  function Payload(c: Claims): string {
    B64(Utf8(ClaimsText(c)))
  }

  function SigningInput(kid: string, c: Claims): string {
    SIGNING_CONTEXT + (kid + ("." + Payload(c)))
  }

  function Dotted(kid: string, payload: string, signature: string): string {
    "v2" + ("." + (kid + ("." + (payload + ("." + signature)))))
  }

  type Signer = seq<Byte> -> seq<Byte>

  /** A minter holds a signing key and the name of that key. */
  datatype Minter = Minter(sign: Signer, kid: string) {
    function ClaimsFor(t: Target, ttl: int, now: int): Result<Claims, string> {
      if t.sandboxUid == "" then Err("Sandbox UID is required")
      else if ttl < 1 then Err("ttl must be at least one second")
      else match Normalise(t.path)
           case Err(error) => Err(error)
           case Ok(path) => Ok(Claims(t.namespace, t.sandboxName, t.sandboxUid, t.port, Upper(Strip(t.verb)), path, now + ttl))
    }

    function Mint(t: Target, ttl: int, now: int): Result<string, string> {
      match ClaimsFor(t, ttl, now)
      case Err(error) => Err(error)
      case Ok(c) => Ok(Dotted(kid, Payload(c), B64(sign(Utf8(SigningInput(kid, c))))))
    }
  }

  function NewMinter(sign: Signer, kid: string): Result<Minter, string> {
    if Accepted(kid) then Ok(Minter(sign, kid)) else Err("invalid key ID")
  }

  function Split(s: string): seq<string>
    ensures |Split(s)| >= 1
  {
    if s == "" then [""]
    else if s[0] == '.' then [""] + Split(s[1..])
    else [[s[0]] + Split(s[1..])[0]] + Split(s[1..])[1..]
  }

  lemma {:induction false} SplitFirst(a: string, rest: string)
    requires '.' !in a
    ensures Split(a + ("." + rest)) == [a] + Split(rest)
  {
    if a == "" {
      assert a + ("." + rest) == "." + rest;
      assert ("." + rest)[1..] == rest;
    } else {
      assert (a + ("." + rest))[1..] == a[1..] + ("." + rest);
      SplitFirst(a[1..], rest);
      assert [a[0]] + a[1..] == a;
    }
  }

  lemma {:induction false} SplitLast(a: string)
    requires '.' !in a
    ensures Split(a) == [a]
  {
    if a != "" {
      SplitLast(a[1..]);
      assert [a[0]] + a[1..] == a;
    }
  }

  lemma AcceptedHasNoDot(kid: string)
    requires Accepted(kid)
    ensures '.' !in kid
  {
    AcceptedExactly(kid);
    if !KeyName(kid) {
      var front := kid[..|kid| - 1];
      assert forall i :: 0 <= i < |front| ==> kid[i] == front[i];
    }
  }

  lemma DottedSplits(kid: string, payload: string, signature: string)
    requires '.' !in kid && '.' !in payload && '.' !in signature
    ensures Split(Dotted(kid, payload, signature)) == ["v2", kid, payload, signature]
  {
    SplitLast(signature);
    SplitFirst(payload, signature);
    SplitFirst(kid, payload + ("." + signature));
    SplitFirst("v2", kid + ("." + (payload + ("." + signature))));
  }

  /** A minted token has exactly four fields, which give back the key's name, the claims'
      payload, and the signature over both. */
  lemma TokenHasFourFields(m: Minter, t: Target, ttl: int, now: int)
    requires Accepted(m.kid) && m.Mint(t, ttl, now).Ok?
    ensures var c := m.ClaimsFor(t, ttl, now).value;
            var fields := Split(m.Mint(t, ttl, now).value);
            && |fields| == 4 && fields[0] == "v2" && fields[1] == m.kid
            && Unbase(fields[2]) == Some(Utf8(ClaimsText(c)))
            && Unbase(fields[3]) == Some(m.sign(Utf8(SigningInput(m.kid, c))))
  {
    var c := m.ClaimsFor(t, ttl, now).value;
    var signed := m.sign(Utf8(SigningInput(m.kid, c)));
    Minted(m, t, ttl, now, signed);
    AcceptedHasNoDot(m.kid);
    FieldsComeBack(m.kid, Utf8(ClaimsText(c)), signed);
  }

  lemma PayloadReads(c: Claims)
    ensures var j := Parse(Decode(Utf8(ClaimsText(c)))); j.Some? && Says(j.value, c)
  {
    DecodeUtf8(ClaimsText(c));
    ClaimsRead(c);
  }

  /** Whoever takes a token apart, decodes its third field and parses it finds the target it was
      minted for, the verb in capitals, the path in its normal form, and when it expires. */
  lemma TokenReads(m: Minter, t: Target, ttl: int, now: int)
    requires Accepted(m.kid) && m.Mint(t, ttl, now).Ok?
    ensures var fields := Split(m.Mint(t, ttl, now).value);
            && |fields| == 4 && Unbase(fields[2]).Some? && Normalise(t.path).Ok?
            && var j := Parse(Decode(Unbase(fields[2]).value));
            && j.Some?
            && Says(j.value, Claims(t.namespace, t.sandboxName, t.sandboxUid, t.port, Upper(Strip(t.verb)),
                                    Normalise(t.path).value, now + ttl))
  {
    TokenHasFourFields(m, t, ttl, now);
    PayloadReads(m.ClaimsFor(t, ttl, now).value);
  }

  lemma FieldsComeBack(kid: string, payload: seq<Byte>, signed: seq<Byte>)
    requires '.' !in kid
    ensures var fields := Split(Dotted(kid, B64(payload), B64(signed)));
            && |fields| == 4 && fields[0] == "v2" && fields[1] == kid
            && Unbase(fields[2]) == Some(payload) && Unbase(fields[3]) == Some(signed)
  {
    B64RoundTrip(payload);
    B64RoundTrip(signed);
    DottedSplits(kid, B64(payload), B64(signed));
  }

  lemma Minted(m: Minter, t: Target, ttl: int, now: int, signed: seq<Byte>)
    requires m.Mint(t, ttl, now).Ok?
    requires signed == m.sign(Utf8(SigningInput(m.kid, m.ClaimsFor(t, ttl, now).value)))
    ensures m.Mint(t, ttl, now).value == Dotted(m.kid, Payload(m.ClaimsFor(t, ttl, now).value), B64(signed))
  {
  }

  /** What is signed determines the key and every claim. */
  lemma SigningInputInjective(kid: string, c: Claims, kid': string, c': Claims)
    requires Accepted(kid) && Accepted(kid') && SigningInput(kid, c) == SigningInput(kid', c')
    ensures kid == kid' && c == c'
  {
    Peel(SIGNING_CONTEXT, kid + ("." + Payload(c)), kid' + ("." + Payload(c')));
    AcceptedHasNoDot(kid);
    AcceptedHasNoDot(kid');
    Assoc(kid, ".", Payload(c));
    Assoc(kid', ".", Payload(c'));
    SplitUnique(kid, kid', '.', Payload(c), Payload(c'));
    B64RoundTrip(Utf8(ClaimsText(c)));
    B64RoundTrip(Utf8(ClaimsText(c')));
    Utf8Injective(ClaimsText(c), ClaimsText(c'));
    ClaimsInjective(c, c');
  }

  /** A token is refused exactly for a missing sandbox UID, a lifetime under a second, or a
      relative path; and what is minted authorises exactly the target it was minted for. */
  lemma MintFor(m: Minter, t: Target, ttl: int, now: int)
    ensures m.Mint(t, ttl, now).Err? <==> t.sandboxUid == "" || ttl < 1 || (t.path != "" && t.path[0] != '/')
    ensures m.Mint(t, ttl, now).Ok? ==>
              var c := m.ClaimsFor(t, ttl, now).value;
              && c.uid == t.sandboxUid && c.uid != "" && c.exp == now + ttl > now
              && c.namespace == t.namespace && c.name == t.sandboxName && c.port == t.port
              && c.verb == Upper(Strip(t.verb)) && Normalise(t.path) == Ok(c.path) && Normalise(c.path) == Ok(c.path)
  {
    NormaliseFails(t.path);
    if Normalise(t.path).Ok? {
      NormaliseIsIdempotent(t.path);
    }
  }

  /** Two targets get the same claims, at the same time and for as long, exactly when they
      agree in every field, the verb up to case and the path up to its normal form. */
  lemma SameClaims(m: Minter, t: Target, u: Target, ttl: int, now: int)
    requires m.Mint(t, ttl, now).Ok? && m.Mint(u, ttl, now).Ok?
    ensures m.ClaimsFor(t, ttl, now) == m.ClaimsFor(u, ttl, now) <==>
              && t.namespace == u.namespace && t.sandboxName == u.sandboxName && t.sandboxUid == u.sandboxUid
              && t.port == u.port && Upper(Strip(t.verb)) == Upper(Strip(u.verb))
              && Meaning(t.path) == Meaning(u.path)
  {
    SameFormSameText(t.path, u.path);
  }

  /** The key name pattern lets a trailing newline through, and nothing else it should not. */
  lemma NewlineSlipsThrough(sign: Signer, kid: string)
    ensures NewMinter(sign, kid).Ok? && !KeyName(kid) <==> exists k :: KeyName(k) && kid == k + "\n"
  {
    AcceptedExactly(kid);
    if Accepted(kid) && !KeyName(kid) {
      assert kid == kid[..|kid| - 1] + "\n";
    }
    if k :| KeyName(k) && kid == k + "\n" {
      assert kid[..|kid| - 1] == k;
      assert !KeyChar(kid[|k|]);
    }
  }
}