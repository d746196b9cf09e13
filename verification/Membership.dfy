/**
Signed worker membership (src/openrtc/core/membership.py): the message under the signature, and the
verifier's decision. The message is the JSON encoding of a list of three strings; the decoder below
follows section 7 of RFC 8259 and undoes it.

Characters are Unicode scalar values, and the MAC is any function of a secret and a message.
*/
module Membership {
  import opened Wrappers

  // ---------------------------------------------------------------------------------------------
  // Encoding
  // ---------------------------------------------------------------------------------------------

  type byte = n: int | 0 <= n < 256

  const HEX := "0123456789abcdef"

  function Hex4(n: int): (digits: string)
    requires 0 <= n < 0x1_0000
    ensures |digits| == 4
  {
    [HEX[n / 4096], HEX[n / 256 % 16], HEX[n / 16 % 16], HEX[n % 16]]
  }

  /** One character as it stands inside an ASCII-only JSON string. */
  function EscapeChar(c: char): string {
    if c == '\"' then "\\\""
    else if c == '\\' then "\\\\"
    else if c == '\n' then "\\n"
    else if c == '\r' then "\\r"
    else if c == '\t' then "\\t"
    else if c == '\U{c}' then "\\f"
    else if c == '\U{8}' then "\\b"
    else if ' ' <= c <= '~' then [c]
    else if c as int < 0x1_0000 then "\\u" + Hex4(c as int)
    else
      var n := c as int - 0x1_0000;
      "\\u" + Hex4(0xd800 + n / 1024) + "\\u" + Hex4(0xdc00 + n % 1024)
  }

  function Escape(s: string): string
    decreases |s|
  {
    if s == "" then "" else EscapeChar(s[0]) + Escape(s[1..])
  }

  function Quote(s: string): string {
    "\"" + Escape(s) + "\""
  }

  function Message(version: string, workerId: string, stamp: string): string {
    "[" + Quote(version) + "," + Quote(workerId) + "," + Quote(stamp) + "]"
  }

  predicate Ascii(s: string) {
    forall i :: 0 <= i < |s| ==> ' ' <= s[i] <= '~'
  }

  /** UTF-8 of ASCII text: one byte a character. */
  function Utf8(s: string): seq<byte>
    requires Ascii(s)
  {
    seq(|s|, i requires 0 <= i < |s| => s[i] as int)
  }

  function Canonical(version: string, workerId: string, stamp: string): seq<byte> {
    MessageIsAscii(version, workerId, stamp);
    Utf8(Message(version, workerId, stamp))
  }

  lemma AsciiConcat(s: string, t: string)
    requires Ascii(s) && Ascii(t)
    ensures Ascii(s + t)
  {
  }

  lemma Hex4IsAscii(n: int)
    requires 0 <= n < 0x1_0000
    ensures Ascii("\\u" + Hex4(n))
  {
  }

  lemma EscapeCharIsAscii(c: char)
    ensures Ascii(EscapeChar(c))
  {
    hide Hex4;
    if ' ' <= c <= '~' || c in "\n\r\t\U{c}\U{8}" {
    } else if c as int < 0x1_0000 {
      Hex4IsAscii(c as int);
    } else {
      var n := c as int - 0x1_0000;
      Hex4IsAscii(0xd800 + n / 1024);
      Hex4IsAscii(0xdc00 + n % 1024);
      AsciiConcat("\\u" + Hex4(0xd800 + n / 1024), "\\u" + Hex4(0xdc00 + n % 1024));
      assert EscapeChar(c) == ("\\u" + Hex4(0xd800 + n / 1024)) + ("\\u" + Hex4(0xdc00 + n % 1024));
    }
  }

  lemma {:induction false} EscapeIsAscii(s: string)
    ensures Ascii(Escape(s))
    decreases |s|
  {
    if s != "" {
      EscapeCharIsAscii(s[0]);
      EscapeIsAscii(s[1..]);
      AsciiConcat(EscapeChar(s[0]), Escape(s[1..]));
    }
  }

  lemma PunctuationIsAscii()
    ensures Ascii("[") && Ascii(",") && Ascii("]")
  {
  }

  lemma QuoteIsAscii(s: string)
    ensures Ascii(Quote(s))
  {
    EscapeIsAscii(s);
  }

  /** Whatever the fields hold, the message is printable ASCII. */
  lemma MessageIsAscii(version: string, workerId: string, stamp: string)
    ensures Ascii(Message(version, workerId, stamp))
  {
    hide Quote, Ascii;
    assert Ascii("[") && Ascii(",") && Ascii("]") by { PunctuationIsAscii(); }
    QuoteIsAscii(version);
    QuoteIsAscii(workerId);
    QuoteIsAscii(stamp);
    AsciiConcat("[", Quote(version));
    AsciiConcat("[" + Quote(version), ",");
    AsciiConcat("[" + Quote(version) + ",", Quote(workerId));
    AsciiConcat("[" + Quote(version) + "," + Quote(workerId), ",");
    AsciiConcat("[" + Quote(version) + "," + Quote(workerId) + ",", Quote(stamp));
    AsciiConcat("[" + Quote(version) + "," + Quote(workerId) + "," + Quote(stamp), "]");
  }

  // ---------------------------------------------------------------------------------------------
  // Decoding
  // ---------------------------------------------------------------------------------------------

  function HexDigit(c: char): Option<int> {
    if '0' <= c <= '9' then Some(c as int - '0' as int)
    else if 'a' <= c <= 'f' then Some(c as int - 'a' as int + 10)
    else if 'A' <= c <= 'F' then Some(c as int - 'A' as int + 10)
    else None
  }

  /** The code unit of a `\u` escape whose four digits start the text. */
  function CodeUnit(s: string): Option<int> {
    if |s| < 4 then None
    else
      var a, b, c, d := HexDigit(s[0]), HexDigit(s[1]), HexDigit(s[2]), HexDigit(s[3]);
      if a.None? || b.None? || c.None? || d.None? then None
      else Some(a.value * 4096 + b.value * 256 + c.value * 16 + d.value)
  }

  datatype Step = Step(c: char, rest: string)

  function ShortEscape(c: char): Option<char> {
    match c
    case '\"' => Some('\"')
    case '\\' => Some('\\')
    case '/' => Some('/')
    case 'b' => Some('\U{8}')
    case 'f' => Some('\U{c}')
    case 'n' => Some('\n')
    case 'r' => Some('\r')
    case 't' => Some('\t')
    case _ => None
  }

  /** A `\u` escape, or a pair of them for a character outside the Basic Multilingual Plane. */
  function UnicodeEscape(s: string): Option<Step> {
    var unit := CodeUnit(s);
    if unit.None? then None
    else if !(0xd800 <= unit.value < 0xe000) then
      if 0 <= unit.value < 0x1_0000 then Some(Step(unit.value as char, s[4..])) else None
    else if unit.value < 0xdc00 && |s| >= 6 && s[4..6] == "\\u" then
      var low := CodeUnit(s[6..]);
      if low.Some? && 0xdc00 <= low.value < 0xe000 then
        Some(Step((0x1_0000 + (unit.value - 0xd800) * 1024 + (low.value - 0xdc00)) as char, s[10..]))
      else None
    else None
  }

  /** The next character of a string's body. */
  function NextChar(s: string): (r: Option<Step>)
    requires s != ""
    ensures r.Some? ==> |r.value.rest| < |s|
  {
    if s[0] < ' ' || s[0] == '\"' then None
    else if s[0] != '\\' then Some(Step(s[0], s[1..]))
    else if |s| < 2 then None
    else if s[1] == 'u' then UnicodeEscape(s[2..])
    else
      var c := ShortEscape(s[1]);
      if c.Some? then Some(Step(c.value, s[2..])) else None
  }

  /** The rest of a string after its opening quote: its characters and what follows the closing one. */
  function StringBody(s: string): Option<(string, string)>
    decreases |s|
  {
    if s == "" then None
    else if s[0] == '\"' then Some(("", s[1..]))
    else
      var next := NextChar(s);
      if next.None? then None
      else
        var tail := StringBody(next.value.rest);
        if tail.None? then None else Some(([next.value.c] + tail.value.0, tail.value.1))
  }

  /** A quoted string preceded by a given character. */
  function Item(before: char, s: string): Option<(string, string)> {
    if |s| >= 2 && s[0] == before && s[1] == '\"' then StringBody(s[2..]) else None
  }

  /** A list of exactly three strings, without spaces. */
  function DecodeMessage(s: string): Option<(string, string, string)> {
    var first := Item('[', s);
    if first.None? then None
    else
      var second := Item(',', first.value.1);
      if second.None? then None
      else
        var third := Item(',', second.value.1);
        if third.None? || third.value.1 != "]" then None
        else Some((first.value.0, second.value.0, third.value.0))
  }

  function FromUtf8(bytes: seq<byte>): string
    requires forall i :: 0 <= i < |bytes| ==> bytes[i] < 0x80
  {
    seq(|bytes|, i requires 0 <= i < |bytes| => bytes[i] as char)
  }

  // ---------------------------------------------------------------------------------------------
  // Round trip and injectivity
  // ---------------------------------------------------------------------------------------------

  lemma HexDigitRoundTrip(d: int)
    requires 0 <= d < 16
    ensures HexDigit(HEX[d]) == Some(d)
  {
  }

  lemma DigitsAddUp(n: int)
    requires 0 <= n < 0x1_0000
    ensures n / 4096 * 4096 + n / 256 % 16 * 256 + n / 16 % 16 * 16 + n % 16 == n
  {
    assert n / 256 == n / 4096 * 16 + n / 256 % 16;
    assert n / 16 == n / 256 * 16 + n / 16 % 16;
  }

  lemma CodeUnitRoundTrip(n: int, rest: string)
    requires 0 <= n < 0x1_0000
    ensures CodeUnit(Hex4(n) + rest) == Some(n)
  {
    hide HexDigit;
    HexDigitRoundTrip(n / 4096);
    HexDigitRoundTrip(n / 256 % 16);
    HexDigitRoundTrip(n / 16 % 16);
    HexDigitRoundTrip(n % 16);
    DigitsAddUp(n);
    var s := Hex4(n) + rest;
    assert s[0] == HEX[n / 4096] && s[1] == HEX[n / 256 % 16] && s[2] == HEX[n / 16 % 16] && s[3] == HEX[n % 16];
  }

  lemma BasicEscapeRoundTrip(c: char, rest: string)
    requires c as int < 0x1_0000
    ensures UnicodeEscape(Hex4(c as int) + rest) == Some(Step(c, rest))
  {
    CodeUnitRoundTrip(c as int, rest);
    assert (Hex4(c as int) + rest)[4..] == rest;
  }

  lemma PairEscapeRoundTrip(c: char, rest: string)
    requires c as int >= 0x1_0000
    ensures var n := c as int - 0x1_0000;
            UnicodeEscape(Hex4(0xd800 + n / 1024) + "\\u" + Hex4(0xdc00 + n % 1024) + rest) == Some(Step(c, rest))
  {
    var n := c as int - 0x1_0000;
    hide Hex4, CodeUnit;
    var high, low := Hex4(0xd800 + n / 1024), Hex4(0xdc00 + n % 1024);
    var s := high + "\\u" + low + rest;
    assert s == high + ("\\u" + low + rest);
    CodeUnitRoundTrip(0xd800 + n / 1024, "\\u" + low + rest);
    assert s[4..6] == "\\u";
    assert s[6..] == low + rest;
    CodeUnitRoundTrip(0xdc00 + n % 1024, rest);
    assert s[10..] == rest;
  }

  /** Reading one escaped character gives it back and leaves the rest. */
  lemma EscapeCharRoundTrip(c: char, rest: string)
    ensures EscapeChar(c) != "" && EscapeChar(c)[0] != '\"'
    ensures NextChar(EscapeChar(c) + rest) == Some(Step(c, rest))
  {
    hide Hex4, UnicodeEscape;
    var s := EscapeChar(c) + rest;
    if c in "\"\\\n\r\t\U{c}\U{8}" {
      assert s[2..] == rest;
    } else if ' ' <= c <= '~' {
      assert s[1..] == rest;
    } else if c as int < 0x1_0000 {
      assert s[2..] == Hex4(c as int) + rest;
      BasicEscapeRoundTrip(c, rest);
    } else {
      var n := c as int - 0x1_0000;
      assert s[2..] == Hex4(0xd800 + n / 1024) + "\\u" + Hex4(0xdc00 + n % 1024) + rest;
      PairEscapeRoundTrip(c, rest);
    }
  }

  /** No upper-case digit in an escape. */
  predicate LowerCase(text: string) {
    |text| > 1 ==> forall i :: 0 <= i < |text| ==> !('A' <= text[i] <= 'F')
  }

  /** An ASCII text that reads as this one character. */
  predicate Spells(text: string, c: char) {
    Ascii(text) && text != "" && NextChar(text) == Some(Step(c, ""))
  }

  predicate StartsUnicodeEscape(text: string) {
    |text| >= 2 && text[0] == '\\' && text[1] == 'u'
  }

  lemma {:induction false} HexDigitOnlyOnce(c: char, n: int)
    requires HexDigit(c) == Some(n) && !('A' <= c <= 'F')
    ensures 0 <= n < 16 && c == HEX[n]
  {
  }

  /** Four lower-case digits are those of their value. */
  lemma {:induction false} DigitsOnlyOnce(s: string, n: int)
    requires |s| >= 4 && CodeUnit(s) == Some(n) && forall i :: 0 <= i < 4 ==> !('A' <= s[i] <= 'F')
    ensures 0 <= n < 0x1_0000 && s[..4] == Hex4(n)
  {
    hide HexDigit, Hex4;
    var a, b, c, d := HexDigit(s[0]).value, HexDigit(s[1]).value, HexDigit(s[2]).value, HexDigit(s[3]).value;
    HexDigitOnlyOnce(s[0], a);
    HexDigitOnlyOnce(s[1], b);
    HexDigitOnlyOnce(s[2], c);
    HexDigitOnlyOnce(s[3], d);
    Hex4OfDigits(a, b, c, d);
    assert s[..4] == [s[0], s[1], s[2], s[3]];
  }

  lemma {:induction false} Hex4OfDigits(a: int, b: int, c: int, d: int)
    requires 0 <= a < 16 && 0 <= b < 16 && 0 <= c < 16 && 0 <= d < 16
    ensures var n := a * 4096 + b * 256 + c * 16 + d;
            0 <= n < 0x1_0000 && Hex4(n) == [HEX[a], HEX[b], HEX[c], HEX[d]]
  {
    DigitsComeApart(a, b, c, d);
  }

  lemma {:induction false} DigitsComeApart(a: int, b: int, c: int, d: int)
    requires 0 <= a < 16 && 0 <= b < 16 && 0 <= c < 16 && 0 <= d < 16
    ensures var n := a * 4096 + b * 256 + c * 16 + d;
            && 0 <= n < 0x1_0000 && n / 4096 == a && n / 256 % 16 == b && n / 16 % 16 == c && n % 16 == d
  {
    var n := a * 4096 + b * 256 + c * 16 + d;
    assert n / 256 == a * 16 + b;
    assert n / 16 == (a * 16 + b) * 16 + c;
  }

  lemma {:induction false} HexIsLowerCase(n: int)
    requires 0 <= n < 0x1_0000
    ensures forall i :: 0 <= i < 4 ==> !('A' <= Hex4(n)[i] <= 'F')
  {
    assert forall d :: 0 <= d < 16 ==> !('A' <= HEX[d] <= 'F');
  }

  lemma {:induction false} LowerCaseEscape(c: char)
    ensures LowerCase(EscapeChar(c))
  {
    hide Hex4;
    if c as int < 0x1_0000 {
      HexIsLowerCase(c as int);
    } else {
      var n := c as int - 0x1_0000;
      HexIsLowerCase(0xd800 + n / 1024);
      HexIsLowerCase(0xdc00 + n % 1024);
    }
  }

  /** A text that spells a character with an escape of four digits, or two of them. */
  lemma {:induction false} UnicodeOnlyOnce(text: string, c: char)
    requires Spells(text, c) && LowerCase(text) && StartsUnicodeEscape(text)
    ensures if c as int < 0x1_0000 then text == "\\u" + Hex4(c as int)
            else var n := c as int - 0x1_0000; text == "\\u" + Hex4(0xd800 + n / 1024) + "\\u" + Hex4(0xdc00 + n % 1024)
  {
    hide Hex4, HexDigit;
    var s := text[2..];
    var unit := CodeUnit(s);
    assert text == "\\u" + s;
    DigitsOnlyOnce(s, unit.value);
    if !(0xd800 <= unit.value < 0xe000) {
      assert s == s[..4] + s[4..];
    } else {
      var low := CodeUnit(s[6..]);
      DigitsOnlyOnce(s[6..], low.value);
      assert s == s[..4] + s[4..6] + s[6..][..4] + s[10..];
      assert c as int == 0x1_0000 + (unit.value - 0xd800) * 1024 + (low.value - 0xdc00);
    }
  }

  /**
  How a character is escaped: with the shortest ASCII text that spells it, and its digits in lower case. There is no
  other such text.
  */
  lemma {:induction false} EscapeExactly(text: string, c: char)
    requires Spells(text, c)
    ensures Spells(EscapeChar(c), c) && LowerCase(EscapeChar(c)) && |EscapeChar(c)| <= |text|
    ensures |text| == |EscapeChar(c)| && LowerCase(text) ==> text == EscapeChar(c)
  {
    hide Hex4, UnicodeEscape;
    EscapeCharRoundTrip(c, "");
    EscapeCharIsAscii(c);
    LowerCaseEscape(c);
    assert EscapeChar(c) + "" == EscapeChar(c);
    if text[0] != '\\' {
      assert text == [c] + text[1..];
    } else if text[1] == 'u' {
      UnicodeLength(text, c);
      if LowerCase(text) {
        UnicodeOnlyOnce(text, c);
      }
    } else {
      assert text == text[..2] + text[2..];
    }
  }

  lemma {:induction false} UnicodeLength(text: string, c: char)
    requires Spells(text, c) && StartsUnicodeEscape(text)
    ensures |text| == if c as int < 0x1_0000 then 6 else 12
  {
  }

  lemma {:induction false} StringBodyRoundTrip(s: string, rest: string)
    ensures StringBody(Escape(s) + "\"" + rest) == Some((s, rest))
    decreases |s|
  {
    hide EscapeChar, NextChar;
    if s == "" {
      assert Escape(s) + "\"" + rest == "\"" + rest;
      assert ("\"" + rest)[1..] == rest;
    } else {
      var tail := Escape(s[1..]) + "\"" + rest;
      assert Escape(s) + "\"" + rest == EscapeChar(s[0]) + tail;
      EscapeCharRoundTrip(s[0], tail);
      StringBodyRoundTrip(s[1..], rest);
      assert s == [s[0]] + s[1..];
    }
  }

  lemma ItemRoundTrip(before: char, s: string, rest: string)
    ensures Item(before, [before] + Quote(s) + rest) == Some((s, rest))
  {
    StringBodyRoundTrip(s, rest);
    var text := [before] + Quote(s) + rest;
    assert text[0] == before && text[1] == '\"' && text[2..] == Escape(s) + "\"" + rest;
  }

  lemma MessageRoundTrip(version: string, workerId: string, stamp: string)
    ensures DecodeMessage(Message(version, workerId, stamp)) == Some((version, workerId, stamp))
  {
    hide Quote, Item;
    var third := [','] + Quote(stamp) + "]";
    var second := [','] + Quote(workerId) + third;
    ItemRoundTrip(',', stamp, "]");
    ItemRoundTrip(',', workerId, third);
    ItemRoundTrip('[', version, second);
    assert Message(version, workerId, stamp) == ['['] + Quote(version) + second;
  }

  /** The signed bytes decode to exactly the three fields that were signed. */
  lemma CanonicalRoundTrip(version: string, workerId: string, stamp: string)
    ensures var bytes := Canonical(version, workerId, stamp);
            && (forall i :: 0 <= i < |bytes| ==> bytes[i] < 0x80)
            && DecodeMessage(FromUtf8(bytes)) == Some((version, workerId, stamp))
  {
    hide Message, DecodeMessage;
    MessageIsAscii(version, workerId, stamp);
    MessageRoundTrip(version, workerId, stamp);
    assert FromUtf8(Canonical(version, workerId, stamp)) == Message(version, workerId, stamp);
  }

  /** Two memberships that share their signed bytes are the same membership. */
  lemma CanonicalInjective(v1: string, w1: string, t1: string, v2: string, w2: string, t2: string)
    requires Canonical(v1, w1, t1) == Canonical(v2, w2, t2)
    ensures v1 == v2 && w1 == w2 && t1 == t2
  {
    CanonicalRoundTrip(v1, w1, t1);
    CanonicalRoundTrip(v2, w2, t2);
  }

  // ---------------------------------------------------------------------------------------------
  // The verifier
  // ---------------------------------------------------------------------------------------------

  type Mac = (string, seq<byte>) -> string

  /** The text of a timestamp. */
  type Repr = real -> string

  datatype Verifier = Verifier(secrets: seq<string>, expectedVersion: Option<string>, maxAge: real)

  datatype Verdict = Valid | WrongVersion | Stale | InFuture | BadSignature

  function Sign(mac: Mac, repr: Repr, version: string, workerId: string, timestamp: real, secret: string): string {
    mac(secret, Canonical(version, workerId, repr(timestamp)))
  }

  function Verify(v: Verifier, mac: Mac, repr: Repr, clock: real,
                  token: string, version: string, workerId: string, timestamp: real): Verdict {
    if v.expectedVersion.Some? && version != v.expectedVersion.value then WrongVersion
    else if clock - timestamp > v.maxAge then Stale
    else if clock - timestamp < -v.maxAge then InFuture
    else if exists i :: 0 <= i < |v.secrets| && token == Sign(mac, repr, version, workerId, timestamp, v.secrets[i]) then Valid
    else BadSignature
  }

  /** During a rotation a fresh signature under any current secret is accepted. */
  lemma AnyCurrentSecretVerifies(v: Verifier, mac: Mac, repr: Repr, clock: real, i: nat,
                                 version: string, workerId: string, timestamp: real)
    requires i < |v.secrets|
    ensures var token := Sign(mac, repr, version, workerId, timestamp, v.secrets[i]);
            Verify(v, mac, repr, clock, token, version, workerId, timestamp) == Valid
            <==> (v.expectedVersion.None? || v.expectedVersion.value == version)
                 && -v.maxAge <= clock - timestamp <= v.maxAge
  {
  }

  /**
  Which tokens are accepted, whoever made them: the MACs of the message of these fields under some current secret,
  while the version is the expected one and the time is near enough. Otherwise the first check that fails is named.
  */
  lemma {:induction false} AcceptedExactly(v: Verifier, mac: Mac, repr: Repr, clock: real,
                                           token: string, version: string, workerId: string, timestamp: real)
    ensures var verdict := Verify(v, mac, repr, clock, token, version, workerId, timestamp);
            var current := v.expectedVersion.Some? ==> v.expectedVersion.value == version;
            var signed := exists secret :: secret in v.secrets && token == mac(secret, Canonical(version, workerId, repr(timestamp)));
            && (verdict == WrongVersion <==> !current)
            && (verdict == Stale <==> current && timestamp < clock - v.maxAge)
            && (verdict == Valid <==> current && -v.maxAge <= clock - timestamp <= v.maxAge && signed)
            && (verdict == BadSignature <==> current && -v.maxAge <= clock - timestamp <= v.maxAge && !signed)
  {
    hide Canonical;
    forall i | 0 <= i < |v.secrets| ensures v.secrets[i] in v.secrets {
    }
  }

  /** A MAC without collisions, as far as the given secrets go. */
  ghost predicate CollisionFree(mac: Mac, secrets: seq<string>, signer: string) {
    forall i, m1, m2 :: 0 <= i < |secrets| && mac(secrets[i], m1) == mac(signer, m2) ==> m1 == m2
  }

  /** A signature cannot be moved to another version, worker or time. */
  lemma SignatureIsBound(v: Verifier, mac: Mac, repr: Repr, clock: real, signer: string,
                         v1: string, w1: string, t1: real, v2: string, w2: string, t2: real)
    requires CollisionFree(mac, v.secrets, signer)
    requires Verify(v, mac, repr, clock, Sign(mac, repr, v1, w1, t1, signer), v2, w2, t2) == Valid
    ensures v1 == v2 && w1 == w2 && repr(t1) == repr(t2)
  {
    var token := Sign(mac, repr, v1, w1, t1, signer);
    var i :| 0 <= i < |v.secrets| && token == Sign(mac, repr, v2, w2, t2, v.secrets[i]);
    assert mac(v.secrets[i], Canonical(v2, w2, repr(t2))) == mac(signer, Canonical(v1, w1, repr(t1)));
    CanonicalInjective(v1, w1, repr(t1), v2, w2, repr(t2));
  }
}
