/** The JSON text that the AdGuard backend stores as an id: strings as in section 7 of RFC 8259. */
module Json {
  import opened Names

  function HexDigit(n: nat): char
    requires n < 16
  {
    "0123456789abcdef"[n]
  }

  function HexValue(c: char): Option<nat> {
    if '0' <= c <= '9' then Some(c as int - '0' as int)
    else if 'a' <= c <= 'f' then Some(c as int - 'a' as int + 10)
    else if 'A' <= c <= 'F' then Some(c as int - 'A' as int + 10)
    else None
  }

  predicate NeedsUnicode(c: char) {
    c < ' ' || c in "<>&" || c as int == 0x2028 || c as int == 0x2029
  }

  function Unicode(v: nat): string
    requires v < 0x10000
  {
    ['\\', 'u', HexDigit(v / 4096), HexDigit(v / 256 % 16), HexDigit(v / 16 % 16), HexDigit(v % 16)]
  }

  /** How one character is written inside quotes. */
  function Escape(c: char): string {
    if c == '"' then ['\\', '"']
    else if c == '\\' then ['\\', '\\']
    else if c == '\n' then ['\\', 'n']
    else if c == '\r' then ['\\', 'r']
    else if c == '\t' then ['\\', 't']
    else if c as int == 8 then ['\\', 'b']
    else if c as int == 12 then ['\\', 'f']
    else if NeedsUnicode(c) then Unicode(c as int)
    else [c]
  }

  function EscapeAll(s: string): string {
    if s == "" then "" else Escape(s[0]) + EscapeAll(s[1..])
  }

  /** The character written at the start of `s`, with the length it takes. */
  function ReadChar(s: string): Option<(char, nat)>
    requires s != ""
    ensures ReadChar(s).Some? ==> 0 < ReadChar(s).value.1 <= |s|
  {
    if s[0] < ' ' then None
    else if s[0] != '\\' then Some((s[0], 1))
    else if |s| < 2 then None
    else if s[1] in "\"\\/" then Some((s[1], 2))
    else if s[1] == 'n' then Some(('\n', 2))
    else if s[1] == 'r' then Some(('\r', 2))
    else if s[1] == 't' then Some(('\t', 2))
    else if s[1] == 'b' then Some((8 as char, 2))
    else if s[1] == 'f' then Some((12 as char, 2))
    else if s[1] != 'u' || |s| < 6 then None
    else
      var a, b, c, d := HexValue(s[2]), HexValue(s[3]), HexValue(s[4]), HexValue(s[5]);
      if a == None || b == None || c == None || d == None then None
      else
        var v := a.value * 4096 + b.value * 256 + c.value * 16 + d.value;
        if v < 0xD800 || 0xE000 <= v < 0x10000 then Some((v as char, 6)) else None
  }

  /** The string up to the closing quote, and the text after it. */
  function Unquote(s: string): Option<(string, string)> {
    if s == "" then None
    else if s[0] == '"' then Some(("", s[1..]))
    else
      match ReadChar(s)
      case None => None
      case Some((c, n)) =>
        match Unquote(s[n..])
        case None => None
        case Some((t, rest)) => Some(([c] + t, rest))
  }

  datatype Rewrite = Rewrite(domain: string, answer: string)

  const HEAD := "{\"domain\":\""
  const MIDDLE := ",\"answer\":\""
  const TAIL := "}"

  function Encode(r: Rewrite): string {
    HEAD + (EscapeAll(r.domain) + ("\"" + (MIDDLE + (EscapeAll(r.answer) + ("\"" + TAIL)))))
  }

  function Decode(s: string): Option<Rewrite> {
    if !(HEAD <= s) then None
    else
      match Unquote(s[|HEAD|..])
      case None => None
      case Some((domain, s')) =>
        if !(MIDDLE <= s') then None
        else
          match Unquote(s'[|MIDDLE|..])
          case None => None
          case Some((answer, s'')) => if s'' == TAIL then Some(Rewrite(domain, answer)) else None
  }

  lemma HexRoundTrip(n: nat)
    requires n < 16
    ensures HexValue(HexDigit(n)) == Some(n)
  {
  }

  lemma Digits(v: nat)
    requires v < 0x10000
    ensures v == v / 4096 * 4096 + v / 256 % 16 * 256 + v / 16 % 16 * 16 + v % 16
  {
    assert v / 16 / 16 == v / 256;
    assert v / 256 / 16 == v / 4096;
  }

  lemma ReadDigits(a: nat, b: nat, c: nat, d: nat, rest: string)
    requires a < 16 && b < 16 && c < 16 && d < 16
    requires a * 4096 + b * 256 + c * 16 + d < 0xD800
    ensures ReadChar(['\\', 'u', HexDigit(a), HexDigit(b), HexDigit(c), HexDigit(d)] + rest)
         == Some(((a * 4096 + b * 256 + c * 16 + d) as char, 6))
  {
    HexRoundTrip(a);
    HexRoundTrip(b);
    HexRoundTrip(c);
    HexRoundTrip(d);
  }

  lemma UnicodeRoundTrip(c: char, rest: string)
    requires c as int < 0xD800
    ensures ReadChar(Unicode(c as int) + rest) == Some((c, 6))
  {
    var v := c as int;
    Digits(v);
    ReadDigits(v / 4096, v / 256 % 16, v / 16 % 16, v % 16, rest);
  }

  lemma EscapeRoundTrip(c: char, rest: string)
    ensures var s := Escape(c) + rest; s[0] != '"' && ReadChar(s) == Some((c, |Escape(c)|))
  {
    if NeedsUnicode(c) && |Escape(c)| == 6 {
      UnicodeRoundTrip(c, rest);
    }
  }

  lemma {:induction false} UnquoteOne(c: char, tail: string, t: string, rest: string)
    requires Unquote(tail) == Some((t, rest))
    ensures Unquote(Escape(c) + tail) == Some(([c] + t, rest))
  {
    EscapeRoundTrip(c, tail);
    assert (Escape(c) + tail)[|Escape(c)|..] == tail;
  }

  lemma {:induction false} UnquoteEscaped(t: string, rest: string)
    ensures Unquote(EscapeAll(t) + ("\"" + rest)) == Some((t, rest))
  {
    if t == "" {
      assert ("\"" + rest)[1..] == rest;
      assert EscapeAll(t) + ("\"" + rest) == "\"" + rest;
    } else {
      var tail := EscapeAll(t[1..]) + ("\"" + rest);
      assert EscapeAll(t) + ("\"" + rest) == Escape(t[0]) + tail;
      UnquoteEscaped(t[1..], rest);
      UnquoteOne(t[0], tail, t[1..], rest);
      assert t == [t[0]] + t[1..];
    }
  }

  /** Decoding an encoded pair gives it back. */
  lemma DecodeEncode(r: Rewrite)
    ensures Decode(Encode(r)) == Some(r)
  {
    var end := "\"" + TAIL;
    var second := EscapeAll(r.answer) + end;
    var first := EscapeAll(r.domain) + ("\"" + (MIDDLE + second));
    assert Encode(r)[|HEAD|..] == first;
    UnquoteEscaped(r.domain, MIDDLE + second);
    assert (MIDDLE + second)[|MIDDLE|..] == second;
    UnquoteEscaped(r.answer, TAIL);
  }

  /** So different pairs have different ids, and an id is never empty. */
  lemma EncodeInjective(a: Rewrite, b: Rewrite)
    ensures Encode(a) == Encode(b) <==> a == b
    ensures Encode(a) != ""
  {
    DecodeEncode(a);
    DecodeEncode(b);
  }

  /** A character that is written as itself. */
  predicate Plain(c: char) {
    ' ' <= c && c !in "\"\\<>&" && c as int != 0x2028 && c as int != 0x2029
  }

  lemma {:induction false} EscapePlain(s: string)
    requires forall c <- s :: Plain(c)
    ensures EscapeAll(s) == s
  {
    if s != "" {
      EscapePlain(s[1..]);
      assert Plain(s[0]);
    }
  }

  lemma Regroup(head: string, d: string, quote: string, middle: string, a: string, end: string)
    ensures head + (d + (quote + (middle + (a + end)))) == head + d + (quote + middle) + a + end
  {
    assert middle + (a + end) == middle + a + end;
    assert quote + (middle + a + end) == quote + middle + a + end;
    assert d + (quote + middle + a + end) == d + (quote + middle) + a + end;
  }

  /** The text itself, for a name and a value without special characters, as host names and addresses are. */
  lemma EncodedText(r: Rewrite)
    requires forall c <- r.domain + r.answer :: Plain(c)
    ensures Encode(r) == "{\"domain\":\"" + r.domain + "\",\"answer\":\"" + r.answer + "\"}"
  {
    forall c <- r.domain ensures Plain(c) {
      assert c in r.domain + r.answer;
    }
    forall c <- r.answer ensures Plain(c) {
      assert c in r.domain + r.answer;
    }
    EscapePlain(r.domain);
    EscapePlain(r.answer);
    Regroup(HEAD, r.domain, "\"", MIDDLE, r.answer, "\"" + TAIL);
    assert "\"" + MIDDLE == "\",\"answer\":\"";
    assert "\"" + TAIL == "\"}";
  }
}
