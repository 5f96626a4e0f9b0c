/** The build script's own JSON string writer, against the string grammar of
    section 7 of RFC 8259. */
module JsonEscape {
  import opened Wrappers

  // ---- Writing ----

  function HexDigit(d: nat): char
    requires d < 16
  {
    "0123456789abcdef"[d]
  }

  function Hex4(n: nat): (h: string)
    requires n < 0x10000
    ensures |h| == 4
  {
    [HexDigit(n / 4096), HexDigit(n / 256 % 16), HexDigit(n / 16 % 16), HexDigit(n % 16)]
  }

  function Escape(c: char): string {
    if c == '"' then "\\\""
    else if c == '\\' then "\\\\"
    else if c == '\n' then "\\n"
    else if c == '\r' then "\\r"
    else if c == '\t' then "\\t"
    else if c < ' ' then "\\u" + Hex4(c as int)
    else [c]
  }

  function EscapeAll(s: string): string {
    if s == [] then [] else Escape(s[0]) + EscapeAll(s[1..])
  }

  function Quote(s: string): string {
    "\"" + EscapeAll(s) + "\""
  }

  lemma EscapeNext(out: string, s: string, i: nat)
    requires i < |s|
    ensures out + EscapeAll(s[i..]) == (out + Escape(s[i])) + EscapeAll(s[i + 1..])
  {
    hide Escape;
    assert s[i..][1..] == s[i + 1..];
  }

  method SerdeJsonString(s: string) returns (out: string)
    ensures out == Quote(s)
  {
    assert s[0..] == s && EscapeAll(s[|s|..]) == [];
    hide EscapeAll, Hex4;
    out := "\"";
    for i := 0 to |s|
      invariant out + EscapeAll(s[i..]) == "\"" + EscapeAll(s)
    {
      EscapeNext(out, s, i);
      match s[i] {
        case '"' => out := out + "\\\"";
        case '\\' => out := out + "\\\\";
        case '\n' => out := out + "\\n";
        case '\r' => out := out + "\\r";
        case '\t' => out := out + "\\t";
        case c =>
          if c < ' ' {
            out := out + ("\\u" + Hex4(c as int));
          } else {
            out := out + [c];
          }
      }
    }
    out := out + "\"";
  }

  // ---- Reading ----

  function HexValue(c: char): Option<nat> {
    if '0' <= c <= '9' then Some((c - '0') as int)
    else if 'a' <= c <= 'f' then Some((c - 'a') as int + 10)
    else if 'A' <= c <= 'F' then Some((c - 'A') as int + 10)
    else None
  }

  /** Four hexadecimal digits at the head of t. */
  function Unit(t: string): (u: Option<nat>)
    ensures u.Some? ==> |t| >= 4 && u.value < 0x10000
  {
    if |t| < 4 || HexValue(t[0]).None? || HexValue(t[1]).None? || HexValue(t[2]).None? || HexValue(t[3]).None? then None
    else
      HexBound(t[0]); HexBound(t[1]); HexBound(t[2]); HexBound(t[3]);
      Some(HexValue(t[0]).value * 4096 + HexValue(t[1]).value * 256 + HexValue(t[2]).value * 16 + HexValue(t[3]).value)
  }

  lemma HexBound(c: char)
    ensures HexValue(c).Some? ==> HexValue(c).value < 16
  {
  }

  /** The character a two-character escape stands for. */
  function Short(c: char): Option<char> {
    match c
    case '"' => Some('"')
    case '\\' => Some('\\')
    case '/' => Some('/')
    case 'b' => Some('\U{0008}')
    case 'f' => Some('\U{000C}')
    case 'n' => Some('\n')
    case 'r' => Some('\r')
    case 't' => Some('\t')
    case _ => None
  }

  /** One character of a string body, and how much text it takes. Surrogates count
      only in pairs, and control characters must be escaped. */
  function OneChar(t: string): (r: Option<(char, nat)>)
    requires t != [] && t[0] != '"'
    ensures r.Some? ==> 1 <= r.value.1 <= |t|
  {
    if t[0] != '\\' then (if t[0] < ' ' then None else Some((t[0], 1)))
    else if |t| < 2 then None
    else if t[1] != 'u' then (if Short(t[1]).Some? then Some((Short(t[1]).value, 2)) else None)
    else match Unit(t[2..])
         case None => None
         case Some(u) =>
           if u < 0xD800 || 0xE000 <= u then Some((u as char, 6))
           else if u < 0xDC00 && |t| >= 12 && t[6] == '\\' && t[7] == 'u' then
             (match Unit(t[8..])
              case None => None
              case Some(v) =>
                if 0xDC00 <= v < 0xE000 then Some(((0x10000 + (u - 0xD800) * 0x400 + (v - 0xDC00)) as char, 12))
                else None)
           else None
  }

  /** Reads up to the closing quote; returns the text and what follows the quote. */
  function ParseBody(t: string): Option<(string, string)>
    decreases |t|
  {
    if t == [] then None
    else if t[0] == '"' then Some(([], t[1..]))
    else match OneChar(t)
         case None => None
         case Some((c, n)) =>
           match ParseBody(t[n..])
           case None => None
           case Some((s, rest)) => Some(([c] + s, rest))
  }

  function ParseString(t: string): Option<(string, string)> {
    if t != [] && t[0] == '"' then ParseBody(t[1..]) else None
  }

  // ---- The round trip ----

  lemma HexRoundTrip(d: nat)
    requires d < 16
    ensures HexValue(HexDigit(d)) == Some(d)
  {
  }

  lemma UnitOfHex4(n: nat, rest: string)
    requires n < 0x20
    ensures Unit(Hex4(n) + rest) == Some(n)
  {
    HexRoundTrip(n / 4096);
    HexRoundTrip(n / 256 % 16);
    HexRoundTrip(n / 16 % 16);
    HexRoundTrip(n % 16);
    assert n / 4096 == 0 && n / 256 == 0 && n / 16 % 16 == n / 16;
    hide HexValue, HexDigit;
  }

  lemma ControlIsRead(c: char, rest: string)
    requires c < ' '
    ensures OneChar("\\u" + Hex4(c as int) + rest) == Some((c, 6))
  {
    var t := "\\u" + Hex4(c as int) + rest;
    UnitOfHex4(c as int, rest);
    assert t[2..] == Hex4(c as int) + rest;
    hide Unit, Hex4;
    assert t[0] == '\\' && t[1] == 'u';
  }

  lemma EscapeIsRead(c: char, rest: string)
    ensures Escape(c) != [] && Escape(c)[0] != '"' && OneChar(Escape(c) + rest) == Some((c, |Escape(c)|))
  {
    hide Unit, Hex4;
    if c < ' ' && c != '\n' && c != '\r' && c != '\t' {
      ControlIsRead(c, rest);
      hide OneChar;
    }
  }

  lemma BodyStep(c: char, e: string, tail: string, s: string, rest: string)
    requires e != [] && e[0] != '"' && OneChar(e + tail) == Some((c, |e|)) && ParseBody(tail) == Some((s, rest))
    ensures ParseBody(e + tail) == Some(([c] + s, rest))
  {
    hide OneChar;
    assert (e + tail)[|e|..] == tail;
  }

  lemma {:induction false} BodyIsRead(s: string, rest: string)
    ensures ParseBody(EscapeAll(s) + "\"" + rest) == Some((s, rest))
  {
    hide OneChar, Escape;
    if s == [] {
      assert EscapeAll(s) + "\"" + rest == "\"" + rest;
    } else {
      var tail := EscapeAll(s[1..]) + "\"" + rest;
      assert EscapeAll(s) + "\"" + rest == Escape(s[0]) + tail;
      BodyIsRead(s[1..], rest);
      hide ParseBody, EscapeAll;
      EscapeIsRead(s[0], tail);
      BodyStep(s[0], Escape(s[0]), tail, s[1..], rest);
      assert [s[0]] + s[1..] == s;
    }
  }

  /** Main result: for every text, whatever follows it, reading the written literal
      gives the text back and stops at its own closing quote. */
  lemma QuoteReadsBack(s: string, rest: string)
    ensures ParseString(Quote(s) + rest) == Some((s, rest))
  {
    assert (Quote(s) + rest)[1..] == EscapeAll(s) + "\"" + rest;
    BodyIsRead(s, rest);
  }

  lemma {:induction false} EscapesConcat(a: string, b: string)
    ensures EscapeAll(a + b) == EscapeAll(a) + EscapeAll(b)
  {
    hide Escape;
    if a == [] {
      assert a + b == b;
    } else {
      assert (a + b)[1..] == a[1..] + b;
      EscapesConcat(a[1..], b);
    }
  }

  predicate IsLowerHex(t: string) {
    forall i :: 0 <= i < |t| ==> '0' <= t[i] <= '9' || 'a' <= t[i] <= 'f'
  }

  /** Only what must be escaped is: quote, backslash and control characters; the five
      with a short form of their own take two characters, the other controls six, in
      lower-case digits. */
  lemma OnlyTheNecessaryIsEscaped(c: char)
    ensures EscapeAll([c]) == [c] <==> c >= ' ' && c != '"' && c != '\\'
    ensures |EscapeAll([c])| == 2 <==> c in {'"', '\\', '\n', '\r', '\t'}
    ensures |EscapeAll([c])| > 2 ==> |EscapeAll([c])| == 6 && IsLowerHex(EscapeAll([c])[2..])
  {
    assert EscapeAll([c]) == Escape(c) + EscapeAll([c][1..]) && [c][1..] == [];
    assert EscapeAll([]) == [];
  }

  predicate NoControls(s: string) {
    forall i :: 0 <= i < |s| ==> s[i] >= ' '
  }

  lemma HexDigitsArePrintable(d: nat)
    requires d < 16
    ensures HexDigit(d) >= ' '
  {
  }

  lemma {:induction false} EscapesHaveNoControls(s: string)
    ensures NoControls(EscapeAll(s))
  {
    if s != [] {
      EscapesHaveNoControls(s[1..]);
      EscapeHasNoControls(s[0]);
    }
  }

  lemma EscapeHasNoControls(c: char)
    ensures NoControls(Escape(c))
  {
    if c < ' ' {
      HexDigitsArePrintable(c as int / 4096);
      HexDigitsArePrintable(c as int / 256 % 16);
      HexDigitsArePrintable(c as int / 16 % 16);
      HexDigitsArePrintable(c as int % 16);
      hide HexDigit;
    }
  }

  lemma QuoteHasNoControls(s: string)
    ensures NoControls(Quote(s))
  {
    EscapesHaveNoControls(s);
  }
}
