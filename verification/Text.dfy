/** Trimming as the standard library does it, and numbers in decimal. */
module Text {
  /** The characters with the Unicode property White_Space. */
  predicate IsWhitespace(c: char) {
    || '\U{0009}' <= c <= '\U{000D}' || c == ' ' || c == '\U{0085}' || c == '\U{00A0}' || c == '\U{1680}'
    || '\U{2000}' <= c <= '\U{200A}' || c == '\U{2028}' || c == '\U{2029}' || c == '\U{202F}' || c == '\U{205F}'
    || c == '\U{3000}'
  }

  function TrimStart(s: string): string {
    if s != [] && IsWhitespace(s[0]) then TrimStart(s[1..]) else s
  }

  function TrimEnd(s: string): string {
    if s != [] && IsWhitespace(s[|s| - 1]) then TrimEnd(s[..|s| - 1]) else s
  }

  function Trim(s: string): string {
    TrimEnd(TrimStart(s))
  }

  predicate IsTrimmed(s: string) {
    s == [] || (!IsWhitespace(s[0]) && !IsWhitespace(s[|s| - 1]))
  }

  lemma {:induction false} TrimEndShape(s: string)
    ensures TrimEnd(s) <= s && (TrimEnd(s) != [] ==> !IsWhitespace(TrimEnd(s)[|TrimEnd(s)| - 1]))
    ensures s != [] && !IsWhitespace(s[0]) ==> TrimEnd(s) != []
    ensures IsBlank(s[|TrimEnd(s)|..])
  {
    if s != [] && IsWhitespace(s[|s| - 1]) {
      TrimEndShape(s[..|s| - 1]);
    }
  }

  lemma {:induction false} TrimStartShape(s: string)
    ensures TrimStart(s) == [] || !IsWhitespace(TrimStart(s)[0])
    ensures |TrimStart(s)| <= |s| && TrimStart(s) == s[|s| - |TrimStart(s)|..] && IsBlank(s[..|s| - |TrimStart(s)|])
  {
    if s != [] && IsWhitespace(s[0]) {
      TrimStartShape(s[1..]);
    }
  }

  predicate IsBlank(s: string) {
    forall i :: 0 <= i < |s| ==> IsWhitespace(s[i])
  }

  lemma TrimIsTrimmed(s: string)
    ensures IsTrimmed(Trim(s)) && Trim(Trim(s)) == Trim(s)
  {
    TrimStartShape(s);
    TrimEndShape(TrimStart(s));
  }

  /** Trimming cuts blanks at both ends and nothing else. */
  lemma OnlyBlanksAreTrimmed(s: string) returns (before: string, after: string)
    ensures s == before + Trim(s) + after && IsBlank(before) && IsBlank(after) && IsTrimmed(Trim(s))
  {
    TrimStartShape(s);
    TrimEndShape(TrimStart(s));
    before := s[..|s| - |TrimStart(s)|];
    after := TrimStart(s)[|Trim(s)|..];
    TrimIsTrimmed(s);
    hide IsWhitespace;
  }

  function Decimal(n: nat): (s: string)
    ensures s != [] && '0' <= s[0] <= '9'
  {
    if n < 10 then ['0' + n as char] else Decimal(n / 10) + ['0' + (n % 10) as char]
  }

  function ValueOf(s: string): int {
    if s == [] then 0 else ValueOf(s[..|s| - 1]) * 10 + (s[|s| - 1] as int - '0' as int)
  }

  /** The digits read back as the number, without a leading zero. */
  lemma {:induction false} DecimalReadsBack(n: nat)
    ensures ValueOf(Decimal(n)) == n && (Decimal(n)[0] == '0' ==> n == 0)
  {
    if n >= 10 {
      DecimalReadsBack(n / 10);
      assert Decimal(n)[..|Decimal(n)| - 1] == Decimal(n / 10);
    }
  }
}
