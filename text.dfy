/** Strings as the Java code builds and inspects them: `Long.toString` for the
    ids that are appended to key prefixes, and Hutool's `StrUtil.isBlank`. */
module Text {

  /** The decimal digit character for `d`. */
  function DigitChar(d: nat): char
    requires d < 10
  {
    ('0' as int + d) as char
  }

  /** The value of a decimal digit character (0 for any other character). */
  function DigitValue(c: char): nat
  {
    if '0' <= c <= '9' then c as int - '0' as int else 0
  }

  predicate IsDigit(c: char)
  {
    '0' <= c <= '9'
  }

  /** `Long.toString` of a non-negative value: decimal, no leading zeros. */
  function NatToString(n: nat): (s: string)
    ensures |s| > 0
    ensures forall i :: 0 <= i < |s| ==> IsDigit(s[i])
    decreases n
  {
    if n < 10 then [DigitChar(n)] else NatToString(n / 10) + [DigitChar(n % 10)]
  }

  /** `Long.toString`: a minus sign in front of the digits of a negative value. */
  function IntToString(n: int): string
  {
    if n < 0 then "-" + NatToString(-n) else NatToString(n)
  }

  /** Reads a run of decimal digits back (the inverse of `NatToString`). */
  function ParseNat(s: string): nat
  {
    if s == [] then 0 else ParseNat(s[..|s| - 1]) * 10 + DigitValue(s[|s| - 1])
  }

  /** Reads an optionally signed decimal back (the inverse of `IntToString`). */
  function ParseInt(s: string): int
  {
    if |s| > 0 && s[0] == '-' then -(ParseNat(s[1..]) as int) else ParseNat(s)
  }

  lemma {:induction false} ParseNatToString(n: nat)
    ensures ParseNat(NatToString(n)) == n
    decreases n
  {
    var s := NatToString(n);
    if n >= 10 {
      ParseNatToString(n / 10);
      assert s[..|s| - 1] == NatToString(n / 10);
    }
  }

  lemma ParseIntToString(n: int)
    ensures ParseInt(IntToString(n)) == n
  {
    if n < 0 {
      ParseNatToString(-n);
      assert ("-" + NatToString(-n))[1..] == NatToString(-n);
    } else {
      ParseNatToString(n);
      assert IsDigit(NatToString(n)[0]);
    }
  }

  /** Distinct ids print differently, so `prefix + id` keys and owner tokens
      never collide for distinct ids. */
  lemma IntToStringInjective(a: int, b: int)
    ensures IntToString(a) == IntToString(b) <==> a == b
  {
    if IntToString(a) == IntToString(b) {
      ParseIntToString(a);
      ParseIntToString(b);
    }
  }

  /** Appending distinct ids to one prefix gives distinct strings. */
  lemma PrefixedIdInjective(prefix: string, a: int, b: int)
    ensures prefix + IntToString(a) == prefix + IntToString(b) <==> a == b
  {
    if prefix + IntToString(a) == prefix + IntToString(b) {
      assert (prefix + IntToString(a))[|prefix|..] == IntToString(a);
      assert (prefix + IntToString(b))[|prefix|..] == IntToString(b);
      IntToStringInjective(a, b);
    }
  }

  /** Hutool `CharUtil.isBlankChar`: Java whitespace and space separators,
      plus the byte-order mark and a few invisible characters. */
  predicate IsBlankChar(c: char)
  {
    || c == ' ' || c == '\t' || c == '\n' || c == '\r' || c == '\U{000B}' || c == '\U{000C}'
    || ('\U{001C}' <= c <= '\U{001F}')
    || c == '\U{00A0}' || c == '\U{1680}' || ('\U{2000}' <= c <= '\U{200A}')
    || c == '\U{2028}' || c == '\U{2029}' || c == '\U{202F}' || c == '\U{205F}' || c == '\U{3000}'
    || c == '\U{FEFF}' || c == '\U{202A}' || c == '\U{0000}' || c == '\U{3164}' || c == '\U{2800}'
    || c == '\U{180E}'
  }

  /** `StrUtil.isBlank` of a non-null string: empty or only blank characters. */
  predicate IsBlank(s: string)
  {
    forall i | 0 <= i < |s| :: IsBlankChar(s[i])
  }
}
