/**
 * String helpers with the meaning Python gives them: `startswith`, the
 * substring test `sub in s`, `str(n)` for a port number and `sep.join(xs)`.
 */
module Text {

  /** Python's `s.startswith(prefix)`. */
  predicate StartsWith(s: string, prefix: string)
  {
    |prefix| <= |s| && s[..|prefix|] == prefix
  }

  /** Python's `s.endswith(suffix)`. */
  predicate EndsWith(s: string, suffix: string)
  {
    |suffix| <= |s| && s[|s| - |suffix|..] == suffix
  }

  /** Python's `sub in s` on two strings (the empty string is in every string). */
  predicate Contains(s: string, sub: string)
  {
    exists i :: 0 <= i <= |s| && StartsWith(s[i..], sub)
  }

  /** A string contains every one of its prefixes. */
  lemma PrefixContained(prefix: string, rest: string)
    ensures Contains(prefix + rest, prefix)
  {
    assert (prefix + rest)[0..] == prefix + rest;
    assert (prefix + rest)[..|prefix|] == prefix;
  }

  /** The character of a decimal digit. */
  function DigitChar(d: nat): (c: char)
    requires d < 10
    ensures '0' <= c <= '9'
    ensures c as int - '0' as int == d
  {
    (d + '0' as int) as char
  }

  /** Python's `str(n)` (an f-string field) for a non-negative integer. */
  function Decimal(n: nat): (r: string)
    ensures |r| >= 1
    ensures forall i :: 0 <= i < |r| ==> '0' <= r[i] <= '9'
    ensures r[0] == '0' <==> n == 0
  {
    if n < 10 then [DigitChar(n)] else Decimal(n / 10) + [DigitChar(n % 10)]
  }

  /** The number a string of decimal digits spells, most significant digit first. */
  function DigitsValue(s: string): nat
    requires forall i :: 0 <= i < |s| ==> '0' <= s[i] <= '9'
  {
    if |s| == 0 then 0
    else DigitsValue(s[..|s| - 1]) * 10 + (s[|s| - 1] as int - '0' as int)
  }

  /** The digits `str(n)` writes spell `n` back. */
  lemma {:induction false} DecimalValue(n: nat)
    ensures DigitsValue(Decimal(n)) == n
  {
    var r := Decimal(n);
    if n >= 10 {
      DecimalValue(n / 10);
      assert r[..|r| - 1] == Decimal(n / 10);
      assert r[|r| - 1] == DigitChar(n % 10);
    } else {
      assert r[..0] == [];
    }
  }

  /** Python's `sep.join(tokens)`. */
  function Join(tokens: seq<string>, sep: string): string
  {
    if |tokens| == 0 then ""
    else if |tokens| == 1 then tokens[0]
    else tokens[0] + sep + Join(tokens[1..], sep)
  }

  /** A joined line begins with the first token and ends with the last one. */
  lemma {:induction false} JoinBounds(tokens: seq<string>, sep: string)
    requires |tokens| > 0
    ensures StartsWith(Join(tokens, sep), tokens[0])
    ensures EndsWith(Join(tokens, sep), tokens[|tokens| - 1])
  {
    if |tokens| > 1 {
      var tail := Join(tokens[1..], sep);
      JoinBounds(tokens[1..], sep);
      var whole := tokens[0] + sep + tail;
      assert whole[..|tokens[0]|] == tokens[0];
      assert tokens[1..][|tokens[1..]| - 1] == tokens[|tokens| - 1];
      assert whole[|whole| - |tokens[|tokens| - 1]|..] == tail[|tail| - |tokens[|tokens| - 1]|..];
    }
  }
}
