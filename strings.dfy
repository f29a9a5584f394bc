/**
 * The JavaScript string operations the core relies on, over `seq<char>`:
 * `trim()` and the regular-expression class `\s`, `split(c)[0]`, removal of a
 * trailing character run, `Number.parseInt(s, 10)` and `String(n)` for an
 * integral number.
 */
module Strings {
  import opened Wrappers

  /** The characters `trim()` removes and `\s` matches: the WhiteSpace and
      LineTerminator characters of ECMA-262 (sections 12.2 and 12.3). */
  predicate IsSpace(c: char)
  {
    || c == '\t' || c == '\n' || c == '\U{B}' || c == '\U{C}' || c == '\r' || c == ' '
    || c == '\U{A0}' || c == '\U{1680}' || ('\U{2000}' <= c <= '\U{200A}')
    || c == '\U{2028}' || c == '\U{2029}' || c == '\U{202F}' || c == '\U{205F}'
    || c == '\U{3000}' || c == '\U{FEFF}'
  }

  /** No printable ASCII character is white space: digits, signs and the
      punctuation `?`, `.` and `!` are never skipped as spaces. */
  lemma PrintableAsciiIsNotSpace(c: char)
    requires '!' <= c <= '~'
    ensures !IsSpace(c)
  {
  }

  predicate AllSpace(s: string)
  {
    forall i :: 0 <= i < |s| ==> IsSpace(s[i])
  }

  /** The longest prefix of `s` whose characters all satisfy `p`. */
  function TakeWhile(s: string, p: char -> bool): (r: string)
    ensures |r| <= |s| && r == s[..|r|]
    ensures forall i :: 0 <= i < |r| ==> p(r[i])
    ensures |r| == |s| || !p(s[|r|])
  {
    if s != [] && p(s[0]) then [s[0]] + TakeWhile(s[1..], p) else []
  }

  /** `s` without its longest prefix of characters satisfying `p`. */
  function DropWhile(s: string, p: char -> bool): (r: string)
    ensures |r| <= |s| && r == s[|s| - |r|..]
    ensures forall i :: 0 <= i < |s| - |r| ==> p(s[i])
    ensures r == [] || !p(r[0])
  {
    if s != [] && p(s[0]) then DropWhile(s[1..], p) else s
  }

  /** `s` without its longest suffix of characters satisfying `p`: what
      `s.replace(/[…]*$/, "")` leaves for the character class `p`. */
  function DropWhileEnd(s: string, p: char -> bool): (r: string)
    ensures |r| <= |s| && r == s[..|r|]
    ensures forall i :: |r| <= i < |s| ==> p(s[i])
    ensures r == [] || !p(r[|r| - 1])
  {
    if s != [] && p(s[|s| - 1]) then DropWhileEnd(s[..|s| - 1], p) else s
  }

  /** `s.trimStart()` */
  function TrimStart(s: string): string
  {
    DropWhile(s, IsSpace)
  }

  /** `s.trim()`: `s` without its leading and its trailing white space
      (`TrimStripsBothEnds` ties it to the two one-sided strips). */
  function Trim(s: string): (r: string)
    ensures r == "" <==> AllSpace(s)
    ensures r == "" || (!IsSpace(r[0]) && !IsSpace(r[|r| - 1]))
    ensures forall c :: c in r ==> c in s
  {
    if s != [] && IsSpace(s[0]) then Trim(s[1..])
    else if s != [] && IsSpace(s[|s| - 1]) then Trim(s[..|s| - 1])
    else s
  }

  /** `trim()` is exactly the strip of the leading white-space run followed by
      the strip of the trailing one, so it removes nothing else. */
  lemma {:induction false} TrimStripsBothEnds(s: string)
    ensures Trim(s) == DropWhileEnd(DropWhile(s, IsSpace), IsSpace)
    decreases |s|
  {
    if s != [] && IsSpace(s[0]) {
      TrimStripsBothEnds(s[1..]);
    } else if s != [] && IsSpace(s[|s| - 1]) {
      var init := s[..|s| - 1];
      assert init != [] && init[0] == s[0];
      TrimStripsBothEnds(init);
    }
  }

  /** `trim()` keeps every character that is not white space. */
  lemma {:induction false} TrimKeeps(s: string, i: nat)
    requires i < |s| && !IsSpace(s[i])
    ensures s[i] in Trim(s)
    decreases |s|
  {
    if IsSpace(s[0]) {
      assert s[1..][i - 1] == s[i];
      TrimKeeps(s[1..], i - 1);
    } else if IsSpace(s[|s| - 1]) {
      assert s[..|s| - 1][i] == s[i];
      TrimKeeps(s[..|s| - 1], i);
    }
  }

  /** A string that starts and ends with a non-space character is left alone by `trim()`. */
  lemma TrimUnchanged(s: string)
    requires s == "" || (!IsSpace(s[0]) && !IsSpace(s[|s| - 1]))
    ensures Trim(s) == s
  {
  }

  /** `trim()` is idempotent. */
  lemma TrimIdempotent(s: string)
    ensures Trim(Trim(s)) == Trim(s)
  {
    TrimUnchanged(Trim(s));
  }

  /** `o || d` for an optional string `o`: an absent or empty string is falsy. */
  function Or(o: Option<string>, d: string): (r: string)
    ensures o.Some? && o.value != "" ==> r == o.value
    ensures o.None? || o.value == "" ==> r == d
  {
    if o.Some? && o.value != "" then o.value else d
  }

  /** `s.split(c)[0]`: the text before the first occurrence of `c`, or all of `s`. */
  function BeforeFirst(s: string, c: char): (r: string)
    ensures |r| <= |s| && r == s[..|r|]
    ensures c !in r
    ensures |r| < |s| <==> c in s
    ensures |r| < |s| ==> s[|r|] == c
  {
    if s == [] || s[0] == c then [] else [s[0]] + BeforeFirst(s[1..], c)
  }

  predicate IsDigit(c: char)
  {
    '0' <= c <= '9'
  }

  predicate AllDigits(s: string)
  {
    forall i :: 0 <= i < |s| ==> IsDigit(s[i])
  }

  function DigitValue(c: char): (d: nat)
    requires IsDigit(c)
    ensures d < 10
  {
    c as int - '0' as int
  }

  function DigitChar(d: nat): (c: char)
    requires d < 10
    ensures IsDigit(c) && DigitValue(c) == d
  {
    ('0' as int + d) as char
  }

  /** The value of a string of decimal digits, most significant first. */
  function DigitsValue(ds: string): nat
    requires AllDigits(ds)
  {
    if ds == [] then 0 else 10 * DigitsValue(ds[..|ds| - 1]) + DigitValue(ds[|ds| - 1])
  }

  /** The decimal digits of `n`, without leading zeros. */
  function NatString(n: nat): (r: string)
    ensures r != [] && AllDigits(r)
    ensures n == 0 ==> r == "0"
    ensures n > 0 ==> r[0] != '0'
  {
    if n < 10 then [DigitChar(n)] else NatString(n / 10) + [DigitChar(n % 10)]
  }

  /** `String(n)` for an integral JavaScript number `n`. */
  function DecimalString(n: int): (r: string)
    ensures r != "" && !IsSpace(r[0])
  {
    if n < 0 then "-" + NatString(-n) else NatString(n)
  }

  /** `Number.parseInt(s, 10)`: leading white space is skipped, then an optional
      sign, then the longest run of decimal digits; no digit at all is `NaN`,
      written `None`. */
  function ParseInt(s: string): (r: Option<int>)
    ensures var t := TrimStart(s);
      var unsigned := if t != [] && (t[0] == '-' || t[0] == '+') then t[1..] else t;
      && (r.None? <==> unsigned == [] || !IsDigit(unsigned[0]))
      && (r.Some? && t[0] == '-' ==> r.value <= 0)
      && (r.Some? && t[0] != '-' ==> r.value >= 0)
  {
    var t := TrimStart(s);
    var unsigned := if t != [] && (t[0] == '-' || t[0] == '+') then t[1..] else t;
    var ds := TakeWhile(unsigned, IsDigit);
    var magnitude: int := if ds == [] then 0 else DigitsValue(ds);
    if ds == [] then None
    else if t[0] == '-' then Some(-magnitude)
    else Some(magnitude)
  }

  lemma {:induction false} NatStringValue(n: nat)
    ensures DigitsValue(NatString(n)) == n
  {
    if n >= 10 {
      var s := NatString(n);
      assert s[..|s| - 1] == NatString(n / 10);
      NatStringValue(n / 10);
    }
  }

  /** The longest `p`-prefix of `a + b` is `a` when all of `a` satisfies `p`
      and `b` does not start with a character satisfying `p`. */
  lemma {:induction false} TakeWhileConcat(a: string, b: string, p: char -> bool)
    requires forall i :: 0 <= i < |a| ==> p(a[i])
    requires b == [] || !p(b[0])
    ensures TakeWhile(a + b, p) == a
  {
    if a != [] {
      assert (a + b)[1..] == a[1..] + b;
      TakeWhileConcat(a[1..], b, p);
    }
  }

  /** A digit run followed by a non-digit is read as the run's value. */
  lemma ParseDigitsPrefix(digits: string, rest: string)
    requires digits != [] && AllDigits(digits) && (rest == [] || !IsDigit(rest[0]))
    ensures ParseInt(digits + rest) == Some(DigitsValue(digits))
  {
    var s := digits + rest;
    assert s[0] == digits[0] && !IsSpace(s[0]);
    assert TrimStart(s) == s;
    TakeWhileConcat(digits, rest, IsDigit);
  }

  /** The same run after a minus sign is read as the negated value. */
  lemma ParseNegativeDigitsPrefix(digits: string, rest: string)
    requires digits != [] && AllDigits(digits) && (rest == [] || !IsDigit(rest[0]))
    ensures ParseInt("-" + (digits + rest)) == Some(-(DigitsValue(digits) as int))
  {
    var s := "-" + (digits + rest);
    assert s[0] == '-' && !IsSpace(s[0]);
    assert TrimStart(s) == s;
    assert s[1..] == digits + rest;
    TakeWhileConcat(digits, rest, IsDigit);
  }

  /** The digits of a natural number after a minus sign read back as its negation. */
  lemma ParseNegatedNatPrefix(m: nat, rest: string)
    requires rest == [] || !IsDigit(rest[0])
    ensures ParseInt("-" + (NatString(m) + rest)) == Some(-(m as int))
  {
    NatStringValue(m);
    ParseNegativeDigitsPrefix(NatString(m), rest);
  }

  /** The digits of a natural number read back as that number. */
  lemma ParseNatPrefix(n: nat, rest: string)
    requires rest == [] || !IsDigit(rest[0])
    ensures ParseInt(NatString(n) + rest) == Some(n)
  {
    NatStringValue(n);
    ParseDigitsPrefix(NatString(n), rest);
  }

  /** Reading back what `String(n)` wrote gives `n`. */
  lemma ParseDecimalString(n: int)
    ensures ParseInt(DecimalString(n)) == Some(n)
  {
    if n < 0 {
      ParseNegatedNatPrefix(-n, "");
      assert DecimalString(n) == "-" + (NatString(-n) + "");
    } else {
      ParseNatPrefix(n, "");
      assert DecimalString(n) == NatString(n) + "";
    }
  }
}
