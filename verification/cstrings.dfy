/** The C library string routines the start-up code relies on, over NUL-free
    character sequences: a C string is the sequence of characters before its
    terminating NUL, so the terminator itself never appears here.

    - `IndexOf` is `strstr`: the first place a pattern occurs, anywhere.
    - `LastIndexOf` is `last_strstr` with a one-character pattern.
    - `Atoi` is `atoi`, i.e. `strtol` in base 10 with the end pointer dropped.
    - `FormatNat` is the decimal rendering used to state round trips. */
module CStrings {
  import opened Wrappers

  /** `p` occurs in `s` starting at index `i`. */
  predicate OccursAt(s: string, p: string, i: int) {
    0 <= i && i + |p| <= |s| && s[i..i + |p|] == p
  }

  ghost predicate Contains(s: string, p: string) {
    exists i :: OccursAt(s, p, i)
  }

  /** `i` is the leftmost place where `p` occurs in `s`. */
  ghost predicate FirstOccurrence(s: string, p: string, i: int) {
    OccursAt(s, p, i) && forall j :: 0 <= j < i ==> !OccursAt(s, p, j)
  }

  /** The leftmost occurrence of `p` in `s` at or after `i`. */
  function FindFrom(s: string, p: string, i: nat): (r: Option<nat>)
    ensures r.Some? ==>
      && i <= r.value
      && OccursAt(s, p, r.value)
      && forall j :: i <= j < r.value ==> !OccursAt(s, p, j)
    ensures r.None? ==> forall j :: i <= j ==> !OccursAt(s, p, j)
    decreases |s| - i
  {
    if i + |p| > |s| then None
    else if s[i..i + |p|] == p then Some(i)
    else FindFrom(s, p, i + 1)
  }

  /** `strstr(s, p)`: the index of the first occurrence of `p`, or NULL. */
  function IndexOf(s: string, p: string): (r: Option<nat>)
    ensures r.Some? <==> Contains(s, p)
    ensures r.Some? ==> FirstOccurrence(s, p, r.value)
  {
    FindFrom(s, p, 0)
  }

  /** `last_strstr(s, [c])`: the index of the last occurrence of `c`, or NULL. */
  function LastIndexOf(s: string, c: char): (r: Option<nat>)
    ensures r.None? <==> c !in s
    ensures r.Some? ==>
      && r.value < |s|
      && s[r.value] == c
      && forall j :: r.value < j < |s| ==> s[j] != c
  {
    if |s| == 0 then None
    else if s[|s| - 1] == c then Some(|s| - 1)
    else LastIndexOf(s[..|s| - 1], c)
  }

  /** `isspace` in the C locale. */
  predicate IsSpace(c: char) {
    c == ' ' || c == '\t' || c == '\n' || c == '\U{0B}' || c == '\U{0C}' || c == '\r'
  }

  predicate IsDigit(c: char) {
    '0' <= c <= '9'
  }

  predicate AllDigits(s: string) {
    forall i :: 0 <= i < |s| ==> IsDigit(s[i])
  }

  function DigitValue(c: char): (d: nat)
    requires IsDigit(c)
    ensures d < 10
  {
    (c - '0') as nat
  }

  function DigitChar(d: nat): (c: char)
    requires d < 10
    ensures IsDigit(c) && DigitValue(c) == d
  {
    ('0' as int + d) as char
  }

  /** The value of a run of decimal digits, most significant first. */
  function DecimalValue(ds: string): nat
    requires AllDigits(ds)
  {
    if |ds| == 0 then 0
    else 10 * DecimalValue(ds[..|ds| - 1]) + DigitValue(ds[|ds| - 1])
  }

  /** The text after any leading white space. */
  function SkipSpaces(s: string): (r: string)
    ensures |r| <= |s| && r == s[|s| - |r|..]
    ensures |r| == 0 || !IsSpace(r[0])
    ensures forall i :: 0 <= i < |s| - |r| ==> IsSpace(s[i])
  {
    if |s| > 0 && IsSpace(s[0]) then SkipSpaces(s[1..]) else s
  }

  /** The longest prefix of `s` made of decimal digits. */
  function DigitPrefix(s: string): (r: string)
    ensures AllDigits(r) && |r| <= |s| && r == s[..|r|]
    ensures |r| == |s| || !IsDigit(s[|r|])
  {
    if |s| > 0 && IsDigit(s[0]) then [s[0]] + DigitPrefix(s[1..]) else []
  }

  /** `atoi(s)`: white space is skipped, one optional sign is read, and
      conversion stops at the first character that is not a digit; text
      without any digit converts to 0. The value is unbounded here. */
  function Atoi(s: string): int {
    var t := SkipSpaces(s);
    if |t| > 0 && t[0] == '-' then -(DecimalValue(DigitPrefix(t[1..])) as int)
    else if |t| > 0 && t[0] == '+' then DecimalValue(DigitPrefix(t[1..]))
    else DecimalValue(DigitPrefix(t))
  }

  /** The decimal rendering of `n`, without leading zeros. */
  function FormatNat(n: nat): (r: string)
    ensures |r| > 0 && AllDigits(r)
    ensures |r| > 1 ==> r[0] != '0'
  {
    if n < 10 then [DigitChar(n)] else FormatNat(n / 10) + [DigitChar(n % 10)]
  }

  function Pow10(k: nat): (r: nat)
    ensures r >= 1
  {
    if k == 0 then 1 else 10 * Pow10(k - 1)
  }

  /* ---------------------------------------------------------------- lemmas */

  /** Reading back the rendering of `n` gives `n`. */
  lemma {:induction false} DecimalValueOfFormat(n: nat)
    ensures DecimalValue(FormatNat(n)) == n
  {
    if n >= 10 {
      var f := FormatNat(n);
      assert f[..|f| - 1] == FormatNat(n / 10);
      DecimalValueOfFormat(n / 10);
    }
  }

  /** On a string made only of digits `DigitPrefix` takes everything, and it
      stops exactly at a following non-digit. */
  lemma {:induction false} DigitPrefixStopsAtNonDigit(ds: string, rest: string)
    requires AllDigits(ds)
    requires |rest| == 0 || !IsDigit(rest[0])
    ensures DigitPrefix(ds + rest) == ds
  {
    if |ds| > 0 {
      assert (ds + rest)[1..] == ds[1..] + rest;
      DigitPrefixStopsAtNonDigit(ds[1..], rest);
    } else {
      assert ds + rest == rest;
    }
  }

  /** Text that starts with a digit has no sign or white space to skip. */
  lemma AtoiStartingWithDigit(s: string)
    requires |s| > 0 && IsDigit(s[0])
    ensures Atoi(s) == DecimalValue(DigitPrefix(s))
  {
    assert !IsSpace(s[0]);
    assert SkipSpaces(s) == s;
    assert s[0] != '-' && s[0] != '+';
  }

  /** `atoi` reads a run of digits followed by anything that does not begin
      with a digit as the value of the digits alone. */
  lemma AtoiOfDigitsThenText(ds: string, rest: string)
    requires |ds| > 0 && AllDigits(ds)
    requires |rest| == 0 || !IsDigit(rest[0])
    ensures Atoi(ds + rest) == DecimalValue(ds)
  {
    assert (ds + rest)[0] == ds[0];
    AtoiStartingWithDigit(ds + rest);
    DigitPrefixStopsAtNonDigit(ds, rest);
  }

  /** Leading white space is skipped up to the first other character. */
  lemma {:induction false} SkipSpacesOverSpaces(sp: string, t: string)
    requires forall i :: 0 <= i < |sp| ==> IsSpace(sp[i])
    requires |t| == 0 || !IsSpace(t[0])
    ensures SkipSpaces(sp + t) == t
  {
    if |sp| > 0 {
      assert (sp + t)[0] == sp[0];
      assert (sp + t)[1..] == sp[1..] + t;
      SkipSpacesOverSpaces(sp[1..], t);
    } else {
      assert sp + t == t;
    }
  }

  /** `atoi` ignores leading white space. */
  lemma AtoiSkipsLeadingSpaces(sp: string, t: string)
    requires forall i :: 0 <= i < |sp| ==> IsSpace(sp[i])
    requires |t| == 0 || !IsSpace(t[0])
    ensures Atoi(sp + t) == Atoi(t)
  {
    SkipSpacesOverSpaces(sp, t);
    assert SkipSpaces(t) == t;
  }

  /** After a sign character, `atoi` reads the digits that follow. */
  lemma AtoiAfterSign(sign: char, ds: string, rest: string)
    requires sign == '-' || sign == '+'
    requires AllDigits(ds)
    requires |rest| == 0 || !IsDigit(rest[0])
    ensures Atoi([sign] + (ds + rest))
      == if sign == '-' then -(DecimalValue(ds) as int) else DecimalValue(ds)
  {
    var t := [sign] + (ds + rest);
    assert !IsSpace(t[0]);
    assert SkipSpaces(t) == t;
    assert t[1..] == ds + rest;
    DigitPrefixStopsAtNonDigit(ds, rest);
  }

  /** The general shape `atoi` accepts: white space, then an optional `-` or
      `+`, then digits, then anything not starting with a digit. The value is
      the digits' value, negated after a `-`. */
  lemma AtoiSignedDigits(sp: string, sign: string, ds: string, rest: string)
    requires forall i :: 0 <= i < |sp| ==> IsSpace(sp[i])
    requires sign == "" || sign == "-" || sign == "+"
    requires |ds| > 0 && AllDigits(ds)
    requires |rest| == 0 || !IsDigit(rest[0])
    ensures Atoi(sp + (sign + (ds + rest)))
      == if sign == "-" then -(DecimalValue(ds) as int) else DecimalValue(ds)
  {
    var t := sign + (ds + rest);
    var v := if sign == "-" then -(DecimalValue(ds) as int) else DecimalValue(ds);
    assert Atoi(t) == v by {
      if sign == "" {
        assert t == ds + rest;
        AtoiOfDigitsThenText(ds, rest);
      } else {
        assert t == [sign[0]] + (ds + rest);
        AtoiAfterSign(sign[0], ds, rest);
      }
    }
    assert !IsSpace(t[0]) by {
      assert t[0] == if sign == "" then ds[0] else sign[0];
    }
    AtoiSkipsLeadingSpaces(sp, t);
  }

  /** Text with no digit where a number could start converts to 0. */
  lemma AtoiWithoutDigits(s: string)
    requires |s| == 0 || (!IsDigit(s[0]) && !IsSpace(s[0]) && s[0] != '-' && s[0] != '+')
    ensures Atoi(s) == 0
  {
    assert SkipSpaces(s) == s;
  }

  /** `atoi` of a bare digit string is its decimal value. */
  lemma AtoiOfDigits(ds: string)
    requires |ds| > 0 && AllDigits(ds)
    ensures Atoi(ds) == DecimalValue(ds)
  {
    assert ds + [] == ds;
    AtoiOfDigitsThenText(ds, []);
  }

  /** Formatting a number and reading it back with `atoi` is the identity. */
  lemma AtoiFormatRoundTrip(n: nat)
    ensures Atoi(FormatNat(n)) == n
  {
    AtoiOfDigits(FormatNat(n));
    DecimalValueOfFormat(n);
  }

  /** A run of `k` digits is worth less than 10^k. */
  lemma {:induction false} DecimalValueBound(ds: string)
    requires AllDigits(ds)
    ensures DecimalValue(ds) < Pow10(|ds|)
  {
    if |ds| > 0 {
      DecimalValueBound(ds[..|ds| - 1]);
    }
  }

  /** A digit run of at most nine digits fits in a 32-bit `int`, so `atoi` on
      it never reaches the overflow that C leaves undefined. */
  lemma AtoiFitsInt32(ds: string)
    requires |ds| > 0 && AllDigits(ds) && |ds| <= 9
    ensures 0 <= Atoi(ds) < 0x8000_0000
  {
    AtoiOfDigits(ds);
    DecimalValueBound(ds);
    Pow10Monotone(|ds|, 9);
  }

  lemma {:induction false} Pow10Monotone(j: nat, k: nat)
    requires j <= k
    ensures Pow10(j) <= Pow10(k)
  {
    if j < k {
      Pow10Monotone(j, k - 1);
    }
  }

  /** Any TCP port renders in at most five digits. */
  lemma {:induction false} FormatNatLength(n: nat)
    ensures |FormatNat(n)| <= 1 || Pow10(|FormatNat(n)| - 1) <= n
    ensures n < Pow10(|FormatNat(n)|)
  {
    if n >= 10 {
      FormatNatLength(n / 10);
    }
  }

  lemma FormatPortLength(p: nat)
    requires p <= 65535
    ensures |FormatNat(p)| <= 5
  {
    FormatNatLength(p);
    if |FormatNat(p)| > 5 {
      Pow10Monotone(5, |FormatNat(p)| - 1);
      assert false;
    }
  }
}
