/** The JavaScript string operations the application relies on: lowering
    (`toLowerCase`), substring search (`includes`), `trim`, digit stripping
    (`replace(/\D/g, '')`), the decimal rendering of an integer inside a
    template literal, and `toFixed(2)` on a price held in cents. */
module Text {
  import opened Seqs

  // ---------------------------------------------------------------------
  // Case folding
  // ---------------------------------------------------------------------

  /** Upper-case letters of ASCII and of Latin-1 (which covers Portuguese
      names such as "JOÃO"); U+00D7 (the multiplication sign) is not a letter. */
  predicate IsUpper(c: char) {
    ('A' <= c <= 'Z') || ('\U{00C0}' <= c <= '\U{00DE}' && c != '\U{00D7}')
  }

  function LowerChar(c: char): (d: char)
    ensures IsUpper(c) ==> d as int == c as int + 32
    ensures !IsUpper(c) ==> d == c
    ensures !IsUpper(d)
  {
    if IsUpper(c) then (c as int + 32) as char else c
  }

  /** `s.toLowerCase()` on the upper-case letters `IsUpper` names. */
  function Lower(s: string): (r: string)
    ensures |r| == |s|
    ensures forall i :: 0 <= i < |s| ==> r[i] == LowerChar(s[i])
  {
    seq(|s|, i requires 0 <= i < |s| => LowerChar(s[i]))
  }

  /** Lowering a lowered string changes nothing, so matching on lowered
      strings is stable. */
  lemma LowerIdempotent(s: string)
    ensures Lower(Lower(s)) == Lower(s)
  {
  }

  // ---------------------------------------------------------------------
  // Substring search
  // ---------------------------------------------------------------------

  /** `t` occurs in `s` starting at position `i`. */
  predicate OccursAt(s: string, t: string, i: int) {
    0 <= i && i + |t| <= |s| && s[i..i + |t|] == t
  }

  /** `t` occurs at the end of `a + t`. */
  lemma OccursAtEnd(a: string, t: string)
    ensures OccursAt(a + t, t, |a|)
  {
    assert (a + t)[|a|..|a| + |t|] == t;
  }

  /** An occurrence survives appending to the string. */
  lemma OccursExtend(s: string, t: string, i: int, u: string)
    requires OccursAt(s, t, i)
    ensures OccursAt(s + u, t, i)
  {
    assert (s + u)[i..i + |t|] == s[i..i + |t|];
  }

  /** An occurrence moves by the length of what is prepended. */
  lemma OccursShift(u: string, s: string, t: string, i: int)
    requires OccursAt(s, t, i)
    ensures OccursAt(u + s, t, |u| + i)
  {
    assert (u + s)[|u| + i..|u| + i + |t|] == s[i..i + |t|];
  }

  /** The characters of `t` from position `k` on match those of `s` from
      `i + k` on (checked one character at a time). */
  predicate MatchesAt(s: string, t: string, i: nat, k: nat)
    requires i + |t| <= |s|
    decreases |t| - k
  {
    k >= |t| || (s[i + k] == t[k] && MatchesAt(s, t, i, k + 1))
  }

  lemma {:induction false} MatchesAtIff(s: string, t: string, i: nat, k: nat)
    requires i + |t| <= |s| && k <= |t|
    ensures MatchesAt(s, t, i, k) <==> s[i + k..i + |t|] == t[k..]
    decreases |t| - k
  {
    if k < |t| {
      MatchesAtIff(s, t, i, k + 1);
      assert s[i + k..i + |t|] == [s[i + k]] + s[i + k + 1..i + |t|];
      assert t[k..] == [t[k]] + t[k + 1..];
    }
  }

  /** `t` occurs in `s` at some position from `i` on. */
  predicate IncludesFrom(s: string, t: string, i: nat)
    decreases |s| - i
  {
    i + |t| <= |s| && (MatchesAt(s, t, i, 0) || IncludesFrom(s, t, i + 1))
  }

  lemma {:induction false} IncludesFromIff(s: string, t: string, i: nat)
    ensures IncludesFrom(s, t, i) <==> exists j :: i <= j && OccursAt(s, t, j)
    decreases |s| - i
  {
    if i + |t| <= |s| {
      MatchesAtIff(s, t, i, 0);
      IncludesFromIff(s, t, i + 1);
      if j :| i <= j && OccursAt(s, t, j) {
        if j == i {
          assert s[i + 0..i + |t|] == t[0..];
        } else {
          assert i + 1 <= j && OccursAt(s, t, j);
        }
      }
      if MatchesAt(s, t, i, 0) {
        assert s[i..i + |t|] == t;
        assert OccursAt(s, t, i);
      }
    }
  }

  /** `s.includes(t)`. */
  function Includes(s: string, t: string): (b: bool)
    ensures b <==> exists i :: OccursAt(s, t, i)
  {
    IncludesFromIff(s, t, 0);
    IncludesFrom(s, t, 0)
  }

  /** Every string includes the empty string, as in JavaScript. */
  lemma IncludesEmpty(s: string)
    ensures Includes(s, "")
  {
    assert OccursAt(s, "", 0);
  }

  // ---------------------------------------------------------------------
  // trim
  // ---------------------------------------------------------------------

  /** The characters `String.prototype.trim` removes: ECMAScript WhiteSpace
      (tab, vertical tab, form feed, space, no-break space, the byte order
      mark and every space separator of category Zs) and LineTerminator
      (line feed, carriage return, line and paragraph separators). */
  predicate IsTrimmable(c: char) {
    c == '\t' || c == '\U{000B}' || c == '\U{000C}' || c == ' ' || c == '\U{00A0}'
    || c == '\U{FEFF}' || c == '\U{1680}' || ('\U{2000}' <= c <= '\U{200A}')
    || c == '\U{202F}' || c == '\U{205F}' || c == '\U{3000}'
    || c == '\n' || c == '\r' || c == '\U{2028}' || c == '\U{2029}'
  }

  function TrimStart(s: string): (r: string)
    ensures |r| <= |s| && r == s[|s| - |r|..]
    ensures r != [] ==> !IsTrimmable(r[0])
    ensures forall i :: 0 <= i < |s| - |r| ==> IsTrimmable(s[i])
  {
    if s != [] && IsTrimmable(s[0]) then TrimStart(s[1..]) else s
  }

  function TrimEnd(s: string): (r: string)
    ensures |r| <= |s| && r == s[..|r|]
    ensures r != [] ==> !IsTrimmable(r[|r| - 1])
    ensures forall i :: |r| <= i < |s| ==> IsTrimmable(s[i])
  {
    if s != [] && IsTrimmable(s[|s| - 1]) then TrimEnd(s[..|s| - 1]) else s
  }

  /** `s.trim()`. */
  function Trim(s: string): (r: string)
    ensures |r| <= |s|
    ensures r != [] ==> !IsTrimmable(r[0]) && !IsTrimmable(r[|r| - 1])
  {
    var a := TrimStart(s);
    var r := TrimEnd(a);
    assert r != [] ==> r[0] == a[0];
    r
  }

  /** Trimming leaves nothing exactly when every character is trimmable. */
  lemma TrimEmptyIff(s: string)
    ensures Trim(s) == "" <==> forall i :: 0 <= i < |s| ==> IsTrimmable(s[i])
  {
    var a := TrimStart(s);
    if Trim(s) == "" {
      assert a == [];
    } else {
      var r := Trim(s);
      assert r == a[..|r|];
      assert !IsTrimmable(s[|s| - |a|]);
    }
  }

  // ---------------------------------------------------------------------
  // Digits
  // ---------------------------------------------------------------------

  /** `\d` in a JavaScript regular expression: an ASCII decimal digit. */
  predicate IsDigit(c: char) {
    '0' <= c <= '9'
  }

  predicate AllDigits(s: string) {
    forall i :: 0 <= i < |s| ==> IsDigit(s[i])
  }

  /** `phone.replace(/\D/g, '')`: every non-digit deleted. */
  function CleanPhone(phone: string): (r: string)
    ensures AllDigits(r)
    ensures |r| <= |phone|
  {
    Filter(phone, IsDigit)
  }

  /** The cleaned phone keeps exactly the digits of the input: each digit as
      often as it occurs, no other character, and in the original order. */
  lemma CleanPhoneKeepsDigits(phone: string, c: char)
    ensures multiset(CleanPhone(phone))[c] == if IsDigit(c) then multiset(phone)[c] else 0
    ensures IsSubsequence(CleanPhone(phone), phone)
  {
    FilterCount(phone, IsDigit, c);
    FilterIsSubsequence(phone, IsDigit);
  }

  /** Cleaning a cleaned number changes nothing. */
  lemma CleanPhoneIdempotent(phone: string)
    ensures CleanPhone(CleanPhone(phone)) == CleanPhone(phone)
  {
    FilterIdempotent(phone, IsDigit);
  }

  // ---------------------------------------------------------------------
  // Decimal rendering of integers, and its inverse
  // ---------------------------------------------------------------------

  function DigitChar(d: nat): (c: char)
    requires d < 10
    ensures IsDigit(c) && DigitValue(c) == d
  {
    ('0' as int + d) as char
  }

  function DigitValue(c: char): (d: nat)
    requires IsDigit(c)
    ensures d < 10
  {
    c as int - '0' as int
  }

  /** The decimal digits of `n`, without leading zeros. */
  function NatToString(n: nat): (s: string)
    ensures |s| >= 1 && AllDigits(s)
    ensures n >= 10 ==> s[0] != '0'
  {
    if n < 10 then [DigitChar(n)]
    else NatToString(n / 10) + [DigitChar(n % 10)]
  }

  /** The number a string of decimal digits denotes. */
  function DigitsValue(s: string): nat
    requires AllDigits(s)
  {
    if s == [] then 0
    else DigitsValue(s[..|s| - 1]) * 10 + DigitValue(s[|s| - 1])
  }

  /** Reading back the rendered digits gives the number. */
  lemma {:induction false} NatToStringRoundTrip(n: nat)
    ensures DigitsValue(NatToString(n)) == n
  {
    var s := NatToString(n);
    if n >= 10 {
      NatToStringRoundTrip(n / 10);
      assert s[..|s| - 1] == NatToString(n / 10);
    }
  }

  /** `${i}` for an integer-valued JavaScript number. */
  function IntToString(i: int): (s: string)
    ensures |s| >= 1
    ensures i >= 0 ==> AllDigits(s) && DigitsValue(s) == i
    ensures i < 0 ==> s[0] == '-' && AllDigits(s[1..]) && DigitsValue(s[1..]) == -i
  {
    if i < 0 then
      NatToStringRoundTrip(-i);
      assert ("-" + NatToString(-i))[1..] == NatToString(-i);
      "-" + NatToString(-i)
    else
      NatToStringRoundTrip(i);
      NatToString(i)
  }

  /** Distinct integers render as distinct strings. */
  lemma IntToStringInjective(i: int, j: int)
    requires IntToString(i) == IntToString(j)
    ensures i == j
  {
  }

  // ---------------------------------------------------------------------
  // Prices
  // ---------------------------------------------------------------------

  /** `(cents / 100).toFixed(2)` for a non-negative amount held in cents:
      the whole units, a point, and exactly two digits of cents. */
  function FormatCents(cents: nat): (s: string)
    ensures |s| >= 4 && s[|s| - 3] == '.'
  {
    NatToString(cents / 100) + "." + [DigitChar(cents % 100 / 10), DigitChar(cents % 10)]
  }

  lemma TwoDigitsValue(d1: nat, d0: nat)
    requires d1 < 10 && d0 < 10
    ensures DigitsValue([DigitChar(d1), DigitChar(d0)]) == d1 * 10 + d0
  {
    var s := [DigitChar(d1), DigitChar(d0)];
    var h := [DigitChar(d1)];
    assert h[..0] == [];
    assert DigitsValue(h) == d1;
    assert s[..1] == h;
    assert DigitsValue(s) == DigitsValue(h) * 10 + DigitValue(DigitChar(d0));
  }

  /** Reads a rendered price back into cents. */
  function ParseCents(s: string): nat
    requires |s| >= 4 && s[|s| - 3] == '.'
    requires AllDigits(s[..|s| - 3]) && AllDigits(s[|s| - 2..])
  {
    DigitsValue(s[..|s| - 3]) * 100 + DigitsValue(s[|s| - 2..])
  }

  /** The rendered price denotes exactly the amount it was made from. */
  lemma FormatCentsRoundTrip(cents: nat)
    ensures var s := FormatCents(cents);
            AllDigits(s[..|s| - 3]) && AllDigits(s[|s| - 2..]) && ParseCents(s) == cents
  {
    var s := FormatCents(cents);
    var whole := NatToString(cents / 100);
    assert s[..|s| - 3] == whole;
    NatToStringRoundTrip(cents / 100);
    var frac := s[|s| - 2..];
    assert frac == [DigitChar(cents % 100 / 10), DigitChar(cents % 10)];
    TwoDigitsValue(cents % 100 / 10, cents % 10);
  }
}
