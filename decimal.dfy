/** Decimal digit strings: the JavaScript string operations the SDK's amount
    helpers use (`toString`, `split`, `padStart`, `padEnd`, a trailing-zero
    regular expression) and the string constructor of bn.js. */
module Decimal {
  import opened Base

  predicate IsDigit(c: char) {
    '0' <= c <= '9'
  }

  predicate AllDigits(s: string) {
    forall i :: 0 <= i < |s| ==> IsDigit(s[i])
  }

  function DigitChar(d: nat): (c: char)
    requires d < 10
    ensures IsDigit(c)
  {
    ('0' as int + d) as char
  }

  /** The number a digit string denotes, most significant digit first. */
  function DigitsValue(s: string): nat
    requires AllDigits(s)
    decreases |s|
  {
    if s == [] then 0
    else DigitsValue(s[..|s| - 1]) * 10 + (s[|s| - 1] as int - '0' as int)
  }

  /** `n` characters `c`. */
  function Repeat(c: char, n: nat): (r: string)
    ensures |r| == n && forall i :: 0 <= i < n ==> r[i] == c
  {
    if n == 0 then [] else [c] + Repeat(c, n - 1)
  }

  /** The decimal text of a natural number: digits only, at least one, and
      denoting the number. */
  function NatToString(n: nat): (s: string)
    ensures |s| >= 1 && AllDigits(s) && DigitsValue(s) == n
    decreases n
  {
    if n < 10 then [DigitChar(n)]
    else
      var prefix := NatToString(n / 10);
      var s := prefix + [DigitChar(n % 10)];
      assert s[..|s| - 1] == prefix;
      s
  }


  lemma {:induction false} DigitsValueAppend(a: string, b: string)
    requires AllDigits(a) && AllDigits(b)
    ensures AllDigits(a + b)
    ensures DigitsValue(a + b) == DigitsValue(a) * Pow10(|b|) + DigitsValue(b)
    decreases |b|
  {
    var ab := a + b;
    assert AllDigits(ab) by {
      forall i | 0 <= i < |ab| ensures IsDigit(ab[i]) {
        if i < |a| { assert ab[i] == a[i]; } else { assert ab[i] == b[i - |a|]; }
      }
    }
    if b != [] {
      var b' := b[..|b| - 1];
      assert ab[..|ab| - 1] == a + b';
      assert ab[|ab| - 1] == b[|b| - 1];
      DigitsValueAppend(a, b');
      var va, vb', p, l := DigitsValue(a), DigitsValue(b'), Pow10(|b'|), b[|b| - 1] as int - '0' as int;
      assert DigitsValue(ab) == (va * p + vb') * 10 + l;
      assert DigitsValue(b) == vb' * 10 + l;
      assert Pow10(|b|) == p * 10;
      ShiftDigit(va, p, vb', l);
      assert va * Pow10(|b|) == va * (p * 10);
    } else {
      assert ab == a;
    }
  }

  lemma ShiftDigit(high: int, scale: int, low: int, digit: int)
    ensures (high * scale + low) * 10 + digit == high * (scale * 10) + (low * 10 + digit)
  {
  }

  lemma {:induction false} ZerosValue(n: nat)
    ensures AllDigits(Repeat('0', n)) && DigitsValue(Repeat('0', n)) == 0
  {
    if n > 0 {
      var z := Repeat('0', n);
      assert z[..n - 1] == Repeat('0', n - 1);
      ZerosValue(n - 1);
    }
  }

  /** Leading zeros do not change the value. */
  lemma LeadingZeros(k: nat, s: string)
    requires AllDigits(s)
    ensures AllDigits(Repeat('0', k) + s) && DigitsValue(Repeat('0', k) + s) == DigitsValue(s)
  {
    ZerosValue(k);
    DigitsValueAppend(Repeat('0', k), s);
  }

  /** Trailing zeros scale the value by a power of ten. */
  lemma TrailingZeros(s: string, k: nat)
    requires AllDigits(s)
    ensures AllDigits(s + Repeat('0', k)) && DigitsValue(s + Repeat('0', k)) == DigitsValue(s) * Pow10(k)
  {
    ZerosValue(k);
    DigitsValueAppend(s, Repeat('0', k));
  }

  /** A digit string is below the power of ten of its length. */
  lemma {:induction false} DigitsValueBound(s: string)
    requires AllDigits(s)
    ensures DigitsValue(s) < Pow10(|s|)
    decreases |s|
  {
    if s != [] {
      var s' := s[..|s| - 1];
      assert AllDigits(s');
      DigitsValueBound(s');
    }
  }

  /** The text of a number below `10^d` has at most `d` digits. */
  lemma {:induction false} NatToStringLength(n: nat, d: nat)
    requires d >= 1 && n < Pow10(d)
    ensures |NatToString(n)| <= d
    decreases n
  {
    if n >= 10 {
      assert d >= 2;
      assert n / 10 < Pow10(d - 1);
      NatToStringLength(n / 10, d - 1);
    }
  }

  /** JavaScript `padStart` with a one-character pad. */
  function PadStart(s: string, n: nat, c: char): (r: string)
    ensures |s| >= n ==> r == s
    ensures |s| < n ==> |r| == n && r[n - |s|..] == s && r[..n - |s|] == Repeat(c, n - |s|)
  {
    if |s| >= n then s else Repeat(c, n - |s|) + s
  }

  /** JavaScript `padEnd` with a one-character pad. */
  function PadEnd(s: string, n: nat, c: char): (r: string)
    ensures |s| >= n ==> r == s
    ensures |s| < n ==> |r| == n && r[..|s|] == s && r[|s|..] == Repeat(c, n - |s|)
  {
    if |s| >= n then s else s + Repeat(c, n - |s|)
  }

  /** `s.replace(/0+$/, '')`: the maximal run of trailing `'0'` removed. */
  function TrimTrailingZeros(s: string): (r: string)
    ensures |r| <= |s| && s == r + Repeat('0', |s| - |r|)
    ensures r == [] || r[|r| - 1] != '0'
    decreases |s|
  {
    if s != [] && s[|s| - 1] == '0' then
      var r := TrimTrailingZeros(s[..|s| - 1]);
      assert Repeat('0', |s| - |r|) == Repeat('0', |s| - 1 - |r|) + ['0'];
      r
    else s
  }

  /** JavaScript `s.split(sep)` for a one-character separator. */
  function Split(s: string, sep: char): (parts: seq<string>)
    ensures |parts| >= 1
    decreases |s|
  {
    if s == [] then [""]
    else
      var rest := Split(s[1..], sep);
      if s[0] == sep then [""] + rest
      else [[s[0]] + rest[0]] + rest[1..]
  }

  lemma {:induction false} SplitWithout(s: string, sep: char)
    requires sep !in s
    ensures Split(s, sep) == [s]
    decreases |s|
  {
    if s != [] {
      SplitWithout(s[1..], sep);
      assert [s[0]] + s[1..] == s;
    }
  }

  lemma {:induction false} SplitAt(a: string, sep: char, b: string)
    requires sep !in a
    ensures Split(a + [sep] + b, sep) == [a] + Split(b, sep)
    decreases |a|
  {
    var s := a + [sep] + b;
    if a == [] {
      assert s[1..] == b;
    } else {
      assert s[1..] == a[1..] + [sep] + b;
      SplitAt(a[1..], sep, b);
      assert [a[0]] + a[1..] == a;
    }
  }

  /** What JavaScript's `\s` matches. */
  predicate IsJsSpace(c: char) {
    var k := c as int;
    || 9 <= k <= 13 || k == 0x20 || k == 0xA0 || k == 0x1680 || 0x2000 <= k <= 0x200A
    || k == 0x2028 || k == 0x2029 || k == 0x202F || k == 0x205F || k == 0x3000 || k == 0xFEFF
  }

  /** `s.replace(/\s+/g, '')`. */
  function RemoveSpaces(s: string): (r: string)
    ensures |r| <= |s|
    ensures AllDigits(s) ==> r == s
    decreases |s|
  {
    if s == [] then []
    else
      var rest := RemoveSpaces(s[1..]);
      assert AllDigits(s) ==> AllDigits(s[1..]);
      var r := if IsJsSpace(s[0]) then rest else [s[0]] + rest;
      assert AllDigits(s) ==> r == [s[0]] + s[1..];
      r
  }

  /** Removing the whitespace keeps every other character. */
  lemma {:induction false} RemoveSpacesKeeps(s: string, i: nat)
    requires i < |s| && !IsJsSpace(s[i])
    ensures s[i] in RemoveSpaces(s)
    decreases |s|
  {
    if i > 0 {
      RemoveSpacesKeeps(s[1..], i - 1);
    }
  }

  /** Removing the whitespace adds no character. */
  lemma {:induction false} RemoveSpacesDrops(s: string, c: char)
    requires c in RemoveSpaces(s)
    ensures c in s && !IsJsSpace(c)
    decreases |s|
  {
    if s != [] && c in RemoveSpaces(s[1..]) {
      RemoveSpacesDrops(s[1..], c);
    }
  }

  /** `new BN(s)` (base 10) of bn.js 5.2: whitespace is dropped, a leading
      `'-'` negates, and any other non-digit throws (`None`). Only the empty
      string itself is 0; a non-empty string with nothing left once the
      whitespace is gone, like `"-"`, leaves bn.js with a malformed value,
      here `None`. */
  function ParseBN(s: string): (r: Option<int>)
    ensures AllDigits(s) ==> r == Some(DigitsValue(s))
  {
    var t := RemoveSpaces(s);
    if t == "-" || (t == "" && s != "") then None
    else if |t| > 0 && t[0] == '-' then
      (if AllDigits(t[1..]) then Some(-(DigitsValue(t[1..]) as int)) else None)
    else if AllDigits(t) then Some(DigitsValue(t))
    else None
  }

  /** The decimal text of an integer, as bn.js `toString()` and JavaScript
      template strings write integers: bn.js reads it back as the same
      number, and it is a plain digit string exactly when the number is not
      negative. */
  function IntToString(x: int): (s: string)
    ensures ParseBN(s) == Some(x)
    ensures AllDigits(s) <==> x >= 0
    ensures |s| >= 1
  {
    if x < 0 then
      var digits := NatToString(-x);
      var s := "-" + digits;
      assert s[1..] == digits;
      assert !IsJsSpace('-');
      assert RemoveSpaces(s) == s;
      assert !IsDigit(s[0]);
      s
    else NatToString(x)
  }

  /** Two digit strings written one after the other read as one number. */
  lemma ParseConcatenation(a: string, b: string)
    requires AllDigits(a) && AllDigits(b)
    ensures ParseBN(a + b) == Some(DigitsValue(a) * Pow10(|b|) + DigitsValue(b))
  {
    DigitsValueAppend(a, b);
  }

  /** Removing the whitespace from a string of whitespace leaves nothing. */
  lemma {:induction false} RemoveSpacesOfBlank(s: string)
    requires forall i :: 0 <= i < |s| ==> IsJsSpace(s[i])
    ensures RemoveSpaces(s) == ""
    decreases |s|
  {
    if s != [] {
      RemoveSpacesOfBlank(s[1..]);
    }
  }

  /** A non-empty string of whitespace alone is refused, as `"-"` is. */
  lemma ParseBNRejectsBlank(s: string)
    requires s != "" && forall i :: 0 <= i < |s| ==> IsJsSpace(s[i])
    ensures ParseBN(s) == None
  {
    RemoveSpacesOfBlank(s);
  }

  /** A character other than a digit, `'-'` or whitespace makes bn.js
      throw. */
  lemma ParseBNRejects(s: string, i: nat)
    requires i < |s| && !IsJsSpace(s[i]) && !IsDigit(s[i]) && s[i] != '-'
    ensures ParseBN(s) == None
  {
    RemoveSpacesKeeps(s, i);
    var t := RemoveSpaces(s);
    var k :| 0 <= k < |t| && t[k] == s[i];
    if |t| > 0 && t[0] == '-' {
      assert k > 0 && t[1..][k - 1] == t[k];
    }
  }
}
