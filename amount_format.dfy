/** `formatTokenAmount`/`parseTokenAmount` and their SOL variants: amounts in
    base units written as decimal text with a given number of decimals. */
module AmountFormat {
  import opened Base
  import opened Decimal
  import Arith

  const SOL_DECIMALS: nat := 9

  /** `formatTokenAmount`: the whole part, then, unless the amount is whole,
      a `'.'` and the fraction digits without trailing zeros. */
  function FormatTokenAmount(amount: int, decimals: nat): string {
    var divisor := Pow10(decimals);
    var quotient := TruncDiv(amount, divisor);
    var remainder := TruncMod(amount, divisor);
    if remainder == 0 then IntToString(quotient)
    else
      var remainderStr := PadStart(IntToString(remainder), decimals, '0');
      IntToString(quotient) + "." + TrimTrailingZeros(remainderStr)
  }

  /** `parseTokenAmount`: the text before the first `'.'` (`"0"` when
      empty) followed by the text up to the second `'.'`, cut or padded to
      `decimals` digits, read as one integer. `None` where bn.js throws. */
  function ParseTokenAmount(amount: string, decimals: nat): Option<int> {
    var parts := Split(amount, '.');
    var wholePart := if parts[0] == "" then "0" else parts[0];
    var fractionalPart := if |parts| > 1 then parts[1] else "";
    var paddedFractional := PadEnd(fractionalPart, decimals, '0')[..decimals];
    ParseBN(wholePart + paddedFractional)
  }

  function FormatSolAmount(lamports: int): string {
    FormatTokenAmount(lamports, SOL_DECIMALS)
  }

  function ParseSolAmount(sol: string): Option<int> {
    ParseTokenAmount(sol, SOL_DECIMALS)
  }

  /** The base units that fraction digits `f` stand for at `d` decimals:
      digits beyond the `d`-th are dropped, missing ones count as zeros. */
  function FractionValue(f: string, d: nat): nat
    requires AllDigits(f)
  {
    if |f| >= d then DigitsValue(f[..d]) else DigitsValue(f) * Pow10(d - |f|)
  }

  lemma NoDotInDigits(s: string)
    requires AllDigits(s)
    ensures '.' !in s
  {
  }

  /** A non-zero remainder below `10^d`, padded to `d` digits. */
  lemma PaddedRemainder(r: nat, d: nat)
    requires 0 < r < Pow10(d)
    ensures var p := PadStart(NatToString(r), d, '0');
            |p| == d && AllDigits(p) && DigitsValue(p) == r
  {
    assert d >= 1;
    NatToStringLength(r, d);
    var rs := NatToString(r);
    LeadingZeros(d - |rs|, rs);
    assert PadStart(rs, d, '0') == Repeat('0', d - |rs|) + rs;
  }

  /** The whole units of a non-negative amount. */
  function WholeUnits(amount: nat, decimals: nat): nat {
    Arith.DivMod(amount, Pow10(decimals));
    amount / Pow10(decimals)
  }

  /** The base units left over after the whole units. */
  function FractionUnits(amount: nat, decimals: nat): (r: nat)
    ensures r < Pow10(decimals)
  {
    Arith.DivMod(amount, Pow10(decimals));
    amount % Pow10(decimals)
  }

  /** For a non-negative amount the truncating quotient and remainder are
      the floor ones. */
  lemma FormatNonNegative(amount: nat, decimals: nat)
    ensures var q, r := WholeUnits(amount, decimals), FractionUnits(amount, decimals);
            amount == q * Pow10(decimals) + r
            && (r == 0 ==> FormatTokenAmount(amount, decimals) == NatToString(q))
            && (r != 0 ==> FormatTokenAmount(amount, decimals)
                           == NatToString(q) + "." + FractionText(r, decimals))
  {
    var divisor := Pow10(decimals);
    Arith.DivMod(amount, divisor);
    assert TruncDiv(amount, divisor) == amount / divisor;
    assert TruncMod(amount, divisor) == amount % divisor;
  }

  /** The fraction digits written for a remainder: padded to `decimals`
      digits, trailing zeros removed. */
  function FractionText(r: nat, decimals: nat): string {
    TrimTrailingZeros(PadStart(NatToString(r), decimals, '0'))
  }

  /** The written fraction of a non-zero remainder: between one and
      `decimals` digits, the last not `'0'`, and padded back with zeros it
      denotes the remainder. */
  lemma WrittenFraction(r: nat, decimals: nat)
    requires 0 < r < Pow10(decimals)
    ensures var f := FractionText(r, decimals);
            && 1 <= |f| <= decimals && AllDigits(f) && f[|f| - 1] != '0'
            && FractionValue(f, decimals) == r
  {
    PaddedRemainder(r, decimals);
    TrimmedFraction(PadStart(NatToString(r), decimals, '0'), r, decimals);
  }

  /** Trimming the zeros of `d` digits that denote a non-zero `r` leaves
      digits whose `FractionValue` at `d` decimals is `r`. */
  lemma TrimmedFraction(p: string, r: nat, d: nat)
    requires |p| == d && AllDigits(p) && DigitsValue(p) == r && r != 0
    ensures var f := TrimTrailingZeros(p);
            && 1 <= |f| <= d && AllDigits(f) && f[|f| - 1] != '0'
            && FractionValue(f, d) == r
  {
    TrimmedDigits(p);
    PaddedBack(TrimTrailingZeros(p), p, d);
  }

  /** Digits padded with zeros to exactly `d` digits denote their
      `FractionValue`. */
  lemma PaddedBack(f: string, p: string, d: nat)
    requires AllDigits(f) && AllDigits(p) && |f| <= d && PadEnd(f, d, '0') == p
    ensures FractionValue(f, d) == DigitsValue(p)
  {
    if |f| < d {
      assert f + Repeat('0', d - |f|) == p;
      TrailingZeros(f, d - |f|);
    } else {
      assert f[..d] == p;
    }
  }

  /** A whole amount is written as its whole number of units alone. */
  lemma FormatWholeAmount(amount: nat, decimals: nat)
    requires FractionUnits(amount, decimals) == 0
    ensures FormatTokenAmount(amount, decimals) == NatToString(WholeUnits(amount, decimals))
    ensures '.' !in FormatTokenAmount(amount, decimals)
  {
    FormatNonNegative(amount, decimals);
    NoDotInDigits(NatToString(WholeUnits(amount, decimals)));
  }

  /** Trimming the zeros of a non-zero digit string leaves a non-empty digit
      string that, padded back, is the original. */
  lemma TrimmedDigits(p: string)
    requires AllDigits(p) && DigitsValue(p) != 0
    ensures var f := TrimTrailingZeros(p);
            && 1 <= |f| && AllDigits(f) && f[|f| - 1] != '0'
            && PadEnd(f, |p|, '0') == p
  {
    var f := TrimTrailingZeros(p);
    assert forall i :: 0 <= i < |f| ==> f[i] == p[i];
  }

  /** Parsing digits with no fraction: the whole units, scaled. */
  lemma ParseWhole(w: string, decimals: nat)
    requires AllDigits(w) && w != ""
    ensures ParseTokenAmount(w, decimals) == Some(DigitsValue(w) * Pow10(decimals))
  {
    NoDotInDigits(w);
    SplitWithout(w, '.');
    TrailingZeros(w, decimals);
    assert PadEnd("", decimals, '0')[..decimals] == Repeat('0', decimals);
  }

  /** Which text `parseTokenAmount` reads as a number for `w.f`. */
  lemma ParseParts(w: string, f: string, decimals: nat)
    requires '.' !in w && '.' !in f && w != ""
    ensures ParseTokenAmount(w + "." + f, decimals) == ParseBN(w + PadEnd(f, decimals, '0')[..decimals])
  {
    SplitAt(w, '.', f);
    SplitWithout(f, '.');
    assert w + "." + f == w + ['.'] + f;
  }

  /** The fraction digits, cut or padded to `decimals`, denote
      `FractionValue`. */
  lemma PaddedFraction(f: string, decimals: nat)
    requires AllDigits(f)
    ensures var padded := PadEnd(f, decimals, '0')[..decimals];
            |padded| == decimals && AllDigits(padded) && DigitsValue(padded) == FractionValue(f, decimals)
  {
    var padded := PadEnd(f, decimals, '0')[..decimals];
    if |f| >= decimals {
      assert padded == f[..decimals];
    } else {
      assert padded == f + Repeat('0', decimals - |f|);
      TrailingZeros(f, decimals - |f|);
    }
  }

  /** Parsing `w.f`: the fraction is cut off after `decimals` digits, with
      no rounding, and padded with zeros when shorter. */
  lemma ParseWholeAndFraction(w: string, f: string, decimals: nat)
    requires AllDigits(w) && w != "" && AllDigits(f)
    ensures ParseTokenAmount(w + "." + f, decimals)
            == Some(DigitsValue(w) * Pow10(decimals) + FractionValue(f, decimals))
  {
    NoDotInDigits(w);
    NoDotInDigits(f);
    ParseParts(w, f, decimals);
    ParsePaddedDigits(w, f, decimals);
  }

  lemma ParsePaddedDigits(w: string, f: string, decimals: nat)
    requires AllDigits(w) && AllDigits(f)
    ensures ParseBN(w + PadEnd(f, decimals, '0')[..decimals])
            == Some(DigitsValue(w) * Pow10(decimals) + FractionValue(f, decimals))
  {
    var padded := PadEnd(f, decimals, '0')[..decimals];
    assert |padded| == decimals && AllDigits(padded) && DigitsValue(padded) == FractionValue(f, decimals) by {
      PaddedFraction(f, decimals);
    }
    ParseConcatenation(w, padded);
  }

  /** An empty whole part reads as `"0"`. */
  lemma ParseLeadingDot(f: string, decimals: nat)
    requires AllDigits(f)
    ensures ParseTokenAmount("." + f, decimals) == ParseTokenAmount("0." + f, decimals)
  {
    SplitAt("", '.', f);
    SplitAt("0", '.', f);
    assert "." + f == "" + ['.'] + f;
    assert "0." + f == "0" + ['.'] + f;
  }

  /** Text with no `'.'` made of whitespace alone is refused, not read
      as 0, when no fraction digits are padded onto it. */
  lemma ParseBlankWhole(w: string)
    requires w != "" && forall i :: 0 <= i < |w| ==> IsJsSpace(w[i])
    ensures ParseTokenAmount(w, 0) == None
  {
    assert !IsJsSpace('.');
    assert '.' !in w;
    SplitWithout(w, '.');
    assert w + PadEnd("", 0, '0')[..0] == w;
    ParseBNRejectsBlank(w);
  }

  /** Formatting and parsing at the same number of decimals gives the
      amount back, for every non-negative amount. */
  lemma FormatThenParse(amount: nat, decimals: nat)
    ensures ParseTokenAmount(FormatTokenAmount(amount, decimals), decimals) == Some(amount)
  {
    FormatNonNegative(amount, decimals);
    var q, r := WholeUnits(amount, decimals), FractionUnits(amount, decimals);
    if r == 0 {
      ParseWhole(NatToString(q), decimals);
    } else {
      WrittenFraction(r, decimals);
      ParseWholeAndFraction(NatToString(q), FractionText(r, decimals), decimals);
    }
  }

  /** The SOL helpers round-trip every lamport amount. */
  lemma SolRoundTrip(lamports: nat)
    ensures ParseSolAmount(FormatSolAmount(lamports)) == Some(lamports)
  {
    FormatThenParse(lamports, SOL_DECIMALS);
  }
}
