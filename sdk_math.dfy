/** The SDK's quote mirror (`sdk/src/utils/math.ts`): the swap formula on
    arbitrary-precision bn.js integers, and the integer parts of the price
    and price-impact helpers. bn.js `div` truncates toward zero and throws
    on a zero divisor (`None`); `toNumber` throws from 2^53 in magnitude. */
module SdkMath {
  import opened Base
  import opened Arith
  import SwapMath

  /** What `calculateBuyAmount` returns: the tokens out and a fee field. */
  datatype BuyAmount = BuyAmount(tokenAmount: int, fee: int)

  /** What `calculateSellAmount` returns: the lamports out and a fee field. */
  datatype SellAmount = SellAmount(solAmount: int, fee: int)

  /** The first magnitude bn.js `toNumber` refuses. */
  const SAFE_NUMBER_LIMIT: int := 0x20_0000_0000_0000

  /** bn.js `toNumber`, on integers: the value when it fits 53 bits. */
  function ToNumber(v: int): (r: Option<int>)
    ensures r.Some? <==> -SAFE_NUMBER_LIMIT < v < SAFE_NUMBER_LIMIT
    ensures r.Some? ==> r.value == v
  {
    if v <= -SAFE_NUMBER_LIMIT || v >= SAFE_NUMBER_LIMIT then None else Some(v)
  }

  /** `calculateBuyAmount`: the constant-product output with no overflow
      checks; the fee is left to the caller and the real reserves are not
      read. */
  function CalculateBuyAmount(solAmountAfterFee: int, currentSolReserves: int, currentTokenReserves: int,
                              realSolReserves: int, realTokenReserves: int): (r: Option<BuyAmount>)
    ensures r.Some? <==> currentSolReserves + solAmountAfterFee != 0
    ensures r.Some? ==> r.value.fee == 0
  {
    var k := currentSolReserves * currentTokenReserves;
    var newSolReserves := currentSolReserves + solAmountAfterFee;
    if newSolReserves == 0 then None
    else
      var newTokenReserves := TruncDiv(k, newSolReserves);
      Some(BuyAmount(currentTokenReserves - newTokenReserves, 0))
  }

  /** `calculateSellAmount`: the same formula with the token side as
      input. */
  function CalculateSellAmount(tokenAmountIn: int, currentTokenReserves: int, currentSolReserves: int,
                               realTokenReserves: int, realSolReserves: int): (r: Option<SellAmount>)
    ensures r.Some? <==> currentTokenReserves + tokenAmountIn != 0
    ensures r.Some? ==> r.value.fee == 0
  {
    var k := currentTokenReserves * currentSolReserves;
    var newTokenReserves := currentTokenReserves + tokenAmountIn;
    if newTokenReserves == 0 then None
    else
      var newSolReserves := TruncDiv(k, newTokenReserves);
      Some(SellAmount(currentSolReserves - newSolReserves, 0))
  }

  /** On `u64` inputs the SDK's buy quote is the program's: it fails
      exactly where the program reports `Overflow`, and otherwise returns
      the program's token amount. */
  lemma BuyAmountMatchesProgram(a: U64, solReserves: U64, tokenReserves: U64, realSol: int, realToken: int)
    ensures var sdk := CalculateBuyAmount(a, solReserves, tokenReserves, realSol, realToken);
            var program := SwapMath.CalculateBuyAmount(a, solReserves, tokenReserves);
            && (sdk.Some? <==> program.Ok?)
            && (sdk.Some? ==> sdk.value.tokenAmount == program.value)
  {
    if solReserves + a > 0 {
      SwapMath.BuyAmountExact(a, solReserves, tokenReserves);
      ProductNonNegative(solReserves, tokenReserves);
    }
  }

  /** On `u64` inputs the SDK's sell quote is the program's. */
  lemma SellAmountMatchesProgram(t: U64, tokenReserves: U64, solReserves: U64, realToken: int, realSol: int)
    ensures var sdk := CalculateSellAmount(t, tokenReserves, solReserves, realToken, realSol);
            var program := SwapMath.CalculateSellAmount(t, tokenReserves, solReserves);
            && (sdk.Some? <==> program.Ok?)
            && (sdk.Some? ==> sdk.value.solAmount == program.value)
  {
    SwapMath.SellIsBuyWithRolesSwapped(t, tokenReserves, solReserves);
    BuyAmountMatchesProgram(t, tokenReserves, solReserves, realToken, realSol);
    SellIsBuyWithRolesSwapped(t, tokenReserves, solReserves, realToken, realSol);
  }

  lemma ProductNonNegative(a: nat, b: nat)
    ensures a * b >= 0
  {
  }

  /** A sell quote is a buy quote with the reserves' roles swapped. */
  lemma SellIsBuyWithRolesSwapped(t: int, tokenReserves: int, solReserves: int, realToken: int, realSol: int)
    ensures var sell := CalculateSellAmount(t, tokenReserves, solReserves, realToken, realSol);
            var buy := CalculateBuyAmount(t, tokenReserves, solReserves, realToken, realSol);
            && (sell.Some? <==> buy.Some?)
            && (sell.Some? ==> sell.value.solAmount == buy.value.tokenAmount)
  {
  }

  /** The real-reserve arguments make no difference. */
  lemma RealReservesIgnored(a: int, solReserves: int, tokenReserves: int,
                            realSol1: int, realToken1: int, realSol2: int, realToken2: int)
    ensures CalculateBuyAmount(a, solReserves, tokenReserves, realSol1, realToken1)
            == CalculateBuyAmount(a, solReserves, tokenReserves, realSol2, realToken2)
    ensures CalculateSellAmount(a, tokenReserves, solReserves, realToken1, realSol1)
            == CalculateSellAmount(a, tokenReserves, solReserves, realToken2, realSol2)
  {
  }

  /** For non-negative inputs the output never exceeds the reserve it is
      drawn from and is never negative. */
  lemma BuyAmountBounded(a: nat, solReserves: nat, tokenReserves: nat, realSol: int, realToken: int)
    requires solReserves + a > 0
    ensures var r := CalculateBuyAmount(a, solReserves, tokenReserves, realSol, realToken);
            0 <= r.value.tokenAmount <= tokenReserves
  {
    SwapMath.NewReserveBounded(a, solReserves, tokenReserves);
    ProductNonNegative(solReserves, tokenReserves);
  }

  // ---------------------------------------------------------------------
  // price impact

  /** The integer part of `calculatePriceImpact`, before the final division
      by 100: `(spot - effective) * 10000 / spot`, with both prices scaled
      by 10000. `None` where bn.js throws. */
  function PriceImpactBps(inputAmount: int, outputAmount: int, inputReserves: int, outputReserves: int): Option<int> {
    if inputReserves == 0 || inputAmount == 0 then None
    else
      var spotPrice := TruncDiv(outputReserves * 10000, inputReserves);
      var effectivePrice := TruncDiv(outputAmount * 10000, inputAmount);
      if spotPrice == 0 then None
      else ToNumber(TruncDiv((spotPrice - effectivePrice) * 10000, spotPrice))
  }

  /** Output per unit of input in basis points, `floor(output * 10000 / input)`:
      the spot price on the reserves, the effective price on a trade. */
  function BpsPrice(input: nat, output: nat): (p: nat)
    requires input > 0
    ensures p * input <= output * 10000 < (p + 1) * input
  {
    var n := output * 10000;
    DivMod(n, input);
    DivBracket(n, input);
    n / input
  }

  /** No impact when the trade is at the spot price. */
  lemma NoImpactAtSpotPrice(inputAmount: nat, outputAmount: nat, inputReserves: nat, outputReserves: nat)
    requires inputAmount > 0 && inputReserves > 0
    requires BpsPrice(inputReserves, outputReserves) > 0
    requires BpsPrice(inputAmount, outputAmount) == BpsPrice(inputReserves, outputReserves)
    ensures PriceImpactBps(inputAmount, outputAmount, inputReserves, outputReserves) == Some(0)
  {
    assert TruncDiv(outputReserves * 10000, inputReserves) == BpsPrice(inputReserves, outputReserves);
    assert TruncDiv(outputAmount * 10000, inputAmount) == BpsPrice(inputAmount, outputAmount);
  }

  /** A trade below the spot price has an impact between 0 and 10000 basis
      points; the impact is the relative shortfall of the effective price,
      rounded down. */
  lemma ImpactBounded(inputAmount: nat, outputAmount: nat, inputReserves: nat, outputReserves: nat)
    requires inputAmount > 0 && inputReserves > 0
    requires BpsPrice(inputReserves, outputReserves) > 0
    requires BpsPrice(inputAmount, outputAmount) <= BpsPrice(inputReserves, outputReserves)
    ensures var r := PriceImpactBps(inputAmount, outputAmount, inputReserves, outputReserves);
            var spot, eff := BpsPrice(inputReserves, outputReserves), BpsPrice(inputAmount, outputAmount);
            && r.Some? && 0 <= r.value <= 10000
            && r.value * spot <= (spot - eff) * 10000 < (r.value + 1) * spot
  {
    var spot, eff := BpsPrice(inputReserves, outputReserves), BpsPrice(inputAmount, outputAmount);
    assert TruncDiv(outputReserves * 10000, inputReserves) == spot;
    assert TruncDiv(outputAmount * 10000, inputAmount) == eff;
    var n := (spot - eff) * 10000;
    MulMonotone(spot - eff, 10000, spot, 10000);
    DivBracket(n, spot);
    DivMonotone(n, spot * 10000, spot);
    MulDivCancel(10000, spot);
    assert spot * 10000 == 10000 * spot;
  }

  // ---------------------------------------------------------------------
  // token price

  /** The integer part of `calculateTokenPrice`, before the final division
      by 10^9: lamports per token scaled by 10^9, on the effective
      reserves. `None` where bn.js throws. */
  function TokenPriceScaled(virtualSolReserves: int, virtualTokenReserves: int,
                            realSolReserves: int, realTokenReserves: int): Option<int> {
    var currentSolReserves := virtualSolReserves + realSolReserves;
    var currentTokenReserves := virtualTokenReserves - realTokenReserves;
    if currentTokenReserves == 0 then None
    else ToNumber(TruncDiv(currentSolReserves * Pow10(9), currentTokenReserves))
  }

  /** On non-negative effective reserves the scaled price is the floor of
      `sol * 10^9 / token`. */
  lemma TokenPriceIsFloor(virtualSolReserves: int, virtualTokenReserves: int,
                          realSolReserves: int, realTokenReserves: int)
    requires virtualSolReserves + realSolReserves >= 0
    requires virtualTokenReserves - realTokenReserves > 0
    requires TokenPriceScaled(virtualSolReserves, virtualTokenReserves, realSolReserves, realTokenReserves).Some?
    ensures var p := TokenPriceScaled(virtualSolReserves, virtualTokenReserves, realSolReserves, realTokenReserves).value;
            var sol, token := virtualSolReserves + realSolReserves, virtualTokenReserves - realTokenReserves;
            p * token <= sol * Pow10(9) < (p + 1) * token
  {
    var sol, token := virtualSolReserves + realSolReserves, virtualTokenReserves - realTokenReserves;
    ProductNonNegative(sol, Pow10(9));
    DivBracket(sol * Pow10(9), token);
  }

  /** More lamports against fewer tokens never lowers the scaled price. */
  lemma TokenPriceMonotone(sol1: nat, token1: nat, sol2: nat, token2: nat)
    requires 0 < token2 <= token1 && sol1 <= sol2
    requires TokenPriceScaled(sol1, token1, 0, 0).Some? && TokenPriceScaled(sol2, token2, 0, 0).Some?
    ensures TokenPriceScaled(sol1, token1, 0, 0).value <= TokenPriceScaled(sol2, token2, 0, 0).value
  {
    var scale := Pow10(9);
    MulMonotone(sol1, scale, sol2, scale);
    DivMonotone(sol1 * scale, sol2 * scale, token1);
    DivAntiMonotone(sol2 * scale, token2, token1);
  }
}
