/** The SDK's quote helpers (`sdk/src/utils.ts`): the three-argument swap
    formula, the 1% fee, the slippage minimum and the curve-activity test,
    on bn.js integers. `muln` refuses a multiplier of magnitude 2^26 or
    more, `div` a zero divisor; both are `None` here. */
module SdkUtils {
  import opened Base
  import opened Arith
  import opened ProgramErrors
  import CurveSpec
  import SdkMath

  const FEE_BASIS_POINTS: int := 100

  /** The first multiplier magnitude bn.js `muln` refuses. */
  const MULN_LIMIT: int := 0x400_0000

  /** `calculateBuyAmount`: tokens out for `solAmount` in. */
  function CalculateBuyAmount(solAmount: int, solReserves: int, tokenReserves: int): (r: Option<int>)
    ensures r.Some? <==> solReserves + solAmount != 0
  {
    var newSolReserves := solReserves + solAmount;
    if newSolReserves == 0 then None
    else
      var newTokenReserves := TruncDiv(solReserves * tokenReserves, newSolReserves);
      Some(tokenReserves - newTokenReserves)
  }

  /** `calculateSellAmount`: lamports out for `tokenAmount` in. */
  function CalculateSellAmount(tokenAmount: int, tokenReserves: int, solReserves: int): (r: Option<int>)
    ensures r.Some? <==> tokenReserves + tokenAmount != 0
  {
    var newTokenReserves := tokenReserves + tokenAmount;
    if newTokenReserves == 0 then None
    else
      var newSolReserves := TruncDiv(tokenReserves * solReserves, newTokenReserves);
      Some(solReserves - newSolReserves)
  }

  /** The two copies of the formula in the SDK agree. */
  lemma QuotesAgreeWithMath(amount: int, inReserves: int, outReserves: int, realIn: int, realOut: int)
    ensures var buy := SdkMath.CalculateBuyAmount(amount, inReserves, outReserves, realIn, realOut);
            && (CalculateBuyAmount(amount, inReserves, outReserves).Some? <==> buy.Some?)
            && (buy.Some? ==> CalculateBuyAmount(amount, inReserves, outReserves).value == buy.value.tokenAmount)
    ensures var sell := SdkMath.CalculateSellAmount(amount, inReserves, outReserves, realIn, realOut);
            && (CalculateSellAmount(amount, inReserves, outReserves).Some? <==> sell.Some?)
            && (sell.Some? ==> CalculateSellAmount(amount, inReserves, outReserves).value == sell.value.solAmount)
  {
  }

  /** For non-negative inputs neither quote exceeds the reserve it draws
      from, nor goes negative. */
  lemma QuotesBounded(amount: nat, inReserves: nat, outReserves: nat)
    requires inReserves + amount > 0
    ensures 0 <= CalculateBuyAmount(amount, inReserves, outReserves).value <= outReserves
    ensures 0 <= CalculateSellAmount(amount, inReserves, outReserves).value <= outReserves
  {
    SdkMath.BuyAmountBounded(amount, inReserves, outReserves, 0, 0);
    QuotesAgreeWithMath(amount, inReserves, outReserves, 0, 0);
  }

  /** `calculateFee`: `amount * 100 / 10000`, truncated. */
  function CalculateFee(amount: int): int {
    TruncDiv(amount * FEE_BASIS_POINTS, 10000)
  }

  /** The fee of a non-negative amount is the floor of one percent of it. */
  lemma FeeIsOnePercent(amount: nat)
    ensures var fee := CalculateFee(amount);
            0 <= fee <= amount && 100 * fee <= amount < 100 * (fee + 1)
  {
    DivBracket(amount * 100, 10000);
  }

  /** Where the program can compute its fee, the SDK's fee is the same. */
  lemma FeeMatchesProgram(amount: U64)
    requires amount * FEE_BASIS_POINTS <= U64_MAX
    ensures CurveSpec.Fee(amount) == Some(CalculateFee(amount))
  {
    FeeIsOnePercent(amount);
  }

  /** `calculateMinimumReceived`: `amount * (10000 - slippageBps) / 10000`,
      truncated. */
  function CalculateMinimumReceived(amount: int, slippageBps: int): Option<int> {
    var slippageMultiplier := 10000 - slippageBps;
    if slippageMultiplier <= -MULN_LIMIT || slippageMultiplier >= MULN_LIMIT then None
    else Some(TruncDiv(amount * slippageMultiplier, 10000))
  }

  /** No slippage allowed: the minimum is the amount itself. */
  lemma NoSlippageKeepsAmount(amount: int)
    ensures CalculateMinimumReceived(amount, 0) == Some(amount)
  {
    if amount >= 0 {
      MulDivCancel(amount, 10000);
    } else {
      MulDivCancel(-amount, 10000);
      assert (-amount) * 10000 == -(amount * 10000);
    }
  }

  /** Full slippage allowed: the minimum is zero. */
  lemma FullSlippageAllowsNothing(amount: int)
    ensures CalculateMinimumReceived(amount, 10000) == Some(0)
  {
  }

  /** For a basis-point tolerance between 0 and 10000 the minimum lies
      between 0 and the amount, and a larger tolerance never raises it. */
  lemma MinimumReceivedBounded(amount: nat, slippageBps: int)
    requires 0 <= slippageBps <= 10000
    ensures var m := CalculateMinimumReceived(amount, slippageBps);
            && m.Some? && 0 <= m.value <= amount
            && m.value * 10000 <= amount * (10000 - slippageBps) < (m.value + 1) * 10000
  {
    var k := 10000 - slippageBps;
    MulMonotone(amount, k, amount, 10000);
    DivBracket(amount * k, 10000);
    DivMonotone(amount * k, amount * 10000, 10000);
    MulDivCancel(amount, 10000);
  }

  lemma MinimumReceivedMonotone(amount: nat, bps1: int, bps2: int)
    requires 0 <= bps1 <= bps2 <= 10000
    ensures CalculateMinimumReceived(amount, bps2).value <= CalculateMinimumReceived(amount, bps1).value
  {
    MulMonotone(amount, 10000 - bps2, amount, 10000 - bps1);
    DivMonotone(amount * (10000 - bps2), amount * (10000 - bps1), 10000);
  }

  /** `isCurveActive`. */
  function IsCurveActive(c: CurveSpec.CurveState): bool {
    !c.complete
  }

  /** A curve the SDK reports inactive refuses every non-zero trade with
      `CurveComplete`; an active one never does. */
  lemma InactiveCurveRefusesTrades(c: CurveSpec.CurveState, amount: U64, minimum: U64)
    requires amount > 0
    ensures !IsCurveActive(c) <==> CurveSpec.QuoteBuy(c, amount, minimum) == CurveSpec.Rejected(CurveSpec.Custom(CurveComplete))
    ensures !IsCurveActive(c) <==> CurveSpec.QuoteSell(c, amount, minimum) == CurveSpec.Rejected(CurveSpec.Custom(CurveComplete))
  {
  }
}
