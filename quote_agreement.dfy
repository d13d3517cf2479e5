/** How the SDK's client-side quotes relate to what the program does. The
    client's simulation (`sdk/src/hookAmm.ts`) takes the 1% fee with
    `calculateFee`, quotes with `calculateBuyAmount`/`calculateSellAmount`
    on the effective reserves (virtual plus real lamports, virtual minus
    real tokens), reads the price before and after the trade with
    `calculatePrice`, and a caller turns a quote into a slippage bound with
    `calculateMinimumReceived`. */
module QuoteAgreement {
  import opened Base
  import opened CurveSpec
  import SwapMath
  import SdkMath
  import SdkUtils

  /** A client-side quote: what the trader receives and the fee. */
  datatype Simulated = Simulated(amount: int, fee: int)

  /** `calculatePrice` reads the effective reserves and the total supply
      with bn.js `toNumber`, which throws at 2^53 or beyond; the floating
      point price it then computes is not modelled. */
  predicate PriceReadable(sol: int, token: int, supply: int) {
    && SdkMath.ToNumber(sol).Some?
    && SdkMath.ToNumber(token).Some?
    && SdkMath.ToNumber(supply).Some?
  }

  /** Both prices of a simulation can be read: the curve's own, and that of
      the copy whose effective reserves moved by `solDelta` and
      `tokenDelta`. */
  predicate SimulationReadable(s: CurveState, solDelta: int, tokenDelta: int) {
    && PriceReadable(EffectiveSol(s), EffectiveToken(s), s.tokenTotalSupply)
    && PriceReadable(EffectiveSol(s) + solDelta, EffectiveToken(s) + tokenDelta, s.tokenTotalSupply)
  }

  /** The buy simulation: the fee first, then the quote for the rest, then
      the price before and after; the simulated curve gains the after-fee
      lamports and `tokenAmount` real tokens, so its effective token reserve
      drops by the tokens bought. `None` where the client throws. */
  function SimulateBuy(s: CurveState, solAmount: int): Option<Simulated> {
    var fee := SdkUtils.CalculateFee(solAmount);
    var amountAfterFee := solAmount - fee;
    match SdkUtils.CalculateBuyAmount(amountAfterFee, EffectiveSol(s), EffectiveToken(s))
    case None => None
    case Some(tokenAmount) =>
      if SimulationReadable(s, amountAfterFee, -tokenAmount) then Some(Simulated(tokenAmount, fee))
      else None
  }

  /** The sell simulation: the quote first, then the fee out of it, then
      the price before and after; the simulated curve loses the gross
      lamports and `tokenAmount` real tokens. */
  function SimulateSell(s: CurveState, tokenAmount: int): Option<Simulated> {
    match SdkUtils.CalculateSellAmount(tokenAmount, EffectiveToken(s), EffectiveSol(s))
    case None => None
    case Some(solAmount) =>
      var fee := SdkUtils.CalculateFee(solAmount);
      if SimulationReadable(s, -solAmount, tokenAmount) then Some(Simulated(solAmount - fee, fee))
      else None
  }

  /** Whenever the program accepts a buy, the client predicted the tokens
      and the fee exactly, unless one of its prices cannot be read, in
      which case it throws. */
  lemma BuyQuotePredicted(s: CurveState, solAmount: U64, minTokenAmount: U64)
    requires QuoteBuy(s, solAmount, minTokenAmount).Done?
    ensures var q := QuoteBuy(s, solAmount, minTokenAmount).value;
            SimulateBuy(s, solAmount)
              == if SimulationReadable(s, q.solAfterFee, -(q.tokenAmount as int)) then Some(Simulated(q.tokenAmount, q.fee))
                 else None
  {
    var q := QuoteBuy(s, solAmount, minTokenAmount).value;
    SdkUtils.FeeMatchesProgram(solAmount);
    SdkMath.BuyAmountMatchesProgram(q.solAfterFee, EffectiveSol(s), EffectiveToken(s), 0, 0);
    SdkUtils.QuotesAgreeWithMath(q.solAfterFee, EffectiveSol(s), EffectiveToken(s), 0, 0);
  }

  /** Whenever the program accepts a sell, the client predicted the
      lamports paid out and the fee exactly, unless it throws reading a
      price. */
  lemma SellQuotePredicted(s: CurveState, tokenAmount: U64, minSolAmount: U64)
    requires QuoteSell(s, tokenAmount, minSolAmount).Done?
    ensures var q := QuoteSell(s, tokenAmount, minSolAmount).value;
            SimulateSell(s, tokenAmount)
              == if SimulationReadable(s, -(q.solAmount as int), tokenAmount) then Some(Simulated(q.solAfterFee, q.fee))
                 else None
  {
    var q := QuoteSell(s, tokenAmount, minSolAmount).value;
    SdkUtils.FeeMatchesProgram(q.solAmount);
    SdkMath.SellAmountMatchesProgram(tokenAmount, EffectiveToken(s), EffectiveSol(s), 0, 0);
    SdkUtils.QuotesAgreeWithMath(tokenAmount, EffectiveToken(s), EffectiveSol(s), 0, 0);
  }

  /** A buy both sides can price: a non-zero amount on an open curve with
      formable reserves, a fee that fits in `u64`, a swap that does not
      divide by zero, and reserves and supply small enough for `toNumber`
      before and after. */
  predicate BuyPriceable(s: CurveState, solAmount: U64) {
    && solAmount > 0 && !s.complete && ReservesFormable(s)
    && solAmount * SdkUtils.FEE_BASIS_POINTS <= U64_MAX
    && EffectiveSol(s) + solAmount - SdkUtils.CalculateFee(solAmount) > 0
    && EffectiveSol(s) + solAmount < SdkMath.SAFE_NUMBER_LIMIT
    && EffectiveToken(s) < SdkMath.SAFE_NUMBER_LIMIT
    && s.tokenTotalSupply < SdkMath.SAFE_NUMBER_LIMIT
  }

  /** On a priceable buy the simulation succeeds and decides the slippage
      check: the program accepts exactly when the simulated tokens reach
      the minimum, and otherwise refuses with `SlippageExceeded`. */
  lemma BuySlippagePredicted(s: CurveState, solAmount: U64, minTokenAmount: U64)
    requires BuyPriceable(s, solAmount)
    ensures SimulateBuy(s, solAmount).Some?
    ensures var r := QuoteBuy(s, solAmount, minTokenAmount);
            && (r.Done? <==> SimulateBuy(s, solAmount).value.amount >= minTokenAmount)
            && (!r.Done? ==> r == Rejected(Custom(ProgramErrors.SlippageExceeded)))
  {
    var fee := SdkUtils.CalculateFee(solAmount);
    SdkUtils.FeeMatchesProgram(solAmount);
    var after := solAmount - fee;
    SdkMath.BuyAmountMatchesProgram(after, EffectiveSol(s), EffectiveToken(s), 0, 0);
    SdkUtils.QuotesAgreeWithMath(after, EffectiveSol(s), EffectiveToken(s), 0, 0);
    SdkUtils.QuotesBounded(after, EffectiveSol(s), EffectiveToken(s));
  }

  /** A sell both sides can price, with a payout whose fee fits in `u64`
      and reserves and supply small enough for `toNumber` before and
      after. */
  predicate SellPriceable(s: CurveState, tokenAmount: U64) {
    && tokenAmount > 0 && !s.complete && ReservesFormable(s)
    && (var solAmount := SdkUtils.CalculateSellAmount(tokenAmount, EffectiveToken(s), EffectiveSol(s));
        solAmount.Some? && solAmount.value * SdkUtils.FEE_BASIS_POINTS <= U64_MAX)
    && EffectiveSol(s) < SdkMath.SAFE_NUMBER_LIMIT
    && EffectiveToken(s) + tokenAmount < SdkMath.SAFE_NUMBER_LIMIT
    && s.tokenTotalSupply < SdkMath.SAFE_NUMBER_LIMIT
  }

  /** On a priceable sell the simulation succeeds and decides the slippage
      check. */
  lemma SellSlippagePredicted(s: CurveState, tokenAmount: U64, minSolAmount: U64)
    requires SellPriceable(s, tokenAmount)
    ensures SimulateSell(s, tokenAmount).Some?
    ensures var r := QuoteSell(s, tokenAmount, minSolAmount);
            && (r.Done? <==> SimulateSell(s, tokenAmount).value.amount >= minSolAmount)
            && (!r.Done? ==> r == Rejected(Custom(ProgramErrors.SlippageExceeded)))
  {
    SdkMath.SellAmountMatchesProgram(tokenAmount, EffectiveToken(s), EffectiveSol(s), 0, 0);
    SdkUtils.QuotesAgreeWithMath(tokenAmount, EffectiveToken(s), EffectiveSol(s), 0, 0);
    SdkUtils.QuotesBounded(tokenAmount, EffectiveToken(s), EffectiveSol(s));
    var solAmount := SdkUtils.CalculateSellAmount(tokenAmount, EffectiveToken(s), EffectiveSol(s)).value;
    SdkUtils.FeeMatchesProgram(solAmount);
  }

  /** A minimum derived from the simulated buy with any tolerance from 0 to
      10000 basis points is a valid `u64` argument that never trips the
      slippage check. */
  lemma BuyMinimumNeverTrips(s: CurveState, solAmount: U64, slippageBps: int)
    requires BuyPriceable(s, solAmount) && 0 <= slippageBps <= 10000
    ensures SimulateBuy(s, solAmount).Some?
    ensures var m := SdkUtils.CalculateMinimumReceived(SimulateBuy(s, solAmount).value.amount, slippageBps);
            && m.Some? && 0 <= m.value <= U64_MAX
            && QuoteBuy(s, solAmount, m.value).Done?
  {
    BuySlippagePredicted(s, solAmount, 0);
    var q := QuoteBuy(s, solAmount, 0).value;
    BuyQuotePredicted(s, solAmount, 0);
    SdkUtils.MinimumReceivedBounded(q.tokenAmount, slippageBps);
    var m := SdkUtils.CalculateMinimumReceived(q.tokenAmount, slippageBps).value;
    BuySlippagePredicted(s, solAmount, m);
  }

  /** The same for a sell. */
  lemma SellMinimumNeverTrips(s: CurveState, tokenAmount: U64, slippageBps: int)
    requires SellPriceable(s, tokenAmount) && 0 <= slippageBps <= 10000
    ensures SimulateSell(s, tokenAmount).Some?
    ensures var m := SdkUtils.CalculateMinimumReceived(SimulateSell(s, tokenAmount).value.amount, slippageBps);
            && m.Some? && 0 <= m.value <= U64_MAX
            && QuoteSell(s, tokenAmount, m.value).Done?
  {
    SellSlippagePredicted(s, tokenAmount, 0);
    var q := QuoteSell(s, tokenAmount, 0).value;
    SellQuotePredicted(s, tokenAmount, 0);
    SdkUtils.MinimumReceivedBounded(q.solAfterFee, slippageBps);
    var m := SdkUtils.CalculateMinimumReceived(q.solAfterFee, slippageBps).value;
    SellSlippagePredicted(s, tokenAmount, m);
  }

  /** The token price the SDK reports for a curve. */
  function CurvePrice(s: CurveState): Option<int> {
    SdkMath.TokenPriceScaled(s.virtualSolReserves, s.virtualTokenReserves, s.realSolReserves, s.realTokenReserves)
  }

  /** Under the corrected reserve bookkeeping a buy never lowers the
      reported price: lamports go in and tokens come out. */
  lemma FixedBuyNeverLowersPrice(s: CurveState, solAmount: U64, minTokenAmount: U64)
    requires QuoteBuy(s, solAmount, minTokenAmount).Done?
    requires ApplyBuyFixed(s, QuoteBuy(s, solAmount, minTokenAmount).value).Some?
    requires CurvePrice(s).Some?
    requires CurvePrice(ApplyBuyFixed(s, QuoteBuy(s, solAmount, minTokenAmount).value).value).Some?
    ensures CurvePrice(s).value <= CurvePrice(ApplyBuyFixed(s, QuoteBuy(s, solAmount, minTokenAmount).value).value).value
  {
    var q := QuoteBuy(s, solAmount, minTokenAmount).value;
    var next := ApplyBuyFixed(s, q).value;
    assert EffectiveSol(next) == EffectiveSol(s) + q.solAfterFee;
    assert EffectiveToken(next) == EffectiveToken(s) - q.tokenAmount;
    assert CurvePrice(s) == SdkMath.TokenPriceScaled(EffectiveSol(s), EffectiveToken(s), 0, 0);
    assert CurvePrice(next) == SdkMath.TokenPriceScaled(EffectiveSol(next), EffectiveToken(next), 0, 0);
    SdkMath.TokenPriceMonotone(EffectiveSol(s), EffectiveToken(s), EffectiveSol(next), EffectiveToken(next));
  }
}
