/** What the handlers of `CurveSpec` guarantee: how balances settle, what
    the as-written `buy` does to the reserves, what the corrected reserve
    update keeps, and how curves are numbered. */
module CurveProperties {
  import opened Base
  import opened ProgramErrors
  import opened CurveSpec
  import Arith

  // ---------------------------------------------------------------------
  // settlement

  /** A successful buy takes exactly `solAmount` from the buyer: the
      after-fee part to the curve, the fee to the fee recipient; the bought
      tokens leave the curve's token account for the buyer's. */
  lemma BuySettlement(s: CurveState, b: Balances, a: TradeAccounts, solAmount: U64, minTokenAmount: U64)
    requires BuyInstruction(s, b, a, solAmount, minTokenAmount).Done?
    requires a.user != a.curve && a.user != a.feeRecipient && a.curve != a.feeRecipient
    requires a.curveTokenAccount != a.userTokenAccount
    ensures var q := QuoteBuy(s, solAmount, minTokenAmount).value;
            var b' := BuyInstruction(s, b, a, solAmount, minTokenAmount).value.balances;
            && Bal(b'.lamports, a.user) == Bal(b.lamports, a.user) - solAmount
            && Bal(b'.lamports, a.curve) == Bal(b.lamports, a.curve) + q.solAfterFee
            && Bal(b'.lamports, a.feeRecipient) == Bal(b.lamports, a.feeRecipient) + q.fee
            && Bal(b'.tokens, a.curveTokenAccount) == Bal(b.tokens, a.curveTokenAccount) - q.tokenAmount
            && Bal(b'.tokens, a.userTokenAccount) == Bal(b.tokens, a.userTokenAccount) + q.tokenAmount
  {
  }

  /** A successful sell takes the gross output from the curve's lamports:
      the net amount to the seller, the fee to the fee recipient; the sold
      tokens move from the seller to the curve's token account. */
  lemma SellSettlement(s: CurveState, b: Balances, a: TradeAccounts, tokenAmount: U64, minSolAmount: U64)
    requires SellInstruction(s, b, a, tokenAmount, minSolAmount).Done?
    requires a.user != a.curve && a.user != a.feeRecipient && a.curve != a.feeRecipient
    requires a.curveTokenAccount != a.userTokenAccount
    ensures var q := QuoteSell(s, tokenAmount, minSolAmount).value;
            var b' := SellInstruction(s, b, a, tokenAmount, minSolAmount).value.balances;
            && Bal(b'.lamports, a.curve) == Bal(b.lamports, a.curve) - q.solAmount
            && Bal(b'.lamports, a.user) == Bal(b.lamports, a.user) + q.solAfterFee
            && Bal(b'.lamports, a.feeRecipient) == Bal(b.lamports, a.feeRecipient) + q.fee
            && Bal(b'.tokens, a.userTokenAccount) == Bal(b.tokens, a.userTokenAccount) - tokenAmount
            && Bal(b'.tokens, a.curveTokenAccount) == Bal(b.tokens, a.curveTokenAccount) + tokenAmount
  {
  }

  /** A trade never writes the virtual reserves, the supply, the completion
      flag, the mint, the creator or the index. */
  lemma TradesKeepCurveConstants(s: CurveState, b: Balances, a: TradeAccounts, amount: U64, minimum: U64)
    ensures var r := BuyInstruction(s, b, a, amount, minimum);
            r.Done? ==> r.value.curve == s.(realSolReserves := r.value.curve.realSolReserves,
                                             realTokenReserves := r.value.curve.realTokenReserves)
    ensures var r := SellInstruction(s, b, a, amount, minimum);
            r.Done? ==> r.value.curve == s.(realSolReserves := r.value.curve.realSolReserves,
                                             realTokenReserves := r.value.curve.realTokenReserves)
  {
  }

  // ---------------------------------------------------------------------
  // the real token reserve update of buy

  /** As written, a buy RAISES the effective token reserve by the tokens
      it hands out, although those tokens leave the pool. */
  lemma AsWrittenBuyRaisesTokenReserve(s: CurveState, solAmount: U64, minTokenAmount: U64)
    requires PlanBuy(s, solAmount, minTokenAmount, false).Done?
    ensures var (q, next) := PlanBuy(s, solAmount, minTokenAmount, false).value;
            && EffectiveToken(next) == EffectiveToken(s) + q.tokenAmount
            && EffectiveSol(next) == EffectiveSol(s) + q.solAfterFee
  {
  }

  /** The worked example of a fresh curve (10 SOL and 500,000 tokens of
      virtual reserves): 1 SOL pays a 0.01 SOL fee and quotes 45,040,946,315
      tokens, and the as-written instruction then aborts, because the real
      token reserve of a fresh curve is 0. */
  lemma AsWrittenBuyPanicsOnFreshCurve(b: Balances, a: TradeAccounts)
    ensures var s := CurveState("mint", "creator", 500_000_000_000, 10_000_000_000, 0, 0,
                                400_000_000_000, false, 0);
            && QuoteBuy(s, 1_000_000_000, 0) == Done(BuyQuote(10_000_000, 990_000_000, 45_040_946_315))
            && BuyInstruction(s, b, a, 1_000_000_000, 0) == Panicked
  {
    var s := CurveState("mint", "creator", 500_000_000_000, 10_000_000_000, 0, 0,
                        400_000_000_000, false, 0);
    assert 10_000_000_000 * 500_000_000_000 / 10_990_000_000 == 454_959_053_685;
    SwapMath.BuyAmountExact(990_000_000, 10_000_000_000, 500_000_000_000);
  }

  datatype Trade = BuyTrade(solAmount: U64, minTokenAmount: U64) | SellTrade(tokenAmount: U64, minSolAmount: U64)

  /** The curve after a trade, with the tokens it bought and sold; a failed
      trade changes nothing. */
  datatype Tally = Tally(curve: CurveState, bought: nat, sold: nat)

  function TradeStep(s: CurveState, t: Trade, fixed: bool): Tally {
    match t
    case BuyTrade(amount, minimum) =>
      (match PlanBuy(s, amount, minimum, fixed)
       case Done(v) => Tally(v.1, v.0.tokenAmount, 0)
       case _ => Tally(s, 0, 0))
    case SellTrade(amount, minimum) =>
      (match PlanSell(s, amount, minimum)
       case Done(v) => Tally(v.1, 0, amount)
       case _ => Tally(s, 0, 0))
  }

  /** A sequence of trades against one curve, with the as-written (`fixed`
      false) or the corrected (`fixed` true) buy. */
  function Run(s: CurveState, trades: seq<Trade>, fixed: bool): Tally
    decreases |trades|
  {
    if trades == [] then Tally(s, 0, 0)
    else
      var first := TradeStep(s, trades[0], fixed);
      var rest := Run(first.curve, trades[1..], fixed);
      Tally(rest.curve, first.bought + rest.bought, first.sold + rest.sold)
  }

  /** As written, a buy on a curve with no real tokens and a non-empty
      token side never completes: it prices at least one token, and taking
      that token from a real reserve of 0 aborts. */
  lemma AsWrittenBuyFailsWithoutRealTokens(s: CurveState, solAmount: U64, minTokenAmount: U64)
    requires s.realTokenReserves == 0 && s.virtualTokenReserves > 0
    ensures !PlanBuy(s, solAmount, minTokenAmount, false).Done?
  {
    var quote := QuoteBuy(s, solAmount, minTokenAmount);
    if quote.Done? {
      var q := quote.value;
      var x, y := EffectiveSol(s), EffectiveToken(s);
      assert q.solAfterFee >= 1 && y > 0;
      SwapMath.BuyAmountExact(q.solAfterFee, x, y);
      Arith.MulStrict(x, x + q.solAfterFee, y);
      Arith.AboveQuotient(y, x * y, x + q.solAfterFee);
      assert q.tokenAmount >= 1;
    }
  }

  /** As written, a curve whose real token reserve is 0 (every fresh
      curve) never hands out a token and never completes a sell: every buy
      that would deliver tokens aborts, and every sell aborts. When its
      token side is non-empty no trade completes at all, so the curve stays
      exactly as it was. */
  lemma {:induction false} AsWrittenCurveNeverTrades(s: CurveState, trades: seq<Trade>)
    requires s.realTokenReserves == 0
    ensures Run(s, trades, false).bought == 0
    ensures Run(s, trades, false).sold == 0
    ensures Run(s, trades, false).curve.realTokenReserves == 0
    ensures s.virtualTokenReserves > 0 ==> Run(s, trades, false).curve == s
    decreases |trades|
  {
    if trades != [] {
      var first := TradeStep(s, trades[0], false);
      assert first.bought == 0 && first.sold == 0 && first.curve.realTokenReserves == 0
             && (s.virtualTokenReserves > 0 ==> first.curve == s) by {
        match trades[0]
        case BuyTrade(amount, minimum) =>
          if s.virtualTokenReserves > 0 {
            AsWrittenBuyFailsWithoutRealTokens(s, amount, minimum);
          }
        case SellTrade(amount, minimum) =>
      }
      AsWrittenCurveNeverTrades(first.curve, trades[1..]);
    }
  }

  /** With real tokens growing on a buy, the effective token reserve falls
      by exactly the tokens handed out and the effective SOL reserve grows
      by the after-fee amount paid in. */
  lemma FixedBuyDrawsDownTokenReserve(s: CurveState, solAmount: U64, minTokenAmount: U64)
    requires PlanBuy(s, solAmount, minTokenAmount, true).Done?
    ensures var (q, next) := PlanBuy(s, solAmount, minTokenAmount, true).value;
            && EffectiveToken(next) == EffectiveToken(s) - q.tokenAmount >= 0
            && EffectiveSol(next) == EffectiveSol(s) + q.solAfterFee
            && ReservesFormable(next)
  {
  }

  /** With the corrected buy, a curve whose reserves can be formed keeps
      them formable through any sequence of trades, and its real token
      reserve counts exactly the tokens bought minus the tokens sold. */
  lemma {:induction false} FixedTradesKeepCurveSound(s: CurveState, trades: seq<Trade>)
    requires ReservesFormable(s)
    ensures var r := Run(s, trades, true);
            && ReservesFormable(r.curve)
            && r.curve.realTokenReserves == s.realTokenReserves + r.bought - r.sold
            && r.curve.virtualTokenReserves == s.virtualTokenReserves
            && r.curve.virtualSolReserves == s.virtualSolReserves
    decreases |trades|
  {
    if trades != [] {
      var first := TradeStep(s, trades[0], true);
      assert ReservesFormable(first.curve)
             && first.curve.realTokenReserves == s.realTokenReserves + first.bought - first.sold
             && first.curve.virtualTokenReserves == s.virtualTokenReserves
             && first.curve.virtualSolReserves == s.virtualSolReserves by {
        match trades[0]
        case BuyTrade(amount, minimum) =>
        case SellTrade(amount, minimum) =>
      }
      FixedTradesKeepCurveSound(first.curve, trades[1..]);
    }
  }

  /** The small curve of the round-trip example: 2 lamports and 10 tokens
      of virtual reserves, with 1 lamport and 4 tokens already traded. */
  function SmallCurve(realSol: U64, realToken: U64): CurveState {
    CurveState("mint", "creator", 10, 2, realToken, realSol, 5, false, 0)
  }

  lemma SmallCurveBuyAmount()
    ensures SwapMath.CalculateBuyAmount(1, 3, 6) == Ok(2)
  {
    SwapMath.BuyAmountExact(1, 3, 6);
    assert 3 * 6 / (3 + 1) == 4;
  }

  lemma SmallCurveBuyQuote()
    ensures QuoteBuy(SmallCurve(1, 4), 1, 0) == Done(BuyQuote(0, 1, 2))
  {
    var s := SmallCurve(1, 4);
    assert EffectiveSol(s) == 3 && EffectiveToken(s) == 6 && ReservesFormable(s);
    assert Fee(1) == Some(0);
    SmallCurveBuyAmount();
  }

  lemma SmallCurveBuy()
    ensures PlanBuy(SmallCurve(1, 4), 1, 0, true) == Done((BuyQuote(0, 1, 2), SmallCurve(2, 6)))
  {
    SmallCurveBuyQuote();
    assert ApplyBuyFixed(SmallCurve(1, 4), BuyQuote(0, 1, 2)) == Some(SmallCurve(2, 6));
  }

  lemma SmallCurveSellAmount()
    ensures SwapMath.CalculateSellAmount(2, 4, 4) == Ok(2)
  {
    SwapMath.SellIsBuyWithRolesSwapped(2, 4, 4);
    SwapMath.BuyAmountExact(2, 4, 4);
    assert 4 * 4 / (4 + 2) == 2;
  }

  lemma SmallCurveSell()
    ensures PlanSell(SmallCurve(2, 6), 2, 0) == Done((SellQuote(2, 0, 2), SmallCurve(0, 4)))
  {
    assert Fee(2) == Some(0);
    SmallCurveSellAmount();
    assert QuoteSell(SmallCurve(2, 6), 2, 0) == Done(SellQuote(2, 0, 2));
  }

  /** Rounding favours the trader on both legs: with the corrected buy
      update, on a small curve that already holds one lamport of real SOL,
      buying with 1 lamport and selling the 2 tokens received returns 2
      lamports. */
  lemma RoundTripCanReturnMoreThanPaid()
    ensures var bought := PlanBuy(SmallCurve(1, 4), 1, 0, true);
            && bought.Done? && bought.value.0.solAfterFee + bought.value.0.fee == 1
            && bought.value.0.tokenAmount == 2
            && var sold := PlanSell(bought.value.1, 2, 0);
            && sold.Done? && sold.value.0.solAfterFee == 2
  {
    SmallCurveBuy();
    SmallCurveSell();
  }

  lemma SmallCurveAsWrittenBuy()
    ensures PlanBuy(SmallCurve(1, 4), 1, 0, false) == Done((BuyQuote(0, 1, 2), SmallCurve(2, 2)))
  {
    SmallCurveBuyQuote();
    assert ApplyBuy(SmallCurve(1, 4), BuyQuote(0, 1, 2)) == Some(SmallCurve(2, 2));
  }

  lemma SmallCurveAsWrittenSellAmount()
    ensures SwapMath.CalculateSellAmount(2, 8, 4) == Ok(1)
  {
    SwapMath.SellIsBuyWithRolesSwapped(2, 8, 4);
    SwapMath.BuyAmountExact(2, 8, 4);
    assert 8 * 4 / (8 + 2) == 3;
  }

  lemma SmallCurveAsWrittenSell()
    ensures PlanSell(SmallCurve(2, 2), 2, 0) == Done((SellQuote(1, 0, 1), SmallCurve(1, 0)))
  {
    assert Fee(1) == Some(0);
    SmallCurveAsWrittenSellAmount();
    assert QuoteSell(SmallCurve(2, 2), 2, 0) == Done(SellQuote(1, 0, 1));
  }

  /** The same round trip under the as-written buy update: the buy raises
      the effective token reserve instead of lowering it, and the 2 tokens
      sell back for exactly the 1 lamport paid. */
  lemma AsWrittenRoundTripBreaksEven()
    ensures var bought := PlanBuy(SmallCurve(1, 4), 1, 0, false);
            && bought.Done? && bought.value.0.solAfterFee + bought.value.0.fee == 1
            && bought.value.0.tokenAmount == 2
            && EffectiveToken(bought.value.1) == 8 && EffectiveSol(bought.value.1) == 4
            && var sold := PlanSell(bought.value.1, 2, 0);
            && sold.Done? && sold.value.0.solAfterFee == 1
  {
    SmallCurveAsWrittenBuy();
    SmallCurveAsWrittenSell();
  }

  // ---------------------------------------------------------------------
  // creation

  datatype CreateRequest = CreateRequest(accounts: CreateAccounts, params: CreateParams)

  /** Creation requests applied in order to one global configuration: the
      final curve count and the curves created, failed requests skipped. */
  function CreateAll(totalCurves: U64, b: Balances, requests: seq<CreateRequest>): (U64, seq<CurveState>)
    decreases |requests|
  {
    if requests == [] then (totalCurves, [])
    else
      match CreateInstruction(totalCurves, b, requests[0].accounts, requests[0].params)
      case Done(c) =>
        var rest := CreateAll(c.totalCurves, c.balances, requests[1..]);
        (rest.0, [c.curve] + rest.1)
      case _ => CreateAll(totalCurves, b, requests[1..])
  }

  /** Curves are numbered by creation: each gets the count before it, and
      the count grows by one per curve. From a freshly initialised
      configuration (count 0) the n-th curve created has index n - 1. */
  lemma {:induction false} CurvesNumberedInCreationOrder(totalCurves: U64, b: Balances, requests: seq<CreateRequest>)
    ensures var (total, curves) := CreateAll(totalCurves, b, requests);
            && total == totalCurves + |curves|
            && forall i :: 0 <= i < |curves| ==> curves[i].index == totalCurves + i
    decreases |requests|
  {
    if requests != [] {
      match CreateInstruction(totalCurves, b, requests[0].accounts, requests[0].params)
      case Done(c) =>
        CurvesNumberedInCreationOrder(c.totalCurves, c.balances, requests[1..]);
      case Rejected(_) =>
        CurvesNumberedInCreationOrder(totalCurves, b, requests[1..]);
      case Panicked =>
        CurvesNumberedInCreationOrder(totalCurves, b, requests[1..]);
    }
  }

  /** A fresh curve trades against its full virtual token reserve, which
      exceeds the supply. */
  lemma FreshCurveReserves(totalCurves: U64, b: Balances, a: CreateAccounts, p: CreateParams)
    requires CreateInstruction(totalCurves, b, a, p).Done?
    ensures var c := CreateInstruction(totalCurves, b, a, p).value.curve;
            && EffectiveToken(c) == p.virtualTokenReserves > p.initialSupply > 0
            && EffectiveSol(c) == p.virtualSolReserves > 0
            && ReservesFormable(c)
  {
  }

  /** The parameter checks report the first failure in source order. */
  lemma CreateChecksInOrder(totalCurves: U64, b: Balances, a: CreateAccounts, p: CreateParams)
    ensures var r := CreateInstruction(totalCurves, b, a, p);
            && (p.initialSupply > 0 && p.virtualTokenReserves > 0 && p.virtualSolReserves > 0
                && p.virtualTokenReserves <= p.initialSupply
                ==> r == Rejected(Custom(VirtualReservesTooSmall)))
            && (p.initialSupply > 0 && p.virtualTokenReserves > p.initialSupply && p.virtualSolReserves > 0
                && Bal(b.tokens, a.creatorTokenAccount) != p.initialSupply
                ==> r == Rejected(Custom(InsufficientBalance)))
            && (CreateCheck(p, Bal(b.tokens, a.creatorTokenAccount)).None? && totalCurves < U64_MAX
                && Bal(b.tokens, a.curveTokenAccount) != 0 && a.curveTokenAccount != a.creatorTokenAccount
                ==> r == Rejected(Custom(InvalidSupply)))
  {
  }
}
