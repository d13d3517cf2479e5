/** The on-chain handlers `create_bonding_curve`, `buy` and `sell` as pure
    functions of the account state before the instruction. A `Step` is the
    instruction's outcome: `Done` with the new state, `Rejected` with an
    error the handler returns, or `Panicked` when an `unwrap` or an
    overflow-checked `+`/`-` aborts. Either failure discards every write of
    the transaction. */
module CurveSpec {
  import opened Base
  import opened Arith
  import opened ProgramErrors
  import SwapMath

  const FEE_BASIS_POINTS: int := 100
  const BPS_DENOMINATOR: int := 10000

  /** The `BondingCurve` account. */
  datatype CurveState = CurveState(
    mint: Pubkey,
    creator: Pubkey,
    virtualTokenReserves: U64,
    virtualSolReserves: U64,
    realTokenReserves: U64,
    realSolReserves: U64,
    tokenTotalSupply: U64,
    complete: bool,
    index: U64)

  /** The `TradeEvent` a successful trade emits. */
  datatype TradeEvent = TradeEvent(
    mint: Pubkey,
    user: Pubkey,
    solAmount: U64,
    tokenAmount: U64,
    isBuy: bool,
    virtualSolReserves: U64,
    virtualTokenReserves: U64)

  /** An error the instruction returns: one of the program's own codes, or a
      failed transfer inside the system or token program. */
  datatype ProgramError = Custom(code: ErrorCode) | TransferFailed

  datatype Step<+T> = Done(value: T) | Rejected(error: ProgramError) | Panicked

  /** Lamport and token balances by account address; an absent address
      holds nothing. */
  datatype Balances = Balances(lamports: map<Pubkey, nat>, tokens: map<Pubkey, nat>)

  function Bal(m: map<Pubkey, nat>, k: Pubkey): nat {
    if k in m then m[k] else 0
  }

  /** Moves `amount` from `from` to `to`; every other balance is untouched. */
  function Move(m: map<Pubkey, nat>, from: Pubkey, to: Pubkey, amount: nat): (r: map<Pubkey, nat>)
    requires Bal(m, from) >= amount
    ensures from != to ==> Bal(r, from) == Bal(m, from) - amount && Bal(r, to) == Bal(m, to) + amount
    ensures from == to ==> Bal(r, from) == Bal(m, from)
    ensures forall k :: k != from && k != to ==> Bal(r, k) == Bal(m, k)
  {
    var m1 := m[from := Bal(m, from) - amount];
    m1[to := Bal(m1, to) + amount]
  }

  /** The effective reserves the formula trades against, as unbounded
      integers (the program computes them with unchecked `u64` `+`/`-`). */
  function EffectiveSol(s: CurveState): int {
    s.virtualSolReserves + s.realSolReserves
  }

  function EffectiveToken(s: CurveState): int {
    s.virtualTokenReserves - s.realTokenReserves
  }

  /** The effective reserves can be formed without a panic. */
  predicate ReservesFormable(s: CurveState) {
    EffectiveSol(s) <= U64_MAX && EffectiveToken(s) >= 0
  }

  /** The 1% fee `amount * FEE_BASIS_POINTS / 10000`; `None` when the
      checked multiply overflows and the handler's `unwrap` aborts. */
  function Fee(amount: U64): (r: Option<U64>)
    ensures r.Some? <==> amount * FEE_BASIS_POINTS <= U64_MAX
    ensures r.Some? ==> 100 * r.value <= amount < 100 * (r.value + 1)
  {
    if amount * FEE_BASIS_POINTS > U64_MAX then None
    else
      FeeIsOnePercent(amount);
      Some(amount * FEE_BASIS_POINTS / BPS_DENOMINATOR)
  }

  lemma FeeIsOnePercent(amount: nat)
    ensures amount * FEE_BASIS_POINTS / BPS_DENOMINATOR == amount / 100
    ensures 100 * (amount / 100) <= amount < 100 * (amount / 100 + 1)
  {
    var q := amount / 100;
    DivBracket(amount, 100);
    assert q * 100 <= amount < (q + 1) * 100;
    assert q * 10000 <= amount * 100 < (q + 1) * 10000;
    BelowQuotient(q, amount * 100, 10000);
    AboveQuotient(q + 1, amount * 100, 10000);
  }

  // ---------------------------------------------------------------------
  // buy

  datatype BuyQuote = BuyQuote(fee: U64, solAfterFee: U64, tokenAmount: U64)

  /** buy.rs lines 59-76: the guards, the fee taken from the input, the swap
      on the after-fee amount, and the slippage check. */
  function QuoteBuy(s: CurveState, solAmount: U64, minTokenAmount: U64): (r: Step<BuyQuote>)
    ensures solAmount == 0 ==> r == Rejected(Custom(InvalidAmount))
    ensures solAmount > 0 && s.complete ==> r == Rejected(Custom(CurveComplete))
    ensures r.Done? ==> solAmount > 0 && !s.complete && ReservesFormable(s)
    ensures r.Done? ==> Fee(solAmount) == Some(r.value.fee)
                        && r.value.fee + r.value.solAfterFee == solAmount
    ensures r.Done? ==> r.value.tokenAmount >= minTokenAmount
    ensures r.Done? ==> r.value.tokenAmount <= EffectiveToken(s)
    ensures r.Done? ==> SwapMath.CalculateBuyAmount(r.value.solAfterFee, EffectiveSol(s), EffectiveToken(s))
                        == Ok(r.value.tokenAmount)
    ensures solAmount > 0 && !s.complete && (Fee(solAmount).None? || !ReservesFormable(s)) ==> r == Panicked
    ensures solAmount > 0 && !s.complete && Fee(solAmount).Some? && ReservesFormable(s) ==>
              var fee := Fee(solAmount).value;
              var swap := SwapMath.CalculateBuyAmount(solAmount - fee, EffectiveSol(s), EffectiveToken(s));
              && swap.Ok?
              && (r.Done? <==> swap.value >= minTokenAmount)
              && (swap.value < minTokenAmount ==> r == Rejected(Custom(SlippageExceeded)))
  {
    if solAmount == 0 then Rejected(Custom(InvalidAmount))
    else if s.complete then Rejected(Custom(CurveComplete))
    else match Fee(solAmount)
      case None => Panicked
      case Some(fee) =>
        var solAfterFee := solAmount - fee;
        if !ReservesFormable(s) then Panicked
        else
          match SwapMath.CalculateBuyAmount(solAfterFee, EffectiveSol(s), EffectiveToken(s))
          case Err(e) => Rejected(Custom(e))
          case Ok(tokenAmount) =>
            if tokenAmount < minTokenAmount then Rejected(Custom(SlippageExceeded))
            else Done(BuyQuote(fee, solAfterFee, tokenAmount))
  }

  /** A buy quote is the constant-product output on the effective
      reserves, for the SOL left after the fee. */
  lemma QuoteBuyIsConstantProduct(s: CurveState, solAmount: U64, minTokenAmount: U64)
    requires QuoteBuy(s, solAmount, minTokenAmount).Done?
    ensures var q := QuoteBuy(s, solAmount, minTokenAmount).value;
            q.tokenAmount == SwapMath.ConstantProductOut(q.solAfterFee, EffectiveSol(s), EffectiveToken(s))
  {
    var q := QuoteBuy(s, solAmount, minTokenAmount).value;
    SwapMath.BuyAmountExact(q.solAfterFee, EffectiveSol(s), EffectiveToken(s));
  }

  /** buy.rs lines 79-84 as written: real SOL grows by the after-fee amount
      and real tokens SHRINK by the tokens bought; `None` where a checked
      update aborts. */
  function ApplyBuy(s: CurveState, q: BuyQuote): (r: Option<CurveState>)
    ensures r.Some? <==> s.realSolReserves + q.solAfterFee <= U64_MAX && q.tokenAmount <= s.realTokenReserves
    ensures r.Some? ==> r.value == s.(realSolReserves := s.realSolReserves + q.solAfterFee,
                                      realTokenReserves := s.realTokenReserves - q.tokenAmount)
  {
    if s.realSolReserves + q.solAfterFee > U64_MAX then None
    else if s.realTokenReserves < q.tokenAmount then None
    else Some(s.(realSolReserves := s.realSolReserves + q.solAfterFee,
                 realTokenReserves := s.realTokenReserves - q.tokenAmount))
  }

  /** The reserve update with real tokens GROWING by the tokens bought, as
      the effective reserve `virtual - real` requires. */
  function ApplyBuyFixed(s: CurveState, q: BuyQuote): (r: Option<CurveState>)
    ensures r.Some? <==> s.realSolReserves + q.solAfterFee <= U64_MAX && s.realTokenReserves + q.tokenAmount <= U64_MAX
    ensures r.Some? ==> r.value == s.(realSolReserves := s.realSolReserves + q.solAfterFee,
                                      realTokenReserves := s.realTokenReserves + q.tokenAmount)
  {
    if s.realSolReserves + q.solAfterFee > U64_MAX then None
    else if s.realTokenReserves + q.tokenAmount > U64_MAX then None
    else Some(s.(realSolReserves := s.realSolReserves + q.solAfterFee,
                 realTokenReserves := s.realTokenReserves + q.tokenAmount))
  }

  /** The reserves the event reports (buy.rs lines 155-156, sell.rs lines
      117-118), or `None` when forming them aborts. */
  function EventReserves(s: CurveState): (r: Option<(U64, U64)>)
    ensures r.Some? <==> ReservesFormable(s)
    ensures r.Some? ==> r.value == (EffectiveSol(s), EffectiveToken(s))
  {
    if ReservesFormable(s) then Some((EffectiveSol(s), EffectiveToken(s))) else None
  }

  /** The curve-side effect of a buy, transfers aside. */
  function PlanBuy(s: CurveState, solAmount: U64, minTokenAmount: U64, fixed: bool): Step<(BuyQuote, CurveState)> {
    match QuoteBuy(s, solAmount, minTokenAmount)
    case Rejected(e) => Rejected(e)
    case Panicked => Panicked
    case Done(q) =>
      var next := if fixed then ApplyBuyFixed(s, q) else ApplyBuy(s, q);
      if next.None? || EventReserves(next.value).None? then Panicked
      else Done((q, next.value))
  }

  /** The accounts a trade touches, by address. */
  datatype TradeAccounts = TradeAccounts(
    curve: Pubkey,
    user: Pubkey,
    userTokenAccount: Pubkey,
    curveTokenAccount: Pubkey,
    feeRecipient: Pubkey)

  datatype TradeResult = TradeResult(curve: CurveState, balances: Balances, event: TradeEvent)

  /** buy.rs lines 86-147: the after-fee lamports from the buyer to the
      curve, the fee (when non-zero) from the buyer to the fee recipient,
      then the tokens from the curve's token account to the buyer's; each
      transfer fails when its source is short. */
  function PayForBuy(b: Balances, a: TradeAccounts, q: BuyQuote): (r: Result<Balances, ProgramError>)
    ensures r.Err? ==> r.error == TransferFailed
    ensures a.user != a.curve ==>
              (r.Ok? <==> Bal(b.lamports, a.user) >= q.solAfterFee + q.fee
                          && Bal(b.tokens, a.curveTokenAccount) >= q.tokenAmount)
  {
    if Bal(b.lamports, a.user) < q.solAfterFee then Err(TransferFailed)
    else
      var lamports1 := Move(b.lamports, a.user, a.curve, q.solAfterFee);
      if q.fee > 0 && Bal(lamports1, a.user) < q.fee then Err(TransferFailed)
      else
        var lamports2 := if q.fee > 0 then Move(lamports1, a.user, a.feeRecipient, q.fee) else lamports1;
        if Bal(b.tokens, a.curveTokenAccount) < q.tokenAmount then Err(TransferFailed)
        else Ok(Balances(lamports2, Move(b.tokens, a.curveTokenAccount, a.userTokenAccount, q.tokenAmount)))
  }

  /** The whole `buy_handler`, as written: guards and quote, reserve update,
      the transfers, and the event. */
  function BuyInstruction(s: CurveState, b: Balances, a: TradeAccounts, solAmount: U64, minTokenAmount: U64): (r: Step<TradeResult>)
    ensures r.Done? ==> QuoteBuy(s, solAmount, minTokenAmount).Done?
    ensures r.Done? ==>
      var q := QuoteBuy(s, solAmount, minTokenAmount).value;
      && ApplyBuy(s, q) == Some(r.value.curve)
      && PayForBuy(b, a, q) == Ok(r.value.balances)
      && r.value.event.mint == s.mint && r.value.event.user == a.user && r.value.event.isBuy
      && r.value.event.solAmount == solAmount && r.value.event.tokenAmount == q.tokenAmount
      && r.value.event.virtualSolReserves == EffectiveSol(r.value.curve)
      && r.value.event.virtualTokenReserves == EffectiveToken(r.value.curve)
    ensures QuoteBuy(s, solAmount, minTokenAmount).Rejected? ==> r == Rejected(QuoteBuy(s, solAmount, minTokenAmount).error)
    ensures QuoteBuy(s, solAmount, minTokenAmount).Panicked? ==> r == Panicked
    ensures QuoteBuy(s, solAmount, minTokenAmount).Done? ==>
      var q := QuoteBuy(s, solAmount, minTokenAmount).value;
      var next := ApplyBuy(s, q);
      && (next.None? ==> r == Panicked)
      && (next.Some? && PayForBuy(b, a, q).Err? ==> r == Rejected(TransferFailed))
      && (next.Some? && PayForBuy(b, a, q).Ok? && !ReservesFormable(next.value) ==> r == Panicked)
      && (r.Done? <==> next.Some? && PayForBuy(b, a, q).Ok? && ReservesFormable(next.value))
  {
    match QuoteBuy(s, solAmount, minTokenAmount)
    case Rejected(e) => Rejected(e)
    case Panicked => Panicked
    case Done(q) =>
      match ApplyBuy(s, q)
      case None => Panicked
      case Some(next) =>
        match PayForBuy(b, a, q)
        case Err(e) => Rejected(e)
        case Ok(balances) =>
          match EventReserves(next)
          case None => Panicked
          case Some(reserves) =>
            Done(TradeResult(next, balances,
              TradeEvent(s.mint, a.user, solAmount, q.tokenAmount, true, reserves.0, reserves.1)))
  }

  // ---------------------------------------------------------------------
  // sell

  datatype SellQuote = SellQuote(solAmount: U64, fee: U64, solAfterFee: U64)

  /** sell.rs lines 59-76: the guards, the swap on the full token amount,
      the fee taken from the SOL output, and the slippage check on the net
      amount. */
  function QuoteSell(s: CurveState, tokenAmount: U64, minSolAmount: U64): (r: Step<SellQuote>)
    ensures tokenAmount == 0 ==> r == Rejected(Custom(InvalidAmount))
    ensures tokenAmount > 0 && s.complete ==> r == Rejected(Custom(CurveComplete))
    ensures r.Done? ==> tokenAmount > 0 && !s.complete && ReservesFormable(s)
    ensures r.Done? ==> SwapMath.CalculateSellAmount(tokenAmount, EffectiveToken(s), EffectiveSol(s))
                        == Ok(r.value.solAmount)
    ensures r.Done? ==> Fee(r.value.solAmount) == Some(r.value.fee)
                        && r.value.fee + r.value.solAfterFee == r.value.solAmount
    ensures r.Done? ==> r.value.solAfterFee >= minSolAmount
    ensures tokenAmount > 0 && !s.complete && !ReservesFormable(s) ==> r == Panicked
    ensures tokenAmount > 0 && !s.complete && ReservesFormable(s) ==>
              var swap := SwapMath.CalculateSellAmount(tokenAmount, EffectiveToken(s), EffectiveSol(s));
              && swap.Ok?
              && (Fee(swap.value).None? ==> r == Panicked)
              && (Fee(swap.value).Some? ==>
                    && (r.Done? <==> swap.value - Fee(swap.value).value >= minSolAmount)
                    && (!r.Done? ==> r == Rejected(Custom(SlippageExceeded))))
  {
    if tokenAmount == 0 then Rejected(Custom(InvalidAmount))
    else if s.complete then Rejected(Custom(CurveComplete))
    else if !ReservesFormable(s) then Panicked
    else
      match SwapMath.CalculateSellAmount(tokenAmount, EffectiveToken(s), EffectiveSol(s))
      case Err(e) => Rejected(Custom(e))
      case Ok(solAmount) =>
        match Fee(solAmount)
        case None => Panicked
        case Some(fee) =>
          var solAfterFee := solAmount - fee;
          if solAfterFee < minSolAmount then Rejected(Custom(SlippageExceeded))
          else Done(SellQuote(solAmount, fee, solAfterFee))
  }

  /** A sell quote, before the fee, is the constant-product output on the
      effective reserves with the token side as input. */
  lemma QuoteSellIsConstantProduct(s: CurveState, tokenAmount: U64, minSolAmount: U64)
    requires QuoteSell(s, tokenAmount, minSolAmount).Done?
    ensures var q := QuoteSell(s, tokenAmount, minSolAmount).value;
            q.solAmount == SwapMath.ConstantProductOut(tokenAmount, EffectiveToken(s), EffectiveSol(s))
            && q.solAmount <= EffectiveSol(s)
  {
    SwapMath.SellIsBuyWithRolesSwapped(tokenAmount, EffectiveToken(s), EffectiveSol(s));
    SwapMath.BuyAmountExact(tokenAmount, EffectiveToken(s), EffectiveSol(s));
  }

  /** sell.rs lines 94-99: real SOL shrinks by the GROSS amount (fee
      included), real tokens by the tokens sold; `None` on underflow. */
  function ApplySell(s: CurveState, q: SellQuote, tokenAmount: U64): (r: Option<CurveState>)
    ensures r.Some? <==> q.solAmount <= s.realSolReserves && tokenAmount <= s.realTokenReserves
    ensures r.Some? ==> r.value == s.(realSolReserves := s.realSolReserves - q.solAmount,
                                      realTokenReserves := s.realTokenReserves - tokenAmount)
  {
    if s.realSolReserves < q.solAmount then None
    else if s.realTokenReserves < tokenAmount then None
    else Some(s.(realSolReserves := s.realSolReserves - q.solAmount,
                 realTokenReserves := s.realTokenReserves - tokenAmount))
  }

  /** The curve-side effect of a sell, transfers aside. */
  function PlanSell(s: CurveState, tokenAmount: U64, minSolAmount: U64): Step<(SellQuote, CurveState)> {
    match QuoteSell(s, tokenAmount, minSolAmount)
    case Rejected(e) => Rejected(e)
    case Panicked => Panicked
    case Done(q) =>
      match ApplySell(s, q, tokenAmount)
      case None => Panicked
      case Some(next) => Done((q, next))
  }

  /** sell.rs lines 101-109: the net lamports, then the fee when non-zero,
      debited from the curve account and credited to the seller and the fee
      recipient; a debit below zero aborts (`None`). */
  function PaySeller(lamports: map<Pubkey, nat>, a: TradeAccounts, q: SellQuote): (r: Option<map<Pubkey, nat>>)
    ensures a.curve != a.user ==> (r.Some? <==> Bal(lamports, a.curve) >= q.solAfterFee + q.fee)
  {
    if Bal(lamports, a.curve) < q.solAfterFee then None
    else
      var lamports1 := Move(lamports, a.curve, a.user, q.solAfterFee);
      if q.fee > 0 && Bal(lamports1, a.curve) < q.fee then None
      else Some(if q.fee > 0 then Move(lamports1, a.curve, a.feeRecipient, q.fee) else lamports1)
  }

  /** The whole `sell_handler`: guards and quote, the tokens to the curve,
      the reserve update, the lamports paid out of the curve, and the
      event. */
  function SellInstruction(s: CurveState, b: Balances, a: TradeAccounts, tokenAmount: U64, minSolAmount: U64): (r: Step<TradeResult>)
    ensures r.Done? ==> QuoteSell(s, tokenAmount, minSolAmount).Done?
    ensures r.Done? ==>
      var q := QuoteSell(s, tokenAmount, minSolAmount).value;
      && ApplySell(s, q, tokenAmount) == Some(r.value.curve)
      && Bal(b.tokens, a.userTokenAccount) >= tokenAmount
      && r.value.balances.tokens == Move(b.tokens, a.userTokenAccount, a.curveTokenAccount, tokenAmount)
      && PaySeller(b.lamports, a, q) == Some(r.value.balances.lamports)
      && r.value.event.mint == s.mint && r.value.event.user == a.user && !r.value.event.isBuy
      && r.value.event.solAmount == q.solAfterFee && r.value.event.tokenAmount == tokenAmount
      && r.value.event.virtualSolReserves == EffectiveSol(r.value.curve)
      && r.value.event.virtualTokenReserves == EffectiveToken(r.value.curve)
    ensures QuoteSell(s, tokenAmount, minSolAmount).Rejected? ==> r == Rejected(QuoteSell(s, tokenAmount, minSolAmount).error)
    ensures QuoteSell(s, tokenAmount, minSolAmount).Panicked? ==> r == Panicked
    ensures QuoteSell(s, tokenAmount, minSolAmount).Done? ==>
      var q := QuoteSell(s, tokenAmount, minSolAmount).value;
      var next := ApplySell(s, q, tokenAmount);
      && (Bal(b.tokens, a.userTokenAccount) < tokenAmount ==> r == Rejected(TransferFailed))
      && ((Bal(b.tokens, a.userTokenAccount) >= tokenAmount && (next.None? || PaySeller(b.lamports, a, q).None?))
            ==> r == Panicked)
      && (r.Done? <==> && Bal(b.tokens, a.userTokenAccount) >= tokenAmount
                       && next.Some? && PaySeller(b.lamports, a, q).Some? && ReservesFormable(next.value))
  {
    match QuoteSell(s, tokenAmount, minSolAmount)
    case Rejected(e) => Rejected(e)
    case Panicked => Panicked
    case Done(q) =>
      if Bal(b.tokens, a.userTokenAccount) < tokenAmount then Rejected(TransferFailed)
      else
        var tokens := Move(b.tokens, a.userTokenAccount, a.curveTokenAccount, tokenAmount);
        match ApplySell(s, q, tokenAmount)
        case None => Panicked
        case Some(next) =>
          match PaySeller(b.lamports, a, q)
          case None => Panicked
          case Some(lamports) =>
            match EventReserves(next)
            case None => Panicked
            case Some(reserves) =>
              Done(TradeResult(next, Balances(lamports, tokens),
                TradeEvent(s.mint, a.user, q.solAfterFee, tokenAmount, false, reserves.0, reserves.1)))
  }

  // ---------------------------------------------------------------------
  // create_bonding_curve

  datatype CreateParams = CreateParams(initialSupply: U64, virtualTokenReserves: U64, virtualSolReserves: U64)

  datatype CreateAccounts = CreateAccounts(
    mint: Pubkey,
    creator: Pubkey,
    creatorTokenAccount: Pubkey,
    curveTokenAccount: Pubkey)

  datatype Created = Created(curve: CurveState, totalCurves: U64, balances: Balances)

  /** The first failing parameter check of create_bonding_curve.rs lines
      70-84, in source order. */
  function CreateCheck(p: CreateParams, creatorBalance: nat): Option<ErrorCode> {
    if p.initialSupply == 0 || p.virtualTokenReserves == 0 || p.virtualSolReserves == 0 then Some(InvalidAmount)
    else if p.virtualTokenReserves <= p.initialSupply then Some(VirtualReservesTooSmall)
    else if creatorBalance != p.initialSupply then Some(InsufficientBalance)
    else None
  }

  /** The whole `create_bonding_curve_handler`: checks, the new curve, the
      curve counter, the supply moved to the curve's token account and the
      balance check after it. */
  function CreateInstruction(totalCurves: U64, b: Balances, a: CreateAccounts, p: CreateParams): (r: Step<Created>)
    ensures p.initialSupply == 0 || p.virtualTokenReserves == 0 || p.virtualSolReserves == 0
            ==> r == Rejected(Custom(InvalidAmount))
    ensures r.Done? ==>
      var c := r.value.curve;
      && c.realTokenReserves == 0 && c.realSolReserves == 0
      && c.tokenTotalSupply == p.initialSupply && !c.complete
      && c.virtualTokenReserves == p.virtualTokenReserves && c.virtualSolReserves == p.virtualSolReserves
      && c.mint == a.mint && c.creator == a.creator
      && c.index == totalCurves && r.value.totalCurves == totalCurves + 1
      && EffectiveToken(c) > c.tokenTotalSupply > 0 && EffectiveSol(c) > 0
    ensures r.Done? <==>
      && CreateCheck(p, Bal(b.tokens, a.creatorTokenAccount)).None?
      && totalCurves < U64_MAX
      && Bal(Move(b.tokens, a.creatorTokenAccount, a.curveTokenAccount, p.initialSupply), a.curveTokenAccount)
         == p.initialSupply
  {
    var check := CreateCheck(p, Bal(b.tokens, a.creatorTokenAccount));
    if check.Some? then Rejected(Custom(check.value))
    else
      var curve := CurveState(a.mint, a.creator, p.virtualTokenReserves, p.virtualSolReserves,
                              0, 0, p.initialSupply, false, totalCurves);
      if totalCurves + 1 > U64_MAX then Panicked
      else
        var tokens := Move(b.tokens, a.creatorTokenAccount, a.curveTokenAccount, p.initialSupply);
        if Bal(tokens, a.curveTokenAccount) != p.initialSupply then Rejected(Custom(InvalidSupply))
        else Done(Created(curve, totalCurves + 1, Balances(b.lamports, tokens)))
  }
}
