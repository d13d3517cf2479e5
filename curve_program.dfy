/** The on-chain accounts as mutable objects and the instruction handlers
    as methods on them. A Solana transaction is atomic: when a handler
    returns an error or aborts, none of its writes persist. The methods
    therefore compute in the handler's order and write the accounts only
    once every step has succeeded; each is specified by the matching
    instruction function of `CurveSpec`. */
module CurveProgram {
  import opened Base
  import opened ProgramErrors
  import opened CurveSpec

  /** The singleton global configuration account. */
  class GlobalConfig {
    var authority: Pubkey
    var feeRecipient: Pubkey
    var totalCurves: U64

    /** `initialize_global_config`: the signer becomes the authority, the
        fee recipient is recorded, and no curve exists yet. */
    constructor Initialize(authority: Pubkey, feeRecipient: Pubkey)
      ensures this.authority == authority && this.feeRecipient == feeRecipient
      ensures totalCurves == 0
    {
      this.authority := authority;
      this.feeRecipient := feeRecipient;
      totalCurves := 0;
    }
  }

  /** The lamport balances of system accounts and the token balances of
      token accounts, by address. */
  class Ledger {
    var lamports: map<Pubkey, nat>
    var tokens: map<Pubkey, nat>

    constructor (lamports: map<Pubkey, nat>, tokens: map<Pubkey, nat>)
      ensures Balances() == CurveSpec.Balances(lamports, tokens)
    {
      this.lamports := lamports;
      this.tokens := tokens;
    }

    function Balances(): CurveSpec.Balances
      reads this
    {
      CurveSpec.Balances(lamports, tokens)
    }

    /** The three transfers of `buy_handler`, worked out on the current
        balances; the caller writes them once the whole handler succeeds. */
    method BuyTransfers(a: TradeAccounts, q: BuyQuote) returns (r: Result<CurveSpec.Balances, ProgramError>)
      ensures r == PayForBuy(Balances(), a, q)
    {
      var lamports := this.lamports;
      if Bal(lamports, a.user) < q.solAfterFee {
        return Err(TransferFailed);
      }
      lamports := Move(lamports, a.user, a.curve, q.solAfterFee);
      if q.fee > 0 {
        if Bal(lamports, a.user) < q.fee {
          return Err(TransferFailed);
        }
        lamports := Move(lamports, a.user, a.feeRecipient, q.fee);
      }
      if Bal(tokens, a.curveTokenAccount) < q.tokenAmount {
        return Err(TransferFailed);
      }
      r := Ok(CurveSpec.Balances(lamports, Move(tokens, a.curveTokenAccount, a.userTokenAccount, q.tokenAmount)));
    }

    /** The lamport debits of `sell_handler` from the curve account, worked
        out on the current balances; `None` where a debit would abort. */
    method SellPayout(a: TradeAccounts, q: SellQuote) returns (r: Option<map<Pubkey, nat>>)
      ensures r == PaySeller(lamports, a, q)
    {
      var lamports := this.lamports;
      if Bal(lamports, a.curve) < q.solAfterFee {
        return None;
      }
      lamports := Move(lamports, a.curve, a.user, q.solAfterFee);
      if q.fee > 0 {
        if Bal(lamports, a.curve) < q.fee {
          return None;
        }
        lamports := Move(lamports, a.curve, a.feeRecipient, q.fee);
      }
      r := Some(lamports);
    }
  }

  /** What a handler reports: the event it emits, or why it failed. */
  function Report(r: Step<TradeResult>): Step<TradeEvent> {
    match r
    case Done(v) => Done(v.event)
    case Rejected(e) => Rejected(e)
    case Panicked => Panicked
  }

  /** A bonding curve account at a fixed address. */
  class BondingCurve {
    const address: Pubkey
    var mint: Pubkey
    var creator: Pubkey
    var virtualTokenReserves: U64
    var virtualSolReserves: U64
    var realTokenReserves: U64
    var realSolReserves: U64
    var tokenTotalSupply: U64
    var complete: bool
    var index: U64

    function State(): CurveState
      reads this
    {
      CurveState(mint, creator, virtualTokenReserves, virtualSolReserves,
                 realTokenReserves, realSolReserves, tokenTotalSupply, complete, index)
    }

    constructor (address: Pubkey, s: CurveState)
      ensures this.address == address && State() == s
    {
      this.address := address;
      mint := s.mint;
      creator := s.creator;
      virtualTokenReserves := s.virtualTokenReserves;
      virtualSolReserves := s.virtualSolReserves;
      realTokenReserves := s.realTokenReserves;
      realSolReserves := s.realSolReserves;
      tokenTotalSupply := s.tokenTotalSupply;
      complete := s.complete;
      index := s.index;
    }

    /** The checks and the pricing at the head of `buy_handler`: the
        amount and the curve's state are validated, the fee is taken off
        the top, the swap is priced on the effective reserves, and the
        slippage bound is applied. Nothing is written. */
    method PriceBuy(solAmount: U64, minTokenAmount: U64) returns (quote: Step<BuyQuote>)
      ensures quote == QuoteBuy(State(), solAmount, minTokenAmount)
    {
      if solAmount == 0 {
        return Rejected(Custom(InvalidAmount));
      }
      if complete {
        return Rejected(Custom(CurveComplete));
      }
      var fee := Fee(solAmount);
      if fee.None? {
        return Panicked;
      }
      var solAfterFee := solAmount - fee.value;
      var s := State();
      var solReserves := EffectiveSol(s);
      var tokenReserves := EffectiveToken(s);
      if solReserves > U64_MAX || tokenReserves < 0 {
        return Panicked;
      }
      var swap := SwapMath.CalculateBuyAmount(solAfterFee, solReserves, tokenReserves);
      if swap.Err? {
        match swap case Err(e) => return Rejected(Custom(e));
      }
      var tokenAmount := swap.value;
      if tokenAmount < minTokenAmount {
        return Rejected(Custom(SlippageExceeded));
      }
      quote := Done(BuyQuote(fee.value, solAfterFee, tokenAmount));
    }

    /** `buy_handler`. The fee recipient is the configured one (the
        account constraint of the instruction). */
    method Buy(config: GlobalConfig, ledger: Ledger, user: Pubkey, userTokenAccount: Pubkey,
               curveTokenAccount: Pubkey, solAmount: U64, minTokenAmount: U64)
      returns (outcome: Step<TradeEvent>)
      modifies this, ledger
      ensures var r := BuyInstruction(old(State()), old(ledger.Balances()),
                         TradeAccounts(address, user, userTokenAccount, curveTokenAccount, config.feeRecipient),
                         solAmount, minTokenAmount);
              && outcome == Report(r)
              && (r.Done? ==> State() == r.value.curve && ledger.Balances() == r.value.balances)
              && (!r.Done? ==> State() == old(State()) && ledger.Balances() == old(ledger.Balances()))
    {
      var s := State();
      var quote := PriceBuy(solAmount, minTokenAmount);
      match quote {
        case Rejected(e) => return Rejected(e);
        case Panicked => return Panicked;
        case Done(_) =>
      }
      var q := quote.value;

      // reserve update, as written
      if realSolReserves + q.solAfterFee > U64_MAX || realTokenReserves < q.tokenAmount {
        return Panicked;
      }
      var newRealSol := realSolReserves + q.solAfterFee;
      var newRealToken := realTokenReserves - q.tokenAmount;
      var next := s.(realSolReserves := newRealSol, realTokenReserves := newRealToken);
      assert ApplyBuy(s, q) == Some(next);

      var accounts := TradeAccounts(address, user, userTokenAccount, curveTokenAccount, config.feeRecipient);
      var paid := ledger.BuyTransfers(accounts, q);
      if paid.Err? {
        match paid case Err(e) => return Rejected(e);
      }

      // the event's reserves
      var reserves := EventReserves(next);
      if reserves.None? {
        return Panicked;
      }

      realSolReserves := newRealSol;
      realTokenReserves := newRealToken;
      ledger.lamports := paid.value.lamports;
      ledger.tokens := paid.value.tokens;
      assert State() == next;
      outcome := Done(TradeEvent(mint, user, solAmount, q.tokenAmount, true, reserves.value.0, reserves.value.1));
    }

    /** The checks and the pricing at the head of `sell_handler`: the swap
        is priced on the effective reserves with the tokens as input, the
        fee is taken from its output, and the slippage bound applies to
        what is left. Nothing is written. */
    method PriceSell(tokenAmount: U64, minSolAmount: U64) returns (quote: Step<SellQuote>)
      ensures quote == QuoteSell(State(), tokenAmount, minSolAmount)
    {
      if tokenAmount == 0 {
        return Rejected(Custom(InvalidAmount));
      }
      if complete {
        return Rejected(Custom(CurveComplete));
      }
      var s := State();
      var tokenReserves := EffectiveToken(s);
      var solReserves := EffectiveSol(s);
      if solReserves > U64_MAX || tokenReserves < 0 {
        return Panicked;
      }
      var swap := SwapMath.CalculateSellAmount(tokenAmount, tokenReserves, solReserves);
      if swap.Err? {
        match swap case Err(e) => return Rejected(Custom(e));
      }
      var solAmount := swap.value;
      var fee := Fee(solAmount);
      if fee.None? {
        return Panicked;
      }
      var solAfterFee := solAmount - fee.value;
      if solAfterFee < minSolAmount {
        return Rejected(Custom(SlippageExceeded));
      }
      quote := Done(SellQuote(solAmount, fee.value, solAfterFee));
    }

    /** `sell_handler`. The lamports leave the curve account by direct
        debit, so a shortfall there aborts rather than failing a transfer. */
    method Sell(config: GlobalConfig, ledger: Ledger, user: Pubkey, userTokenAccount: Pubkey,
                curveTokenAccount: Pubkey, tokenAmount: U64, minSolAmount: U64)
      returns (outcome: Step<TradeEvent>)
      modifies this, ledger
      ensures var r := SellInstruction(old(State()), old(ledger.Balances()),
                         TradeAccounts(address, user, userTokenAccount, curveTokenAccount, config.feeRecipient),
                         tokenAmount, minSolAmount);
              && outcome == Report(r)
              && (r.Done? ==> State() == r.value.curve && ledger.Balances() == r.value.balances)
              && (!r.Done? ==> State() == old(State()) && ledger.Balances() == old(ledger.Balances()))
    {
      var s := State();
      var quote := PriceSell(tokenAmount, minSolAmount);
      match quote {
        case Rejected(e) => return Rejected(e);
        case Panicked => return Panicked;
        case Done(_) =>
      }
      var q := quote.value;

      // the tokens from the seller to the curve
      var tokens := ledger.tokens;
      if Bal(tokens, userTokenAccount) < tokenAmount {
        return Rejected(TransferFailed);
      }
      tokens := Move(tokens, userTokenAccount, curveTokenAccount, tokenAmount);

      // reserve update
      if realSolReserves < q.solAmount || realTokenReserves < tokenAmount {
        return Panicked;
      }
      var newRealSol := realSolReserves - q.solAmount;
      var newRealToken := realTokenReserves - tokenAmount;
      var next := s.(realSolReserves := newRealSol, realTokenReserves := newRealToken);
      assert ApplySell(s, q, tokenAmount) == Some(next);

      // the net lamports to the seller, then the fee, debited from the curve
      var accounts := TradeAccounts(address, user, userTokenAccount, curveTokenAccount, config.feeRecipient);
      var lamports := ledger.SellPayout(accounts, q);
      if lamports.None? {
        return Panicked;
      }

      // the event's reserves
      var reserves := EventReserves(next);
      if reserves.None? {
        return Panicked;
      }

      realSolReserves := newRealSol;
      realTokenReserves := newRealToken;
      ledger.lamports := lamports.value;
      ledger.tokens := tokens;
      assert State() == next;
      outcome := Done(TradeEvent(mint, user, q.solAfterFee, tokenAmount, false, reserves.value.0, reserves.value.1));
    }
  }

  /** `create_bonding_curve_handler`: on success a fresh curve account at
      `address`, numbered by the configuration's curve count, which grows
      by one; the whole supply moves to the curve's token account. */
  method CreateBondingCurve(config: GlobalConfig, ledger: Ledger, address: Pubkey,
                            a: CreateAccounts, p: CreateParams)
    returns (outcome: Step<()>, curve: BondingCurve?)
    modifies config, ledger
    ensures var r := CreateInstruction(old(config.totalCurves), old(ledger.Balances()), a, p);
            && (r.Done? ==> && outcome == Done(())
                            && curve != null && fresh(curve) && curve.address == address
                            && curve.State() == r.value.curve
                            && config.totalCurves == r.value.totalCurves
                            && ledger.Balances() == r.value.balances)
            && (r.Rejected? ==> outcome == Rejected(r.error))
            && (r.Panicked? ==> outcome == Panicked)
            && (!r.Done? ==> && curve == null
                             && config.totalCurves == old(config.totalCurves)
                             && ledger.Balances() == old(ledger.Balances()))
    ensures config.authority == old(config.authority) && config.feeRecipient == old(config.feeRecipient)
  {
    curve := null;
    if p.initialSupply == 0 || p.virtualTokenReserves == 0 || p.virtualSolReserves == 0 {
      return Rejected(Custom(InvalidAmount)), null;
    }
    if p.virtualTokenReserves <= p.initialSupply {
      return Rejected(Custom(VirtualReservesTooSmall)), null;
    }
    if Bal(ledger.tokens, a.creatorTokenAccount) != p.initialSupply {
      return Rejected(Custom(InsufficientBalance)), null;
    }
    var state := CurveState(a.mint, a.creator, p.virtualTokenReserves, p.virtualSolReserves,
                            0, 0, p.initialSupply, false, config.totalCurves);
    if config.totalCurves + 1 > U64_MAX {
      return Panicked, null;
    }
    var tokens := Move(ledger.tokens, a.creatorTokenAccount, a.curveTokenAccount, p.initialSupply);
    if Bal(tokens, a.curveTokenAccount) != p.initialSupply {
      return Rejected(Custom(InvalidSupply)), null;
    }
    curve := new BondingCurve(address, state);
    config.totalCurves := config.totalCurves + 1;
    ledger.tokens := tokens;
    outcome := Done(());
  }
}
