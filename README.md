# hook-amm in Dafny

hook-amm is a Solana bonding-curve market for SPL and Token-2022 tokens. Each
mint has one curve, and a curve prices trades by the constant-product rule
`x * y = k`. The rule runs on *effective* reserves:

- the SOL side is the virtual SOL reserve plus the real SOL reserve;
- the token side is the virtual token reserve minus the real token reserve.

The program charges a 1% fee, paid to a fee recipient held in a global
configuration account. Its TypeScript SDK repeats the pricing on arbitrary
precision integers (bn.js). The SDK also formats and parses token amounts,
works out which extra accounts a Token-2022 transfer hook needs, and turns
error codes into messages.

This project models:

- the program's swap formula, as pure functions with their proofs;
- the four instruction handlers, as classes with mutable fields (`GlobalConfig`, `BondingCurve`, `Ledger`), each method proved against a pure instruction function;
- the SDK's quote, fee, slippage, amount-format, token-hook and error helpers;
- lemmas connecting the SDK's client-side quotes to what the program does.

Modules:

| file | module | models |
|---|---|---|
| base.dfy | `Base`, `Arith` | `u64`/`u128` bounds, truncating division (Rust and bn.js), facts about division |
| program_errors.dfy | `ProgramErrors` | the program's `ErrorCode` and its Anchor numbers |
| swap_math.dfy | `SwapMath` | `calculate_buy_amount` / `calculate_sell_amount` |
| curve_spec.dfy | `CurveSpec` | the handlers as pure functions: quotes, reserve updates, transfers, events |
| curve_program.dfy | `CurveProgram` | the accounts as classes, one method per handler |
| curve_properties.dfy | `CurveProperties` | settlement, the reserve bookkeeping of `buy`, curve numbering |
| sdk_math.dfy | `SdkMath` | `sdk/src/utils/math.ts` |
| sdk_utils.dfy | `SdkUtils` | the quotes, fee, slippage and `isCurveActive` of `sdk/src/utils.ts` |
| decimal.dfy | `Decimal` | the JavaScript string operations and `new BN(string)` |
| amount_format.dfy | `AmountFormat` | `formatTokenAmount` / `parseTokenAmount` and the SOL variants |
| token_hooks.dfy | `TokenHooks` | `sdk/src/utils/token.ts` |
| sdk_errors.dfy | `SdkErrors` | `sdk/src/errors.ts` |
| quote_agreement.dfy | `QuoteAgreement` | the SDK's simulated quotes against the program |

Modelling conventions:

- **Instruction outcomes.** A handler's outcome is a `Step`:
  - `Done` carries the new state;
  - `Rejected(e)` is a `require!` failure or a failed token or system transfer;
  - `Panicked` is an `unwrap` on `None`, or an overflow-checked `+`/`-` that aborts.
- **Atomicity.** A Solana transaction is atomic, so after either failure every account is as before. The methods therefore write their fields only once every step has succeeded.
- **Overflow checks.** The unchecked `+` and `-` that form the effective reserves (buy.rs lines 72-73, sell.rs lines 65-66, and the event fields) are modelled as aborting on overflow. This assumes the release profile enables overflow checks, as Anchor's template does.
- **bn.js arithmetic.** bn.js values are unbounded integers. `div`, `divn` and `mod` truncate toward zero. `muln` refuses multipliers of magnitude 2^26 or more, `toNumber` refuses magnitudes of 2^53 or more, and `new BN(text)` throws on a character other than a digit, whitespace or a leading `'-'`; a non-empty text with no digit, such as `"-"` or `" "`, leaves a malformed value and is treated as a throw too. Each thrown error is a `None`.
- **Token-hook inputs.** The mint account an RPC read returns is an input. Program-derived-address search is an opaque function of the seeds and the program.
- **Hook-account derivations.** `getTransferHookAccounts` pushes the extra-account-metas address before it derives the counter address, so a failed counter derivation leaves two entries (sdk/src/utils/token.ts lines 79-103). A failed derivation is only logged with `console.warn` (lines 104-106), and the list built so far is returned.

## Model

| member | source | states |
|---|---|---|
| ProgramErrors.AnchorErrorNumber | programs/hook-amm/src/errors.rs:3-26 | every program error is reported as a number from 6000 to 6010 (6000 plus its position in the enumeration) |
| ProgramErrors.ErrorNumbersDistinct | programs/hook-amm/src/errors.rs:3-26 | two errors share a number only if they are the same error |
| SwapMath.CalculateBuyAmount | programs/hook-amm/src/utils.rs:5-30 | succeeds exactly when `S + a > 0`; the only error it can return is `Overflow` (the `InsufficientReserves` and `u64` conversion failures are unreachable); the tokens out never exceed the token reserve |
| SwapMath.CalculateSellAmount | programs/hook-amm/src/utils.rs:32-57 | succeeds exactly when `T + t > 0`; only `Overflow` is reachable; the lamports out never exceed the SOL reserve |
| SwapMath.ProductFitsU128 | programs/hook-amm/src/utils.rs:18 | the `u128` product of two `u64` reserves never overflows |
| SwapMath.NewReserveBounded | programs/hook-amm/src/utils.rs:21-24 | the new reserve `floor(x*y/(x+in))` is at most the old one, so the checked subtraction never fails |
| SwapMath.BuyAmountExact | programs/hook-amm/src/utils.rs:15-29 | the checked `u128` pipeline returns exactly `T - floor(S*T/(S+a))` |
| SwapMath.SellIsBuyWithRolesSwapped | programs/hook-amm/src/utils.rs:32-57 | `calculate_sell_amount(t, T, S)` equals `calculate_buy_amount(t, T, S)` for every input |
| SwapMath.BuyAmountRounding | programs/hook-amm/src/utils.rs:18-24 | after a trade the pool's product is at most `k` and falls short of it by less than the new input reserve |
| SwapMath.BuyAmountMonotone | programs/hook-amm/src/utils.rs:15-24 | paying more never buys fewer tokens |
| SwapMath.BuyAmountOfNothing | programs/hook-amm/src/utils.rs:15-24 | paying 0 into a funded pool buys 0 tokens |
| CurveSpec.Move | programs/hook-amm/src/instructions/buy.rs:86-147 | a transfer debits the source and credits the destination by the amount and leaves every other balance alone |
| CurveSpec.Fee | programs/hook-amm/src/instructions/buy.rs:63-67 | the fee exists exactly when `amount * 100` fits in `u64`, and it is the floor of 1% of the amount |
| CurveSpec.FeeIsOnePercent | programs/hook-amm/src/instructions/buy.rs:63-67 | `amount * 100 / 10000` is `amount / 100`, bracketed by the amount |
| CurveSpec.QuoteBuy | programs/hook-amm/src/instructions/buy.rs:59-76 | a zero amount gives `InvalidAmount` and a complete curve gives `CurveComplete`, both before anything else; a fee that overflows or reserves that cannot be formed abort; the swap on the effective reserves never fails on a buy; the buy is then accepted exactly when the tokens meet the minimum, and refused with `SlippageExceeded` otherwise; on success the fee and the after-fee amount add up to `sol_amount` and the tokens do not exceed the token reserve |
| CurveSpec.QuoteBuyIsConstantProduct | programs/hook-amm/src/instructions/buy.rs:70-74 | an accepted buy is priced by the unbounded constant-product formula on the after-fee amount |
| CurveSpec.PlanBuy | programs/hook-amm/src/instructions/buy.rs:59-84 | the curve-side effect of a buy, as written or with the corrected update; its properties are proved in `CurveProperties.AsWrittenBuyFailsWithoutRealTokens`, `CurveProperties.FixedBuyDrawsDownTokenReserve` and `CurveProperties.FixedTradesKeepCurveSound` |
| CurveSpec.ApplyBuy | programs/hook-amm/src/instructions/buy.rs:79-84 | as written: real SOL grows by the after-fee amount and real tokens shrink by the tokens bought; it aborts exactly when one of the two overflows or underflows |
| CurveSpec.ApplyBuyFixed | programs/hook-amm/src/instructions/buy.rs:79-84 | the corrected update: real tokens grow by the tokens bought; it aborts exactly on `u64` overflow |
| CurveSpec.EventReserves | programs/hook-amm/src/instructions/buy.rs:155-156 | the event's reserves are the effective reserves after the update, and they are formed exactly when they fit in `u64` |
| CurveSpec.PayForBuy | programs/hook-amm/src/instructions/buy.rs:86-147 | a failed transfer is `TransferFailed`; for a buyer other than the curve, the three transfers succeed exactly when the buyer holds `sol_amount` lamports and the curve's token account holds the tokens |
| CurveSpec.BuyInstruction | programs/hook-amm/src/instructions/buy.rs:58-160 | a refused or aborted quote is the outcome of the instruction; after an accepted quote, a failed reserve update aborts, a buyer or curve token account that is short gives `TransferFailed`, new reserves that cannot be formed abort, and the buy completes exactly when none of these happens; a completed buy is the as-written reserve update and the transfers, and its event carries the gross `sol_amount` and the updated effective reserves |
| CurveSpec.QuoteSell | programs/hook-amm/src/instructions/sell.rs:59-76 | zero amount or a complete curve is rejected first; reserves that cannot be formed abort; the swap on the full token amount never fails; a fee that overflows aborts; the sell is then accepted exactly when the net amount after the fee meets the minimum, and refused with `SlippageExceeded` otherwise |
| CurveSpec.QuoteSellIsConstantProduct | programs/hook-amm/src/instructions/sell.rs:63-67 | an accepted sell is priced by the constant-product formula and pays out at most the SOL reserve |
| CurveSpec.PlanSell | programs/hook-amm/src/instructions/sell.rs:59-99 | the curve-side effect of a sell; `CurveProperties.FixedTradesKeepCurveSound` proves that with the corrected buy update it keeps the reserves formable and the real token reserve equal to the tokens bought minus the tokens sold |
| CurveSpec.ApplySell | programs/hook-amm/src/instructions/sell.rs:94-99 | real SOL shrinks by the gross amount (fee included) and real tokens by the tokens sold; it aborts exactly on underflow |
| CurveSpec.PaySeller | programs/hook-amm/src/instructions/sell.rs:101-109 | the curve's direct debits succeed exactly when it holds the net amount plus the fee (for a seller other than the curve) |
| CurveSpec.SellInstruction | programs/hook-amm/src/instructions/sell.rs:58-122 | a refused or aborted quote is the outcome of the instruction; after an accepted quote, a seller short of tokens gives `TransferFailed`, and a failed reserve update or a payout the curve account cannot cover aborts; the sell completes exactly when none of these happens and the new reserves can be formed; a completed sell moves the tokens from the seller, applies the reserve update, pays out of the curve, and reports the net amount and the updated effective reserves |
| CurveSpec.CreateInstruction | programs/hook-amm/src/instructions/create_bonding_curve.rs:68-120 | any zero parameter gives `InvalidAmount`; success happens exactly when the checks pass, the counter can grow and the curve's token account then holds the supply; a new curve has zero real reserves, the given virtual reserves and supply, is not complete, takes index `total_curves`, and the counter grows by one |
| CurveProgram.GlobalConfig.Initialize | programs/hook-amm/src/instructions/initialize_global_config.rs:25-31 | the signer becomes the authority, the fee recipient is recorded, and the curve count starts at 0; there is no failure path |
| CurveProgram.Ledger.BuyTransfers | programs/hook-amm/src/instructions/buy.rs:86-147 | the buyer's lamport and token transfers, step by step, yield `PayForBuy` |
| CurveProgram.Ledger.SellPayout | programs/hook-amm/src/instructions/sell.rs:101-109 | the curve's lamport debits and credits, step by step, yield `PaySeller` |
| CurveProgram.BondingCurve.PriceBuy | programs/hook-amm/src/instructions/buy.rs:59-76 | the checks and pricing on the account's fields give `QuoteBuy` |
| CurveProgram.BondingCurve.Buy | programs/hook-amm/src/instructions/buy.rs:58-160 | the curve and the balances become those of `BuyInstruction`, and the method reports its event or error; on any failure curve and balances are unchanged |
| CurveProgram.BondingCurve.PriceSell | programs/hook-amm/src/instructions/sell.rs:59-76 | the checks and pricing on the account's fields give `QuoteSell` |
| CurveProgram.BondingCurve.Sell | programs/hook-amm/src/instructions/sell.rs:58-122 | the same for `SellInstruction` |
| CurveProgram.CreateBondingCurve | programs/hook-amm/src/instructions/create_bonding_curve.rs:68-138 | on success a fresh curve object in `CreateInstruction`'s state, the counter incremented and the supply moved; on failure no curve and nothing changed; the authority and fee recipient are never written |
| CurveProperties.BuySettlement | programs/hook-amm/src/instructions/buy.rs:86-147 | the buyer pays exactly `sol_amount`: the after-fee part goes to the curve and the fee to the recipient; the tokens move from the curve's account to the buyer's |
| CurveProperties.SellSettlement | programs/hook-amm/src/instructions/sell.rs:78-109 | the curve pays out the gross amount: the net part to the seller, the fee to the recipient; the tokens move from the seller to the curve's account |
| CurveProperties.TradesKeepCurveConstants | programs/hook-amm/src/instructions/buy.rs:58-160 | buys and sells write only the two real reserves; the virtual reserves, supply, flag, mint, creator and index stay as they were |
| CurveProperties.AsWrittenBuyRaisesTokenReserve | programs/hook-amm/src/instructions/buy.rs:72-84 | as written, a buy raises the effective token reserve by the tokens it hands out |
| CurveProperties.AsWrittenBuyPanicsOnFreshCurve | programs/hook-amm/src/instructions/buy.rs:82-84 | on a fresh 10 SOL / 500,000 token curve, a 1 SOL buy quotes 45,040,946,315 tokens and then aborts |
| CurveProperties.AsWrittenBuyFailsWithoutRealTokens | programs/hook-amm/src/instructions/buy.rs:70-84 | as written, a buy on a curve with no real tokens and a non-zero virtual token reserve never completes: an accepted quote is at least one token, and the update subtracts it from 0 |
| CurveProperties.AsWrittenCurveNeverTrades | programs/hook-amm/src/instructions/buy.rs:82-84 | as written, on a curve whose real token reserve is 0 (every fresh curve) no sequence of trades ever hands out or takes back a token; when its virtual token reserve is non-zero (every curve that passed creation) no buy and no sell completes at all, and the curve stays exactly as it was |
| CurveProperties.FixedBuyDrawsDownTokenReserve | programs/hook-amm/src/instructions/buy.rs:79-84 | with the corrected update, a buy lowers the effective token reserve by the tokens bought, raises the SOL side by the after-fee amount, and keeps the reserves formable |
| CurveProperties.FixedTradesKeepCurveSound | programs/hook-amm/src/instructions/buy.rs:72-84 | with the corrected update, any sequence of trades keeps the reserves formable, never writes the virtual reserves, and the real token reserve counts tokens bought minus tokens sold |
| CurveProperties.RoundTripCanReturnMoreThanPaid | programs/hook-amm/src/utils.rs:15-57 | rounding favours the trader: with the corrected buy update, on a small curve, buying with 1 lamport and selling the tokens back returns 2 lamports |
| CurveProperties.AsWrittenRoundTripBreaksEven | programs/hook-amm/src/instructions/buy.rs:79-84 | with the buy update as written, the same round trip returns exactly the 1 lamport paid, because the buy raised the effective token reserve from 6 to 8 instead of lowering it |
| CurveProperties.CurvesNumberedInCreationOrder | programs/hook-amm/src/instructions/create_bonding_curve.rs:98-100 | over any sequence of creations the i-th curve created gets index `total_curves + i`, and the counter grows by the number of curves |
| CurveProperties.FreshCurveReserves | programs/hook-amm/src/instructions/create_bonding_curve.rs:75-97 | right after creation the effective token reserve is the virtual one, which exceeds the supply, and the effective SOL reserve is positive |
| CurveProperties.CreateChecksInOrder | programs/hook-amm/src/instructions/create_bonding_curve.rs:70-120 | the checks report the first failure in source order: `VirtualReservesTooSmall`, then `InsufficientBalance`, then `InvalidSupply` |
| CurveSpec.CreateCheck | programs/hook-amm/src/instructions/create_bonding_curve.rs:70-84 | the first failing parameter check in source order; `CurveProperties.CreateChecksInOrder` proves the order of the reported errors |
| SdkMath.CalculateBuyAmount | sdk/src/utils/math.ts:4-24 | defined exactly when the new SOL reserve is non-zero, and the fee field is always 0 |
| SdkMath.CalculateSellAmount | sdk/src/utils/math.ts:26-46 | defined exactly when the new token reserve is non-zero, and the fee field is always 0 |
| SdkMath.BuyAmountMatchesProgram | sdk/src/utils/math.ts:11-20 | on `u64` inputs the SDK's buy quote fails exactly when the program's does, and otherwise equals it |
| SdkMath.SellAmountMatchesProgram | sdk/src/utils/math.ts:33-42 | the same for the sell quote |
| SdkMath.SellIsBuyWithRolesSwapped | sdk/src/utils/math.ts:26-46 | the sell quote is the buy quote with the reserves' roles swapped |
| SdkMath.RealReservesIgnored | sdk/src/utils/math.ts:4-46 | the real-reserve arguments never change a quote |
| SdkMath.BuyAmountBounded | sdk/src/utils/math.ts:17-20 | for non-negative inputs the quote lies between 0 and the token reserve |
| SdkMath.BpsPrice | sdk/src/utils/math.ts:55-58 | the spot price and the effective price are the floor of output times 10000 over input, on the reserves and on the trade respectively |
| SdkMath.NoImpactAtSpotPrice | sdk/src/utils/math.ts:55-61 | a trade at the spot price has impact 0 |
| SdkMath.ImpactBounded | sdk/src/utils/math.ts:55-63 | a trade at or below the spot price has an impact from 0 to 10000, the floor of the relative shortfall, and it fits `toNumber` |
| SdkMath.PriceImpactBps | sdk/src/utils/math.ts:48-63 | the integer part of `calculatePriceImpact`, with `None` where bn.js throws; `SdkMath.NoImpactAtSpotPrice` and `SdkMath.ImpactBounded` state its value |
| SdkMath.TokenPriceIsFloor | sdk/src/utils/math.ts:72-77 | the scaled token price is the floor of `(vSol + rSol) * 10^9 / (vTok - rTok)` |
| SdkMath.TokenPriceMonotone | sdk/src/utils/math.ts:72-77 | more lamports against fewer tokens never lowers the scaled price |
| SdkMath.TokenPriceScaled | sdk/src/utils/math.ts:66-78 | the integer part of `calculateTokenPrice`; `SdkMath.TokenPriceIsFloor` and `SdkMath.TokenPriceMonotone` state its value and its monotonicity |
| SdkUtils.CalculateBuyAmount | sdk/src/utils.ts:16-24 | defined exactly when the new SOL reserve is non-zero |
| SdkUtils.CalculateSellAmount | sdk/src/utils.ts:29-37 | defined exactly when the new token reserve is non-zero |
| SdkUtils.QuotesAgreeWithMath | sdk/src/utils.ts:16-37 | the utils.ts quotes and the math.ts quotes agree on every input |
| SdkUtils.QuotesBounded | sdk/src/utils.ts:16-37 | for non-negative inputs both quotes lie between 0 and the drawn reserve |
| SdkUtils.FeeIsOnePercent | sdk/src/utils.ts:42-44 | the fee of a non-negative amount is the floor of 1% of it, and at most the amount |
| SdkUtils.FeeMatchesProgram | sdk/src/utils.ts:42-44 | wherever the program can compute its fee, the SDK's fee is the same |
| SdkUtils.CalculateFee | sdk/src/utils.ts:42-44 | the SDK fee; `SdkUtils.FeeIsOnePercent` and `SdkUtils.FeeMatchesProgram` state it is the floor of 1% and the program's fee |
| SdkUtils.NoSlippageKeepsAmount | sdk/src/utils.ts:167-170 | with 0 bps the minimum is the amount |
| SdkUtils.FullSlippageAllowsNothing | sdk/src/utils.ts:167-170 | with 10000 bps the minimum is 0 |
| SdkUtils.MinimumReceivedBounded | sdk/src/utils.ts:167-170 | for 0 to 10000 bps the minimum lies between 0 and the amount and is the floor of `amount * (10000 - bps) / 10000` |
| SdkUtils.MinimumReceivedMonotone | sdk/src/utils.ts:167-170 | a larger tolerance never raises the minimum |
| SdkUtils.CalculateMinimumReceived | sdk/src/utils.ts:167-170 | the slippage minimum, `None` where `muln` throws; the four lemmas above state its value, bounds and monotonicity |
| SdkUtils.InactiveCurveRefusesTrades | sdk/src/utils.ts:175-177 | a curve is inactive exactly when the program refuses every non-zero buy and sell on it with `CurveComplete` |
| SdkUtils.IsCurveActive | sdk/src/utils.ts:175-177 | `SdkUtils.InactiveCurveRefusesTrades` states that it agrees with the program's `CurveComplete` refusal |
| Decimal.NatToString | sdk/src/utils.ts:127 | the decimal text of a number is non-empty, all digits, and denotes the number |
| Decimal.IntToString | sdk/src/utils.ts:127 | bn.js reads the text of an integer back as the same integer, and the text is a plain digit string exactly when the integer is not negative |
| Decimal.PadStart | sdk/src/utils.ts:130 | `padStart` prefixes pad characters up to the length, and leaves longer text alone |
| Decimal.PadEnd | sdk/src/utils.ts:144 | `padEnd` appends pad characters up to the length, and leaves longer text alone |
| Decimal.TrimTrailingZeros | sdk/src/utils.ts:131 | the result followed by the removed zeros is the input, and the result does not end in `'0'` |
| Decimal.ParseBN | sdk/src/utils.ts:147 | a digit string parses to the number it denotes; only the empty string reads as 0 |
| Decimal.ParseBNRejectsBlank | sdk/src/utils.ts:145-147 | a non-empty string of whitespace alone makes the parse fail, as `"-"` does |
| Decimal.ParseBNRejects | sdk/src/utils.ts:145-147 | a character other than a digit, whitespace or `'-'` makes the parse throw |
| Decimal.ParseConcatenation | sdk/src/utils.ts:145-147 | two digit strings joined parse as the first scaled by the length of the second, plus the second |
| AmountFormat.FormatNonNegative | sdk/src/utils.ts:121-134 | a non-negative amount is written as its whole units, then `'.'` and the fraction text unless the remainder is 0 |
| AmountFormat.WrittenFraction | sdk/src/utils.ts:130-133 | the fraction text has 1 to `decimals` digits, none of them trailing zeros, and padded back it denotes the remainder |
| AmountFormat.FormatWholeAmount | sdk/src/utils.ts:126-128 | a whole amount is written as the bare quotient, with no `'.'` |
| AmountFormat.ParseWhole | sdk/src/utils.ts:139-148 | digits with no `'.'` parse as whole units |
| AmountFormat.ParseWholeAndFraction | sdk/src/utils.ts:139-148 | the fraction digits are cut after `decimals` digits, with no rounding, and padded with zeros when shorter |
| AmountFormat.ParseLeadingDot | sdk/src/utils.ts:141 | an empty whole part reads as `"0"` |
| AmountFormat.ParseBlankWhole | sdk/src/utils.ts:139-148 | a whole part of whitespace alone, with no fraction digits, is refused rather than read as 0 |
| AmountFormat.FormatThenParse | sdk/src/utils.ts:121-148 | parsing the formatted text of a non-negative amount at the same decimals gives the amount back |
| AmountFormat.SolRoundTrip | sdk/src/utils.ts:153-162 | the SOL helpers round-trip every lamport amount |
| AmountFormat.FormatTokenAmount | sdk/src/utils.ts:121-134 | `formatTokenAmount`; `AmountFormat.FormatNonNegative`, `AmountFormat.WrittenFraction` and `AmountFormat.FormatWholeAmount` state its text, and `AmountFormat.FormatThenParse` its round trip |
| AmountFormat.ParseTokenAmount | sdk/src/utils.ts:139-148 | `parseTokenAmount`; `AmountFormat.ParseWhole`, `AmountFormat.ParseWholeAndFraction` and `AmountFormat.ParseLeadingDot` state its value |
| AmountFormat.FormatSolAmount | sdk/src/utils.ts:153-155 | `formatTokenAmount` at 9 decimals; `AmountFormat.SolRoundTrip` states its round trip |
| AmountFormat.ParseSolAmount | sdk/src/utils.ts:160-162 | `parseTokenAmount` at 9 decimals; `AmountFormat.SolRoundTrip` states its round trip |
| TokenHooks.GetTokenProgramId | sdk/src/utils/token.ts:10-25 | the lookup throws exactly when the mint account is missing |
| TokenHooks.ProgramIdFollowsOwner | sdk/src/utils/token.ts:20-37 | the program is Token-2022 exactly when `isToken2022` holds, and the classic token program otherwise |
| TokenHooks.IsToken2022 | sdk/src/utils/token.ts:35-37 | `TokenHooks.ProgramIdFollowsOwner` states that it decides which token program the lookup returns |
| TokenHooks.GetMint | sdk/src/utils/token.ts:32 | the mint decodes exactly when the account exists, is owned by the given program and holds a mint, and its hook is the account's |
| TokenHooks.MintInfoFound | sdk/src/utils/token.ts:27-33 | `getMintInfo` succeeds exactly for existing mints of either token program whose data decodes |
| TokenHooks.GetMintInfo | sdk/src/utils/token.ts:27-33 | the program lookup followed by the mint decoding; `TokenHooks.MintInfoFound` states when it succeeds |
| TokenHooks.GetTransferHookAccounts | sdk/src/utils/token.ts:39-113 | the pushes build exactly the decided list, which depends only on the mint account, the mint address and the derivations, never on the source, destination, owner or amount |
| TokenHooks.NoHookNoAccounts | sdk/src/utils/token.ts:47-60 | a missing mint, a mint of another program, or a Token-2022 mint without a hook gives no accounts |
| TokenHooks.HookAccountsExact | sdk/src/utils/token.ts:68-108 | with a hook and both derivations succeeding, the list is the hook program, the extra-account-metas address and the counter address, in that order |
| TokenHooks.FailedDerivationKeepsPrefix | sdk/src/utils/token.ts:77-106 | a failed extra-account-metas derivation leaves the hook program alone; a failed counter derivation leaves the hook program and the extra-account-metas address |
| TokenHooks.HookAccountFlags | sdk/src/utils/token.ts:71-103 | every list has at most three entries and starts with the hook program; no entry signs, and only the third is writable |
| TokenHooks.HasHooksIffAccounts | sdk/src/utils/token.ts:115-131 | `hasTransferHooks` holds exactly when the account list is non-empty, whatever the derivations do |
| TokenHooks.NoHooksOnError | sdk/src/utils/token.ts:115-131 | `hasTransferHooks` is false for a mint of another program and whenever a lookup throws |
| TokenHooks.HasTransferHooks | sdk/src/utils/token.ts:115-131 | `TokenHooks.HasHooksIffAccounts` and `TokenHooks.NoHooksOnError` state when it holds |
| SdkErrors.ValuesMatchProgram | sdk/src/errors.ts:1-7 | each `HookAmmError` value is the program's number for the error of the same name |
| SdkErrors.KnownError | sdk/src/errors.ts:18-28 | a number is recognised exactly when it lies in 6000..6004, and then as the member with that value |
| SdkErrors.KnownCodesNamed | sdk/src/errors.ts:17-28 | each member's value yields its message, whatever the message property holds |
| SdkErrors.ProgramErrorsParsed | sdk/src/errors.ts:16-31 | the program's first five errors get their SDK message; the other six are reported as `"Unknown error: "` plus their number |
| SdkErrors.OtherNumbersUnknown | sdk/src/errors.ts:29-30 | any other number gives `"Unknown error: "` plus its decimal text |
| SdkErrors.NonNumericCodesUnknown | sdk/src/errors.ts:17-30 | the match is strict: a code that is not a number, such as the text `"6000"`, is reported as unknown |
| SdkErrors.MessageFallback | sdk/src/errors.ts:33 | without a code the message is used when it is non-empty, and `"Unknown error occurred"` otherwise |
| SdkErrors.ParseError | sdk/src/errors.ts:16-33 | `parseError`; the five lemmas above state its result for known, unknown and non-numeric codes and without a code |
| QuoteAgreement.BuyQuotePredicted | sdk/src/hookAmm.ts:285-316 | whenever the program accepts a buy, the client's simulation predicted its tokens and fee exactly, except that it throws when an effective reserve or the total supply, before or after the trade, is out of `toNumber` range |
| QuoteAgreement.SellQuotePredicted | sdk/src/hookAmm.ts:322-354 | whenever the program accepts a sell, the simulation predicted its net payout and fee exactly, except that it throws when a reserve or the supply, before or after the trade, is out of `toNumber` range |
| QuoteAgreement.BuySlippagePredicted | sdk/src/hookAmm.ts:293-309 | on a buy the program can price, with reserves and supply below 2^53, the simulation succeeds, and the program accepts exactly when the simulated tokens reach the minimum, refusing with `SlippageExceeded` otherwise |
| QuoteAgreement.SellSlippagePredicted | sdk/src/hookAmm.ts:331-346 | the same for a sell and its net payout: the simulation succeeds and decides the slippage check |
| QuoteAgreement.BuyMinimumNeverTrips | sdk/src/utils.ts:167-170 | a minimum derived from the simulated buy with 0 to 10000 bps is a valid `u64` and never trips the slippage check |
| QuoteAgreement.SellMinimumNeverTrips | sdk/src/utils.ts:167-170 | the same for a sell: the simulation succeeds and its minimum is accepted |
| QuoteAgreement.FixedBuyNeverLowersPrice | sdk/src/utils/math.ts:66-78 | with the corrected reserve update, a buy never lowers the token price the SDK reports |
| QuoteAgreement.SimulateBuy | sdk/src/hookAmm.ts:285-316 | `simulateBuy` without the price impact; `QuoteAgreement.BuyQuotePredicted` and `QuoteAgreement.BuySlippagePredicted` relate it to the program |
| QuoteAgreement.SimulateSell | sdk/src/hookAmm.ts:322-354 | `simulateSell` without the price impact; `QuoteAgreement.SellQuotePredicted` and `QuoteAgreement.SellSlippagePredicted` relate it to the program |

## Findings

| source | as written | input that shows it | evidently intended | confidence | as-written member | corrected member |
|---|---|---|---|---|---|---|
| programs/hook-amm/src/instructions/buy.rs:82-84 | `real_token_reserves.checked_sub(token_amount).unwrap()` | A fresh curve has real token reserve 0 (create_bonding_curve.rs line 94). With 10 SOL and 500,000 tokens of virtual reserves, a 1 SOL buy quotes 45,040,946,315 tokens and then the subtraction underflows and aborts. Its virtual token reserve is positive (create_bonding_curve.rs line 71), so no buy and no sell ever completes on it. | `checked_add`, so that the effective reserve `vTok - rTok` falls by the tokens handed out, as the SDK's simulations assume (`CurveSpec.ApplyBuyFixed`) | not executed | CurveProperties.AsWrittenCurveNeverTrades | CurveProperties.FixedTradesKeepCurveSound |

`CurveProgram.BondingCurve.Buy` and `CurveSpec.BuyInstruction` keep the
instruction as written. The corrected update is a separate function, and
`CurveProperties` and `QuoteAgreement` prove the intended properties about it.

## Left out

- **Cross-program invocations.** The token-program transfers (`transfer_checked`, `perform_token_transfer`), `set_authority` on the mint, the transfer hooks the token program executes, rent, and Anchor's account constraints are not modelled. A transfer is a move between balances that fails when the source is short; the mint authority is not modelled.
- **Credits.** Lamport and token credits are unbounded, so a `u64` overflow of a credited balance is not modelled.
- **Addresses.** Program-derived address search, SHA-256 and the curve check are an opaque function; base58 addresses are strings.
- **Floating point.** The floating-point price and market cap of `calculatePrice` (its `toNumber` reads are modelled), `estimatePriceImpact`, the final divisions by 100 and by 10^9 in `calculatePriceImpact` and `calculateTokenPrice`, and the price impact of the `simulate*` methods are not modelled; only their integer parts are.
- **Logging.** The `console.warn` calls of `getTransferHookAccounts` are not modelled.
- **RPC reads.** The three account reads of `getTransferHookAccounts` and the two of `hasTransferHooks` are one snapshot, a single `MintAccount`. A mint that changes between reads is not modelled.
- **Mint decoding.** The layout checks of `getMint` are a single flag (`unpacks`), and the extension data is reduced to the optional hook program id.
- **bn.js parsing.** `new BN("-")` and `new BN` of a non-empty whitespace-only string leave bn.js with a malformed value rather than throwing; both are modelled as throwing; bn.js 5.2 semantics are assumed throughout.
- **Slippage inputs.** Fractional basis points and fractional `decimals` are not modelled (both are integers here).
- **Error records.** Non-string messages are not modelled. Codes that are non-integer numbers are not modelled either.
- **Client classes.** The network clients, instruction builders, scripts, wallet helpers and `HookAmmSDKError` (a plain error record) are not modelled. The `simulateBuy`/`simulateSell` quotes enter only through `QuoteAgreement`.
- CurveSpec.PayForBuy: the if-and-only-if on success is stated for a buyer other than the curve account; when they coincide the lamports moved to the curve are available for the fee.
- CurveSpec.PaySeller: the if-and-only-if on success is stated for a seller other than the curve account.
- SdkErrors.ParseError: a numeric code is written with all its digits; JavaScript switches to exponent notation from 10^21.
- AmountFormat.FormatThenParse: stated for non-negative amounts only. For a negative amount the bn.js remainder is negative, and the written fraction carries the `'-'` inside it.
- QuoteAgreement.SellSlippagePredicted: stated for sells whose gross payout times 100 fits in `u64`; beyond that the program aborts computing the fee.
