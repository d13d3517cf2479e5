/** The on-chain constant-product swap formula (`calculate_buy_amount`,
    `calculate_sell_amount`): checked `u128` arithmetic over `u64` inputs
    with typed errors. */
module SwapMath {
  import opened Base
  import opened Arith
  import opened ProgramErrors

  /** Reference definition of a constant-product swap on unbounded
      integers: draw from reserve `y` what keeps `x * y` after `x` grows by
      `input`, with the new reserve rounded down. */
  ghost function ConstantProductOut(input: nat, x: nat, y: nat): int
    requires x + input > 0
  {
    y - (x * y) / (x + input)
  }

  /** Two `u64` values never overflow a `u128` product. */
  lemma ProductFitsU128(a: U64, b: U64)
    ensures 0 <= a * b <= U128_MAX
  {
    MulMonotone(a, b, U64_MAX, U64_MAX);
  }

  /** The new reserve `floor(x * y / (x + input))` never exceeds `y`. */
  lemma NewReserveBounded(input: nat, x: nat, y: nat)
    requires x + input > 0
    ensures 0 <= (x * y) / (x + input) <= y
  {
    MulMonotone(x, y, x + input, y);
    BelowQuotient(y, (x + input) * y, x + input);
    DivMonotone(x * y, (x + input) * y, x + input);
    MulDivCancel(y, x + input);
  }

  /** An error return of a `u64`-valued computation. */
  function Fails(e: ErrorCode): Result<U64, ErrorCode> {
    Err(e)
  }

  /** utils.rs `calculate_buy_amount`: tokens out for `solAmount` lamports
      in. Every step is checked; the only failure that can actually occur
      is the division by a zero new reserve, reported as `Overflow`. */
  function CalculateBuyAmount(solAmount: U64, solReserves: U64, tokenReserves: U64): (r: Result<U64, ErrorCode>)
    ensures r.Ok? <==> solReserves + solAmount > 0
    ensures r.Err? ==> r.error == Overflow
    ensures r.Ok? ==> r.value <= tokenReserves
  {
    var newSolReserves := solReserves + solAmount;
    if newSolReserves > U128_MAX then Fails(Overflow)
    else
      ProductFitsU128(solReserves, tokenReserves);
      var k := solReserves * tokenReserves;
      if k > U128_MAX then Fails(Overflow)
      else if newSolReserves == 0 then Fails(Overflow)
      else
        var newTokenReserves := k / newSolReserves;
        NewReserveBounded(solAmount, solReserves, tokenReserves);
        if newTokenReserves > tokenReserves then Fails(InsufficientReserves)
        else
          var tokensOut := tokenReserves - newTokenReserves;
          if tokensOut > U64_MAX then Fails(Overflow) else Ok(tokensOut)
  }

  /** utils.rs `calculate_sell_amount`: lamports out for `tokenAmount`
      tokens in, the same checked pipeline with the reserves' roles swapped. */
  function CalculateSellAmount(tokenAmount: U64, tokenReserves: U64, solReserves: U64): (r: Result<U64, ErrorCode>)
    ensures r.Ok? <==> tokenReserves + tokenAmount > 0
    ensures r.Err? ==> r.error == Overflow
    ensures r.Ok? ==> r.value <= solReserves
  {
    var newTokenReserves := tokenReserves + tokenAmount;
    if newTokenReserves > U128_MAX then Fails(Overflow)
    else
      ProductFitsU128(tokenReserves, solReserves);
      var k := tokenReserves * solReserves;
      if k > U128_MAX then Fails(Overflow)
      else if newTokenReserves == 0 then Fails(Overflow)
      else
        var newSolReserves := k / newTokenReserves;
        NewReserveBounded(tokenAmount, tokenReserves, solReserves);
        if newSolReserves > solReserves then Fails(InsufficientReserves)
        else
          var solOut := solReserves - newSolReserves;
          if solOut > U64_MAX then Fails(Overflow) else Ok(solOut)
  }

  /** The checked pipeline computes exactly the unbounded formula. */
  lemma BuyAmountExact(solAmount: U64, solReserves: U64, tokenReserves: U64)
    requires solReserves + solAmount > 0
    ensures CalculateBuyAmount(solAmount, solReserves, tokenReserves)
            == Ok(ConstantProductOut(solAmount, solReserves, tokenReserves))
  {
    ProductFitsU128(solReserves, tokenReserves);
    NewReserveBounded(solAmount, solReserves, tokenReserves);
  }

  /** A sell is a buy with the token side as input: same expression,
      arguments in other roles. */
  lemma SellIsBuyWithRolesSwapped(tokenAmount: U64, tokenReserves: U64, solReserves: U64)
    ensures CalculateSellAmount(tokenAmount, tokenReserves, solReserves)
            == CalculateBuyAmount(tokenAmount, tokenReserves, solReserves)
  {
  }

  /** Rounding: the pool keeps no more than its old product, and loses less
      than one unit of the new input-side reserve to the floor. */
  lemma BuyAmountRounding(solAmount: U64, solReserves: U64, tokenReserves: U64)
    requires solReserves + solAmount > 0
    ensures var out := CalculateBuyAmount(solAmount, solReserves, tokenReserves).value;
            var newSol := solReserves + solAmount;
            newSol * (tokenReserves - out) <= solReserves * tokenReserves
            && solReserves * tokenReserves - newSol < newSol * (tokenReserves - out)
  {
    BuyAmountExact(solAmount, solReserves, tokenReserves);
    var newSol := solReserves + solAmount;
    var k := solReserves * tokenReserves;
    NewReserveBounded(solAmount, solReserves, tokenReserves);
    DivBracket(k, newSol);
    var out := CalculateBuyAmount(solAmount, solReserves, tokenReserves).value;
    assert tokenReserves - out == k / newSol;
  }

  /** Paying more never buys fewer tokens. */
  lemma BuyAmountMonotone(a1: U64, a2: U64, solReserves: U64, tokenReserves: U64)
    requires a1 <= a2 && solReserves + a1 > 0
    ensures CalculateBuyAmount(a1, solReserves, tokenReserves).value
            <= CalculateBuyAmount(a2, solReserves, tokenReserves).value
  {
    BuyAmountExact(a1, solReserves, tokenReserves);
    BuyAmountExact(a2, solReserves, tokenReserves);
    ProductFitsU128(solReserves, tokenReserves);
    DivAntiMonotone(solReserves * tokenReserves, solReserves + a1, solReserves + a2);
  }

  /** Paying nothing into a funded pool buys nothing. */
  lemma BuyAmountOfNothing(solReserves: U64, tokenReserves: U64)
    requires solReserves > 0
    ensures CalculateBuyAmount(0, solReserves, tokenReserves) == Ok(0)
  {
    BuyAmountExact(0, solReserves, tokenReserves);
    MulDivCancel(tokenReserves, solReserves);
    assert solReserves * tokenReserves == tokenReserves * solReserves;
  }
}
