/** Shared vocabulary: failure-compatible wrappers, the machine integer
    bounds of the on-chain program, JavaScript-style truncating division
    and account addresses. */
module Base {

  datatype Option<+T> = None | Some(value: T)

  datatype Result<+T, +E> = Ok(value: T) | Err(error: E)

  const U64_MAX: int := 0xFFFF_FFFF_FFFF_FFFF
  const U128_MAX: int := 0xFFFF_FFFF_FFFF_FFFF_FFFF_FFFF_FFFF_FFFF

  /** A Rust `u64`. */
  type U64 = x: int | 0 <= x <= U64_MAX

  /** An account address, written as its base58 text. Addresses are only
      ever compared for equality. */
  type Pubkey = string

  const TOKEN_PROGRAM_ID: Pubkey := "TokenkegQfeZyiNwAJbNbGKPFXCWuBvf9Ss623VQ5DA"
  const TOKEN_2022_PROGRAM_ID: Pubkey := "TokenzQdBNbLqP5VEhdkAS6EPFLC1PHnBqCXEpPxuEb"

  /** Division rounding toward zero, as bn.js `div`/`divn` compute it
      (Dafny's own `/` is Euclidean). */
  function TruncDiv(a: int, b: int): (q: int)
    requires b != 0
    ensures a >= 0 && b > 0 ==> q == a / b
    ensures (a >= 0) == (b > 0) ==> q >= 0
    ensures (a >= 0) != (b > 0) ==> q <= 0
  {
    if a >= 0 then (if b > 0 then a / b else -(a / -b))
    else (if b > 0 then -((-a) / b) else (-a) / (-b))
  }

  /** The remainder that goes with `TruncDiv`, carrying the sign of the
      dividend, as bn.js `mod` computes it. */
  function TruncMod(a: int, b: int): (r: int)
    requires b != 0
    ensures a >= 0 && b > 0 ==> r == a % b
  {
    a - TruncDiv(a, b) * b
  }

  function Pow10(n: nat): (p: nat)
    ensures p >= 1
  {
    if n == 0 then 1 else 10 * Pow10(n - 1)
  }
}

/** Facts about multiplication and floor division that the solver does not
    find by itself. */
module Arith {

  lemma MulMonotone(a: int, b: int, c: int, d: int)
    requires 0 <= a <= c && 0 <= b <= d
    ensures a * b <= c * d
  {
    assert a * b <= c * b;
    assert c * b <= c * d;
  }

  lemma MulStrict(a: int, b: int, c: int)
    requires a < b && c > 0
    ensures a * c < b * c
  {
  }

  /** The floor quotient is characterised by bracketing the dividend. */
  lemma DivBracket(n: int, d: int)
    requires n >= 0 && d > 0
    ensures (n / d) * d <= n < (n / d + 1) * d
  {
    assert n == d * (n / d) + n % d;
  }

  /** Floor quotient and remainder of a natural number. */
  lemma DivMod(n: int, d: int)
    requires n >= 0 && d > 0
    ensures n / d >= 0 && 0 <= n % d < d && n == (n / d) * d + n % d
  {
    assert n == d * (n / d) + n % d;
  }

  /** Anything whose multiple stays below `n` is at most the floor quotient. */
  lemma BelowQuotient(q: int, n: int, d: int)
    requires n >= 0 && d > 0 && q * d <= n
    ensures q <= n / d
  {
    DivBracket(n, d);
    if q > n / d {
      MulMonotone(n / d + 1, d, q, d);
    }
  }

  /** Anything whose multiple exceeds `n` is above the floor quotient. */
  lemma AboveQuotient(q: int, n: int, d: int)
    requires n >= 0 && d > 0 && n < q * d
    ensures n / d < q
  {
    DivBracket(n, d);
    if q <= n / d {
      MulMonotone(q, d, n / d, d);
    }
  }

  /** A larger divisor never gives a larger floor quotient. */
  lemma DivAntiMonotone(n: int, d1: int, d2: int)
    requires n >= 0 && 0 < d1 <= d2
    ensures n / d2 <= n / d1
  {
    var q := n / d2;
    DivBracket(n, d2);
    assert q >= 0;
    MulMonotone(q, d1, q, d2);
    assert q * d1 <= n;
    BelowQuotient(q, n, d1);
  }

  /** A larger dividend never gives a smaller floor quotient. */
  lemma DivMonotone(n1: int, n2: int, d: int)
    requires 0 <= n1 <= n2 && d > 0
    ensures n1 / d <= n2 / d
  {
    DivBracket(n1, d);
    BelowQuotient(n1 / d, n2, d);
  }

  lemma MulDivCancel(a: int, b: int)
    requires a >= 0 && b > 0
    ensures (a * b) / b == a
  {
    BelowQuotient(a, a * b, b);
    AboveQuotient(a + 1, a * b, b);
  }
}
