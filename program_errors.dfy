/** The on-chain program's error enumeration. Anchor numbers custom errors
    from 6000 upwards in declaration order. */
module ProgramErrors {

  datatype ErrorCode =
    | InvalidAmount
    | SlippageExceeded
    | CurveComplete
    | InsufficientReserves
    | Overflow
    | UnauthorizedMintAuthority
    | InvalidSupply
    | CreatorMustHaveAllTokens
    | CurveAccountNotEmpty
    | VirtualReservesTooSmall
    | InsufficientBalance

  /** Position of the variant in the enumeration. */
  function Ordinal(e: ErrorCode): (k: nat)
    ensures k < 11
  {
    match e
    case InvalidAmount => 0
    case SlippageExceeded => 1
    case CurveComplete => 2
    case InsufficientReserves => 3
    case Overflow => 4
    case UnauthorizedMintAuthority => 5
    case InvalidSupply => 6
    case CreatorMustHaveAllTokens => 7
    case CurveAccountNotEmpty => 8
    case VirtualReservesTooSmall => 9
    case InsufficientBalance => 10
  }

  /** The number a client sees for the error. */
  function AnchorErrorNumber(e: ErrorCode): (n: int)
    ensures 6000 <= n <= 6010
  {
    6000 + Ordinal(e)
  }

  lemma {:induction false} ErrorNumbersDistinct(e1: ErrorCode, e2: ErrorCode)
    ensures AnchorErrorNumber(e1) == AnchorErrorNumber(e2) <==> e1 == e2
  {
    match e1
    case InvalidAmount =>
    case SlippageExceeded =>
    case CurveComplete =>
    case InsufficientReserves =>
    case Overflow =>
    case UnauthorizedMintAuthority =>
    case InvalidSupply =>
    case CreatorMustHaveAllTokens =>
    case CurveAccountNotEmpty =>
    case VirtualReservesTooSmall =>
    case InsufficientBalance =>
  }
}
