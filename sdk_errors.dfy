/** The SDK's error enumeration and `parseError` (`sdk/src/errors.ts`).
    The thrown object is reduced to the two properties `parseError` reads:
    `code` (absent when `undefined`) and `message`. */
module SdkErrors {
  import opened Base
  import ProgramErrors
  import opened Decimal

  /** `HookAmmError`: the SDK's names for the first five program errors. */
  datatype HookAmmError = InvalidAmount | SlippageExceeded | CurveComplete | InsufficientReserves | Overflow

  /** The numeric value of each member of the enumeration. */
  function Value(e: HookAmmError): int {
    match e
    case InvalidAmount => 6000
    case SlippageExceeded => 6001
    case CurveComplete => 6002
    case InsufficientReserves => 6003
    case Overflow => 6004
  }

  /** The program error of the same name. */
  function ProgramCode(e: HookAmmError): ProgramErrors.ErrorCode {
    match e
    case InvalidAmount => ProgramErrors.InvalidAmount
    case SlippageExceeded => ProgramErrors.SlippageExceeded
    case CurveComplete => ProgramErrors.CurveComplete
    case InsufficientReserves => ProgramErrors.InsufficientReserves
    case Overflow => ProgramErrors.Overflow
  }

  /** The values the SDK uses are the numbers the program reports for the
      errors of the same name. */
  lemma ValuesMatchProgram(e: HookAmmError)
    ensures Value(e) == ProgramErrors.AnchorErrorNumber(ProgramCode(e))
  {
  }

  /** A JavaScript value found in `error.code`. */
  datatype CodeValue = Num(n: int) | Text(s: string) | Null | Bool(b: bool)

  /** The thrown object: `code` is `None` when `undefined`, `message` is
      `None` when `undefined`. */
  datatype ErrorRecord = ErrorRecord(code: Option<CodeValue>, message: Option<string>)

  /** The `switch` on the code: the member whose value it strictly equals. */
  function KnownError(n: int): (r: Option<HookAmmError>)
    ensures r.Some? <==> 6000 <= n <= 6004
    ensures r.Some? ==> Value(r.value) == n
  {
    if n == 6000 then Some(InvalidAmount)
    else if n == 6001 then Some(SlippageExceeded)
    else if n == 6002 then Some(CurveComplete)
    else if n == 6003 then Some(InsufficientReserves)
    else if n == 6004 then Some(Overflow)
    else None
  }

  /** The text `parseError` gives for a member. */
  function Message(e: HookAmmError): string {
    match e
    case InvalidAmount => "Invalid amount provided"
    case SlippageExceeded => "Slippage tolerance exceeded"
    case CurveComplete => "Bonding curve is already complete"
    case InsufficientReserves => "Insufficient reserves for this operation"
    case Overflow => "Numerical overflow in calculation"
  }

  /** How a template string writes the code. */
  function TemplateText(v: CodeValue): string {
    match v
    case Num(n) => IntToString(n)
    case Text(s) => s
    case Null => "null"
    case Bool(b) => if b then "true" else "false"
  }

  const UNKNOWN_PREFIX: string := "Unknown error: "
  const UNKNOWN_ERROR: string := "Unknown error occurred"

  /** `parseError`. */
  function ParseError(error: ErrorRecord): string {
    match error.code
    case Some(code) =>
      if code.Num? && KnownError(code.n).Some? then Message(KnownError(code.n).value)
      else UNKNOWN_PREFIX + TemplateText(code)
    case None =>
      if error.message.Some? && error.message.value != "" then error.message.value else UNKNOWN_ERROR
  }

  /** A member's own value reads back as its message, whatever the
      message property holds. */
  lemma KnownCodesNamed(e: HookAmmError, message: Option<string>)
    ensures ParseError(ErrorRecord(Some(Num(Value(e))), message)) == Message(e)
  {
    assert KnownError(Value(e)) == Some(e) by {
      match e
      case InvalidAmount =>
      case SlippageExceeded =>
      case CurveComplete =>
      case InsufficientReserves =>
      case Overflow =>
    }
  }

  /** For every program error: the first five get their SDK message, the
      other six, which the enumeration lacks, are reported as unknown with
      their number. */
  lemma ProgramErrorsParsed(code: ProgramErrors.ErrorCode, message: Option<string>)
    ensures var text := ParseError(ErrorRecord(Some(Num(ProgramErrors.AnchorErrorNumber(code))), message));
            && (ProgramErrors.Ordinal(code) < 5 ==>
                  var known := KnownError(ProgramErrors.AnchorErrorNumber(code));
                  known.Some? && ProgramCode(known.value) == code && text == Message(known.value))
            && (ProgramErrors.Ordinal(code) >= 5 ==> text == UNKNOWN_PREFIX + NatToString(ProgramErrors.AnchorErrorNumber(code)))
  {
    var n := ProgramErrors.AnchorErrorNumber(code);
    if ProgramErrors.Ordinal(code) < 5 {
      match code
      case InvalidAmount =>
      case SlippageExceeded =>
      case CurveComplete =>
      case InsufficientReserves =>
      case Overflow =>
    } else {
      OtherNumbersUnknown(n, message);
    }
  }

  /** Any other number is reported as unknown, written in decimal. */
  lemma OtherNumbersUnknown(n: int, message: Option<string>)
    requires n < 6000 || n > 6004
    ensures ParseError(ErrorRecord(Some(Num(n)), message)) == UNKNOWN_PREFIX + IntToString(n)
  {
  }

  /** The comparison is strict: a code that is not a number, such as the
      text `"6000"`, is never recognised. */
  lemma NonNumericCodesUnknown(v: CodeValue, message: Option<string>)
    requires !v.Num?
    ensures ParseError(ErrorRecord(Some(v), message)) == UNKNOWN_PREFIX + TemplateText(v)
  {
  }

  /** Without a code the message is used, unless it is missing or empty. */
  lemma MessageFallback(message: Option<string>)
    ensures message.Some? && message.value != "" ==> ParseError(ErrorRecord(None, message)) == message.value
    ensures message.None? || message == Some("") ==> ParseError(ErrorRecord(None, message)) == UNKNOWN_ERROR
  {
  }
}
