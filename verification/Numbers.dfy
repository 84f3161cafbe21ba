/** Machine integers, the arithmetic both languages use on them, and results that carry the program's errors. */
module Numbers {

  const U16_MAX := 0xFFFF
  const U32_MAX := 0xFFFF_FFFF
  const U64_MAX := 0xFFFF_FFFF_FFFF_FFFF
  const U128_MAX := 0xFFFF_FFFF_FFFF_FFFF_FFFF_FFFF_FFFF_FFFF
  const I64_MAX := 0x7FFF_FFFF_FFFF_FFFF
  const I64_MIN := -0x8000_0000_0000_0000

  type u8 = x: int | 0 <= x <= 0xFF
  type u16 = x: int | 0 <= x <= U16_MAX
  type i16 = x: int | -0x8000 <= x <= 0x7FFF
  type u32 = x: int | 0 <= x <= U32_MAX
  type u64 = x: int | 0 <= x <= U64_MAX
  type i64 = x: int | I64_MIN <= x <= I64_MAX

  function Min(a: int, b: int): int {
    if a < b then a else b
  }

  function Max(a: int, b: int): int {
    if a < b then b else a
  }

  /** Rust's `saturating_sub` on unsigned values, and the client's `saturatingSub`. */
  function SaturatingSub(a: int, b: int): int {
    if a > b then a - b else 0
  }

  /** Rust's `saturating_add` on `u64`. */
  function SaturatingAdd(a: u64, b: u64): u64 {
    Min(a + b, U64_MAX)
  }

  /** The `i64` nearest to `x`: what Rust's signed saturating operations return for the exact result `x`. */
  function SaturateI64(x: int): i64 {
    if x < I64_MIN then I64_MIN else if x > I64_MAX then I64_MAX else x
  }

  /** Division and remainder truncating toward zero, as `/` and `%` on a JavaScript bigint: the remainder has the
      dividend's sign. */
  function TruncDiv(a: int, b: int): int
    requires b > 0
  {
    if a >= 0 then a / b else -(-a / b)
  }

  function TruncMod(a: int, b: int): int
    requires b > 0
  {
    if a >= 0 then a % b else -(-a % b)
  }

  /** The program's errors that the modelled code can return. */
  datatype Error =
    | ProgramPaused
    | BetaFull
    | UnknownPaymentToken
    | InvalidTier
    | CapAboveBetaLimit
    | UnknownAsset
    | NoPaymentToken
    | InvalidRules
    | SubscriptionMismatch
    | CalendarNotAscending
    | ImplausibleMarketDay
    | InvalidPriceUpdate
    | PriceUnavailable
    | StalePrice
    | PriceUncertain
    | AmountTooSmall
    | InvalidAttestation
    | UserNotActive
    | AttestationExpired
    | NothingToInvest
    | AttestationNotExpired
    | AlreadySwept
    | NothingToSweep
    | InvalidTokenAccount
    | SwapAccountChanged
    | SlippageExceeded
    | PlanChangeRequired
    | PendingIncrease
    | UserNotPaused
    | UserNotExited
    | InvalidCap
    | InvalidAttestor
    | InvalidSponsor
    | NotSponsor
    | AccountMissing      // no account at the address: the runtime refuses the transaction
    | AccountInUse        // the account to create exists already: the runtime refuses the transaction
    | CallFailed          // the program called by the instruction failed

  datatype Option<+T> = None | Some(value: T)

  datatype Result<+T> = Ok(value: T) | Err(error: Error) {
    predicate IsFailure() {
      Err?
    }

    function PropagateFailure<U>(): Result<U>
      requires Err?
    {
      Err(error)
    }

    function Extract(): T
      requires Ok?
    {
      value
    }
  }

  /** `require!(condition, error)`. */
  function Require(condition: bool, error: Error): Result<()> {
    if condition then Ok(()) else Err(error)
  }
}
