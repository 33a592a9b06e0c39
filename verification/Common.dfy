/** Shared vocabulary: optional values, the service errors and Go's machine integers. */
module Common {

  datatype Option<+T> = None | Some(value: T)

  datatype Result<+R> = Ok(value: R) | Err(error: Error)

  /** One constructor per sentinel error of the Go packages.  `DatabaseFailure` stands for any
      error coming from the database driver itself, `BalanceOutOfRange` for a BIGINT overflow or a
      violated CHECK raised by PostgreSQL. */
  datatype Error =
    | DatabaseFailure
    | BalanceOutOfRange
    | DuplicateKey
    | NoRows
    // webhook
    | PaymentNotFound
    | WebhookInvalidPayload
    | WebhookNotSuccessful
    | WebhookIdentifierMismatch
    | WebhookProviderUnsupported
    | WebhookFinancialMismatch
    | WebhookExternalTxMismatch
    | WebhookInvalidTransition
    | PaymentAlreadyProcessed
    | RentalNotEligible
    | AccountNotReserved
    // wallet
    | WalletPaymentNotFound
    | WalletPaymentNotAllowed
    | WalletPaymentExpired
    | WalletInsufficientBalance
    | WalletRefundNotFound
    | WalletRefundNotAllowed
    // deposits
    | DepositHoldNotFound
    | DepositSettlementNotAllowed
    | DepositAlreadySettled
    | DepositReviewDeadlinePassed
    | InvalidEvidenceReference
    | InvalidFinalizationLimit
    | LedgerIdempotencyConflict
    // administration
    | AdminRequired
    | InvalidReasonCode
    | FinancialUserNotFound
    | AdjustmentAmountRequired
    | AdjustmentWouldBeNegative
    | AdjustmentOverflow
    | AdjustmentCurrencyUnsupported
    | AdjustmentCommentTooLong
    | AdjustmentKeyInvalid
    | AdjustmentConflict
    | PricingOutOfRange
    | AccountLifecycleConflict
    | AdminSelfUpdateForbidden
    // rentals
    | AccountNotFound
    | AccountNotAvailable
    | UserNotFound
    | UserBlocked
    | InsufficientBalance
    | InvalidRentalPricing
    | RentalPriceOverflow
    | InvalidPeriod
    | PeriodTooShort
    | PeriodTooLong
    | InvalidUserID
    | InvalidAccountID
    | RentalNotFound
    | CannotCancel
    | InvalidTransition
    | InvalidState
    | CredentialsNotAvailable

  const MAX_INT64: int := 0x7fff_ffff_ffff_ffff
  const MIN_INT64: int := -0x8000_0000_0000_0000

  ghost predicate IsInt64(n: int) {
    MIN_INT64 <= n <= MAX_INT64
  }

  /** Go's `int64` addition: two's complement wrap-around, never an error. */
  function WrapInt64(n: int): int {
    (n - MIN_INT64) % 0x1_0000_0000_0000_0000 + MIN_INT64
  }

  /** Points in time and durations are nanoseconds, as in Go's `time` package. */
  const HOUR: int := 3_600_000_000_000
  const MINUTE: int := 60_000_000_000

  /** How long an unpaid reservation lives: the column default of `rentals.payment_expires_at`. */
  const PAYMENT_WINDOW: int := 15 * MINUTE

  /** How long after its end a rental's deposit may still be forfeited. */
  const REVIEW_WINDOW: int := 24 * HOUR
}
