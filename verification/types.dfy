/** Rows, requests and replies of the billing service. A UUID is an `Id`, an instant
    is a number of milliseconds and a calendar date is a day number. Texts that the
    program only stores stay `string`; texts that it compares are enumerations. */
module Types {
  datatype Option<+T> = None | Some(value: T)

  type Id = nat

  const MAX_I32: int := 0x7fff_ffff
  const MAX_I64: int := 0x7fff_ffff_ffff_ffff
  type I32 = x: int | -0x8000_0000 <= x <= MAX_I32
  type I64 = x: int | -0x8000_0000_0000_0000 <= x <= MAX_I64

  const MINUTE_MS: int := 60_000
  const DAY_MS: int := 24 * 60 * MINUTE_MS

  datatype AppError = NotFound | BadRequest | Conflict | InvalidStateTransition | DatabaseError

  datatype InvoiceState = Draft | Open | Paid | Void | Uncollectible | Processing {
    /** The declared state table. Only finalize and void consult it. */
    predicate CanTransitionTo(next: InvoiceState) {
      match (this, next)
      case (Draft, Open) => true
      case (Draft, Void) => true
      case (Open, Processing) => true
      case (Processing, Paid) => true
      case (Processing, Open) => false
      case (Processing, Uncollectible) => true
      case (Open, Void) => true
      case (Open, Uncollectible) => true
      case (_, _) => false
    }
  }

  datatype LineItem = LineItem(quantity: I32, unitAmountCents: I64)

  datatype Invoice = Invoice(
    businessId: Id, state: InvoiceState, totalCents: int, dueDate: int,
    versioning: int, lineItems: seq<LineItem>)

  datatype CardToken =
    | TokSuccess | TokInsufficientFunds | TokCardDeclined | TokTimeout | TokNetworkError
    | TokOther(text: string)

  datatype FailureCode =
    | InsufficientFunds | CardDeclined | UnknownCode | ReconciliationTimeout

  datatype PaymentStatus = Pending | Succeeded | Failed

  /** What the API returns for an attempt, and what an idempotency record stores. */
  datatype PaymentAttempt = PaymentAttempt(
    id: Id, invoiceId: Id, status: PaymentStatus, cardToken: CardToken,
    pspReference: Option<string>, failureCode: Option<FailureCode>,
    createdAt: int, updatedAt: int)

  /** A row of payment_attempts. `misses` is a history variable, not a column: the
      instants at which the worker recorded that the PSP does not know the charge. */
  datatype AttemptRow = AttemptRow(
    attempt: PaymentAttempt, retryCount: int, nextRetryAt: Option<int>, misses: seq<int>)

  datatype IdemKey = IdemKey(key: string, businessId: Id, invoiceId: Id)

  datatype IdemRecord = IdemRecord(
    body: PaymentAttempt, responseStatus: int, createdAt: int, updatedAt: int)

  datatype PayRequest = PayRequest(
    invoiceId: Id, businessId: Id, key: string, cardToken: CardToken, versioning: int)

  datatype EditRequest = EditRequest(
    dueDate: Option<int>, lineItems: Option<seq<LineItem>>, versioning: int)

  function KeyOf(req: PayRequest): IdemKey {
    IdemKey(req.key, req.businessId, req.invoiceId)
  }
}
