/**
 * The fixed enumerations of the Payflow plugin: local payment states,
 * Payflow transaction types, tenders, verbosity levels, remote transaction
 * states and the result codes the gateway reports.
 */
module Catalog {

  /** The local states of a Commerce payment. */
  datatype PaymentState =
    | New
    | Authorization
    | AuthorizationVoided
    | CaptureCompleted
    | CapturePartiallyRefunded
    | CaptureRefunded
    | Completed

  /** The machine name Commerce stores for each state. */
  function StateName(s: PaymentState): string {
    match s
    case New => "new"
    case Authorization => "authorization"
    case AuthorizationVoided => "authorization_voided"
    case CaptureCompleted => "capture_completed"
    case CapturePartiallyRefunded => "capture_partially_refunded"
    case CaptureRefunded => "capture_refunded"
    case Completed => "completed"
  }

  lemma StateNameInjective(a: PaymentState, b: PaymentState)
    ensures StateName(a) == StateName(b) ==> a == b
  {
  }

  /** The values of the TRXTYPE request field. */
  datatype TransactionType =
    | Authorization
    | BalanceInquiry
    | Credit
    | DelayedCapture
    | VoiceAuthorization
    | Inquiry
    | RateLookup
    | DataUpload
    | DuplicateTransaction
    | Sale
    | Void

  function TransactionTypeCode(t: TransactionType): char {
    match t
    case Authorization => 'A'
    case BalanceInquiry => 'B'
    case Credit => 'C'
    case DelayedCapture => 'D'
    case VoiceAuthorization => 'F'
    case Inquiry => 'I'
    case RateLookup => 'K'
    case DataUpload => 'L'
    case DuplicateTransaction => 'N'
    case Sale => 'S'
    case Void => 'V'
  }

  lemma TransactionTypeCodeInjective(a: TransactionType, b: TransactionType)
    ensures TransactionTypeCode(a) == TransactionTypeCode(b) ==> a == b
  {
  }

  /** The values of the TENDER request field. */
  datatype Tender = Ach | CreditCard | PinlessDebit | Telecheck | PayPal

  function TenderCode(t: Tender): char {
    match t
    case Ach => 'A'
    case CreditCard => 'C'
    case PinlessDebit => 'D'
    case Telecheck => 'K'
    case PayPal => 'P'
  }

  lemma TenderCodeInjective(a: Tender, b: Tender)
    ensures TenderCode(a) == TenderCode(b) ==> a == b
  {
  }

  /** The values of the VERBOSITY request field. */
  datatype Verbosity = High | Medium

  function VerbosityName(v: Verbosity): string {
    match v
    case High => "HIGH"
    case Medium => "MEDIUM"
  }

  /** The gateway's settlement status of a transaction (remote state). */
  datatype TransactionState =
    | AccountVerification
    | GeneralError
    | AuthorizationApproved
    | PartialCapture
    | SettlementPending
    | SettlementInProgress
    | SettledSuccessfully
    | AuthorizationCaptured
    | CaptureFailed
    | FailedToSettle
    | IncorrectAccountInformation
    | BatchFailed
    | ChargeBack
    | AchFailed
    | UnknownStatus
    | OnHold

  function TransactionStateCode(s: TransactionState): nat {
    match s
    case AccountVerification => 0
    case GeneralError => 1
    case AuthorizationApproved => 3
    case PartialCapture => 4
    case SettlementPending => 6
    case SettlementInProgress => 7
    case SettledSuccessfully => 8
    case AuthorizationCaptured => 9
    case CaptureFailed => 10
    case FailedToSettle => 11
    case IncorrectAccountInformation => 12
    case BatchFailed => 14
    case ChargeBack => 15
    case AchFailed => 16
    case UnknownStatus => 106
    case OnHold => 206
  }

  lemma TransactionStateCodeInjective(a: TransactionState, b: TransactionState)
    ensures TransactionStateCode(a) == TransactionStateCode(b) ==> a == b
  {
  }

  /**
   * The RESULT field of a response. The numeric values of the approved and
   * flagged-for-review codes are not part of this model: they are two
   * distinct constants, and every other result is OtherResult.
   */
  datatype ResultCode = Approved | FlaggedForReviewByFraudFilters | OtherResult(raw: string)
}
