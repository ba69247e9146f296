/**
 * The Commerce entities the gateway reads and updates (payments and payment
 * methods), the gateway's reply to one transaction, and the exceptions the
 * gateway throws. Money is an integer number of hundredths of the currency
 * unit; times are Unix timestamps, with an unset timestamp read as 0.
 */
module Commerce {
  import opened Wrappers
  import opened Catalog

  /** What a stored payment method holds. */
  datatype MethodRecord = MethodRecord(
    remoteId: string,
    expires: int,
    cardType: string,
    cardNumber: string,
    expMonth: int,
    expYear: int)

  /** A snapshot of a payment and the payment method it references. */
  datatype PaymentData = PaymentData(
    state: PaymentState,
    amount: int,
    currency: string,
    refunded: int,
    remoteId: string,
    remoteState: Option<TransactionState>,
    authorizationExpires: int,
    authorizedTime: int,
    capturedTime: int,
    isTest: bool,
    paymentMethod: Option<MethodRecord>)

  /** Commerce's balance of a payment: what has not been refunded yet. */
  function Balance(d: PaymentData): int {
    d.amount - d.refunded
  }

  /** The decoded fields of a response that the gateway reads. */
  datatype Response = Response(result: ResultCode, respmsg: string, pnref: string)

  /** Either a decoded response, or a RequestException raised by the HTTP client. */
  datatype Reply = Received(response: Response) | RequestFailed

  predicate IsApproved(reply: Reply) {
    reply.Received? && reply.response.result == Approved
  }

  /** The gateway operations, used to tell their failures apart. */
  datatype Operation =
    | CreatePaymentOp
    | CapturePaymentOp
    | VoidPaymentOp
    | RefundPaymentOp
    | CreatePaymentMethodOp

  /** One constructor per throw site of the gateway. */
  datatype Failure =
    | InvalidPaymentState
    | MissingPaymentMethod
    | PaymentMethodExpired
    | AuthorizationExpired
    | MissingTransactionId
    | MissingAuthorizationId
    | NotRefundable
    | RefundWindowClosed
    | RefundExceedsBalance(balance: int)
    | MissingRemoteDetails
    | Declined(op: Operation, result: ResultCode, respmsg: string)
    | TransportFailed(op: Operation)

  /** The exception classes the gateway throws. */
  datatype ExceptionClass =
    | InvalidArgumentException
    | HardDeclineException
    | PaymentGatewayException
    | InvalidRequestException

  /**
   * The class of the exception thrown at each site. Only an expired payment
   * method and a failed charge or tokenization are hard declines.
   */
  function ExceptionOf(f: Failure): (e: ExceptionClass)
    ensures e == HardDeclineException <==>
      || f == PaymentMethodExpired
      || ((f.Declined? || f.TransportFailed?) && (f.op == CreatePaymentOp || f.op == CreatePaymentMethodOp))
    ensures f.Declined? && f.op != CreatePaymentOp && f.op != CreatePaymentMethodOp ==> e == PaymentGatewayException
  {
    match f
    case InvalidPaymentState => InvalidArgumentException
    case MissingPaymentMethod => InvalidArgumentException
    case PaymentMethodExpired => HardDeclineException
    case AuthorizationExpired => InvalidArgumentException
    case MissingTransactionId => InvalidArgumentException
    case MissingAuthorizationId => PaymentGatewayException
    case NotRefundable => InvalidArgumentException
    case RefundWindowClosed => InvalidRequestException
    case RefundExceedsBalance(_) => InvalidRequestException
    case MissingRemoteDetails => InvalidRequestException
    case Declined(op, _, _) =>
      if op == CreatePaymentOp || op == CreatePaymentMethodOp then HardDeclineException
      else PaymentGatewayException
    case TransportFailed(op) =>
      match op
      case CreatePaymentOp => HardDeclineException
      case CapturePaymentOp => PaymentGatewayException
      case VoidPaymentOp => InvalidArgumentException
      case RefundPaymentOp => InvalidRequestException
      case CreatePaymentMethodOp => HardDeclineException
  }

  /** A stored payment method (card), updated in place when it is created. */
  class PaymentMethod {
    var remoteId: string
    var expiresTime: int
    var cardType: string
    var cardNumber: string
    var cardExpMonth: int
    var cardExpYear: int

    function Record(): MethodRecord
      reads this
    {
      MethodRecord(remoteId, expiresTime, cardType, cardNumber, cardExpMonth, cardExpYear)
    }

    constructor ()
      ensures Record() == MethodRecord("", 0, "", "", 0, 0)
    {
      remoteId, expiresTime := "", 0;
      cardType, cardNumber := "", "";
      cardExpMonth, cardExpYear := 0, 0;
    }
  }

  /** A payment, updated in place by the gateway's operations. */
  class Payment {
    var state: PaymentState
    var amount: int
    var currency: string
    var refundedAmount: int
    var remoteId: string
    var remoteState: Option<TransactionState>
    var authorizationExpiresTime: int
    var authorizedTime: int
    var capturedTime: int
    var isTest: bool
    var paymentMethod: PaymentMethod?

    function Data(): PaymentData
      reads this, paymentMethod
    {
      PaymentData(state, amount, currency, refundedAmount, remoteId, remoteState,
                  authorizationExpiresTime, authorizedTime, capturedTime, isTest,
                  if paymentMethod == null then None else Some(paymentMethod.Record()))
    }

    /** A new, unprocessed payment of the given amount. */
    constructor (amount: int, currency: string, paymentMethod: PaymentMethod?)
      ensures this.paymentMethod == paymentMethod
      ensures Data() == PaymentData(New, amount, currency, 0, "", None, 0, 0, 0, false,
                                    if paymentMethod == null then None else Some(paymentMethod.Record()))
    {
      state := New;
      this.amount, this.currency := amount, currency;
      refundedAmount, remoteId, remoteState := 0, "", None;
      authorizationExpiresTime, authorizedTime, capturedTime := 0, 0, 0;
      isTest := false;
      this.paymentMethod := paymentMethod;
    }
  }
}
