/**
 * The Payflow gateway's operations on payments and payment methods. Each one
 * checks its local guards, posts one request (the HTTP exchange itself is
 * replaced by the reply given as input), reads the result and, only when the
 * gateway approves, updates the entity in place. Every method is tied to the
 * step function of the same operation in PayflowSteps.
 */
module Payflow {
  import opened Wrappers
  import opened Strings
  import opened Catalog
  import opened Commerce
  import opened PayflowBase
  import opened PayflowSteps

  class Payflow {
    const configuration: Configuration

    constructor (configuration: Configuration)
      ensures this.configuration == configuration
    {
      this.configuration := configuration;
    }

    /** createPayment: a sale when capture is set, an authorization otherwise. */
    method CreatePayment(payment: Payment, capture: bool, now: int, reply: Reply)
      returns (sent: Option<Post>, outcome: Outcome<Failure>)
      modifies payment
      ensures payment.paymentMethod == old(payment.paymentMethod)
      ensures var step := CreatePaymentStep(old(payment.Data()), capture, now, configuration.mode, reply);
        && payment.Data() == step.after
        && outcome == step.outcome
        && sent == Transmitted(configuration, step.request)
    {
      var check := ValidatePayment(payment.Data(), Some(New), now);
      if check.Fail? {
        return None, check;
      }
      var post := ExecuteTransaction(configuration, CreatePaymentRequest(payment.Data(), capture));
      sent := Some(post);
      if reply.RequestFailed? {
        return sent, Fail(TransportFailed(CreatePaymentOp));
      }
      var data := reply.response;
      if data.result != Approved {
        return sent, Fail(Declined(CreatePaymentOp, data.result, data.respmsg));
      }
      payment.state := if capture then CaptureCompleted else PaymentState.Authorization;
      if capture {
        payment.capturedTime := now;
      } else {
        payment.authorizationExpiresTime := now + AuthorizationLifetime;
      }
      payment.isTest := configuration.mode == TestMode;
      payment.remoteId := data.pnref;
      payment.remoteState := Some(AuthorizationApproved);
      payment.authorizedTime := now;
      outcome := Pass;
    }

    /** capturePayment: capture the given amount, or the whole amount, of an authorization. */
    method CapturePayment(payment: Payment, amount: Option<int>, now: int, reply: Reply)
      returns (sent: Option<Post>, outcome: Outcome<Failure>)
      modifies payment
      ensures payment.paymentMethod == old(payment.paymentMethod)
      ensures var step := CapturePaymentStep(old(payment.Data()), amount, now, reply);
        && payment.Data() == step.after
        && outcome == step.outcome
        && sent == Transmitted(configuration, step.request)
    {
      var check := ValidatePayment(payment.Data(), Some(PaymentState.Authorization), now);
      if check.Fail? {
        return None, check;
      }
      var captured := if amount.Some? then amount.value else payment.amount;
      var post := ExecuteTransaction(configuration, CapturePaymentRequest(payment.Data(), captured));
      sent := Some(post);
      if reply.RequestFailed? {
        return sent, Fail(TransportFailed(CapturePaymentOp));
      }
      var data := reply.response;
      if data.result != Approved {
        return sent, Fail(Declined(CapturePaymentOp, data.result, data.respmsg));
      }
      payment.state := CaptureCompleted;
      payment.amount := captured;
      payment.capturedTime := now;
      outcome := Pass;
    }

    /** voidPayment: cancel an authorization. */
    method VoidPayment(payment: Payment, now: int, reply: Reply)
      returns (sent: Option<Post>, outcome: Outcome<Failure>)
      modifies payment
      ensures payment.paymentMethod == old(payment.paymentMethod)
      ensures var step := VoidPaymentStep(old(payment.Data()), now, reply);
        && payment.Data() == step.after
        && outcome == step.outcome
        && sent == Transmitted(configuration, step.request)
    {
      var check := ValidatePayment(payment.Data(), Some(PaymentState.Authorization), now);
      if check.Fail? {
        return None, check;
      }
      var remoteId := payment.remoteId;
      if Falsy(remoteId) {
        return None, Fail(MissingAuthorizationId);
      }
      var post := ExecuteTransaction(configuration, VoidPaymentRequest(payment.Data()));
      sent := Some(post);
      if reply.RequestFailed? {
        return sent, Fail(TransportFailed(VoidPaymentOp));
      }
      var data := reply.response;
      if data.result != Approved {
        return sent, Fail(Declined(VoidPaymentOp, data.result, data.respmsg));
      }
      payment.state := AuthorizationVoided;
      outcome := Pass;
    }

    /** refundPayment: credit back the given amount, or the whole amount, of a capture. */
    method RefundPayment(payment: Payment, amount: Option<int>, now: int, reply: Reply)
      returns (sent: Option<Post>, outcome: Outcome<Failure>)
      modifies payment
      ensures payment.paymentMethod == old(payment.paymentMethod)
      ensures var step := RefundPaymentStep(old(payment.Data()), amount, now, reply);
        && payment.Data() == step.after
        && outcome == step.outcome
        && sent == Transmitted(configuration, step.request)
    {
      if !Refundable(payment.state) {
        return None, Fail(NotRefundable);
      }
      if payment.capturedTime < now - RefundWindow {
        return None, Fail(RefundWindowClosed);
      }
      var refund := if amount.Some? then amount.value else payment.amount;
      var balance := payment.amount - payment.refundedAmount;
      if refund > balance {
        return None, Fail(RefundExceedsBalance(balance));
      }
      if Falsy(payment.remoteId) {
        return None, Fail(MissingRemoteDetails);
      }
      var newRefundedAmount := payment.refundedAmount + refund;
      var post := ExecuteTransaction(configuration, RefundPaymentRequest(payment.Data()));
      sent := Some(post);
      if reply.RequestFailed? {
        return sent, Fail(TransportFailed(RefundPaymentOp));
      }
      var data := reply.response;
      if data.result != Approved {
        return sent, Fail(Declined(RefundPaymentOp, data.result, data.respmsg));
      }
      payment.state := if newRefundedAmount < payment.amount then CapturePartiallyRefunded else CaptureRefunded;
      payment.refundedAmount := newRefundedAmount;
      outcome := Pass;
    }

    /**
     * createPaymentMethod: verify a card with a zero-amount authorization and
     * store its token. expires is the card's expiry timestamp.
     */
    method CreatePaymentMethod(paymentMethod: PaymentMethod, details: CardDetails, billing: Billing,
                               expires: int, reply: Reply)
      returns (sent: Post, outcome: Outcome<Failure>)
      requires ValidExpiration(details)
      modifies paymentMethod
      ensures var step := CreatePaymentMethodStep(old(paymentMethod.Record()), details, billing, expires, reply);
        && paymentMethod.Record() == step.after
        && outcome == step.outcome
        && Transmitted(configuration, Some(step.request)) == Some(sent)
    {
      ghost var step := CreatePaymentMethodStep(paymentMethod.Record(), details, billing, expires, reply);
      var request := CreatePaymentMethodRequest(details, billing);
      assert step.request == request;
      sent := ExecuteTransaction(configuration, request);
      if reply.RequestFailed? {
        return sent, Fail(TransportFailed(CreatePaymentMethodOp));
      }
      var data := reply.response;
      if !CardAccepted(data.result) {
        return sent, Fail(Declined(CreatePaymentMethodOp, data.result, data.respmsg));
      }
      paymentMethod.cardType := details.cardType;
      paymentMethod.cardNumber := LastFour(details.number);
      paymentMethod.cardExpMonth := details.month;
      paymentMethod.cardExpYear := details.year;
      paymentMethod.remoteId := data.pnref;
      paymentMethod.expiresTime := expires;
      outcome := Pass;
    }
  }
}
