/**
 * What each operation of the Payflow gateway does to a payment or payment
 * method, as a function of the snapshot before it, the current time and the
 * gateway's reply: the request it sends (none when a local guard fails), the
 * outcome, and the snapshot after it. The gateway's methods are tied to these
 * functions; the lemmas here are about the payment lifecycle they describe.
 */
module PayflowSteps {
  import opened Wrappers
  import opened Strings
  import opened Catalog
  import opened Commerce
  import opened PayflowBase

  const DaySeconds := 86400

  /** How long an authorization is honoured. */
  const AuthorizationLifetime := 29 * DaySeconds

  /** How long after capture a refund is accepted. */
  const RefundWindow := 180 * DaySeconds

  /** The value, in hundredths, of one or two fraction digits: "5" is 50, "05" is 5. */
  function CentsValue(digits: string): int {
    if |digits| == 0 then 0
    else if |digits| == 1 then 10 * DigitValue(digits[0])
    else 10 * DigitValue(digits[0]) + DigitValue(digits[1])
  }

  /** The fraction digits of an amount of cents, without trailing zeros. */
  function CentsText(cents: nat): (digits: string)
    requires cents < 100
    ensures |digits| <= 2
    ensures forall i | 0 <= i < |digits| :: IsDigit(digits[i])
    ensures CentsValue(digits) == cents
  {
    if cents == 0 then ""
    else if cents % 10 == 0 then [Digit(cents / 10)]
    else [Digit(cents / 10), Digit(cents % 10)]
  }

  /** An amount without its sign: the units, then the point and the cents unless they are zero. */
  function UnsignedAmountText(magnitude: nat): (text: string)
    ensures |text| > 0 && IsDigit(text[0])
    ensures forall i | 0 <= i < |text| :: IsDigit(text[i]) || text[i] == '.'
  {
    var digits := CentsText(magnitude % 100);
    NatText(magnitude / 100) + (if digits == "" then "" else "." + digits)
  }

  /**
   * The AMT field for an amount in hundredths of the currency unit, written as PHP writes the
   * float that round($x, 2) returns: no trailing zeros after the point.
   */
  function AmountText(minor: int): (text: string)
    ensures |text| > 0
    ensures forall i | 0 <= i < |text| :: IsDigit(text[i]) || text[i] == '-' || text[i] == '.'
  {
    var magnitude: nat := if minor < 0 then -minor else minor;
    (if minor < 0 then "-" else "") + UnsignedAmountText(magnitude)
  }

  /** What an unsigned decimal text with at most two fraction digits denotes, in hundredths. */
  function UnsignedAmountValue(text: string): int {
    var pieces := Split(text, '.');
    DigitsValue(pieces[0]) * 100 + (if |pieces| > 1 then CentsValue(pieces[1]) else 0)
  }

  /** What a decimal text, possibly signed, denotes in hundredths of the currency unit. */
  function AmountValue(text: string): int {
    if |text| > 0 && text[0] == '-' then -UnsignedAmountValue(text[1..]) else UnsignedAmountValue(text)
  }

  lemma UnsignedAmountTextValue(magnitude: nat)
    ensures UnsignedAmountValue(UnsignedAmountText(magnitude)) == magnitude
  {
    var whole := NatText(magnitude / 100);
    var digits := CentsText(magnitude % 100);
    assert '.' !in whole by {
      assert forall i | 0 <= i < |whole| :: IsDigit(whole[i]);
    }
    if digits == "" {
      assert UnsignedAmountText(magnitude) == whole;
      SplitWithoutSeparator(whole, '.');
    } else {
      assert UnsignedAmountText(magnitude) == whole + ['.'] + digits;
      assert '.' !in digits by {
        assert forall i | 0 <= i < |digits| :: IsDigit(digits[i]);
      }
      SplitAfterPiece(whole, digits, '.');
      SplitWithoutSeparator(digits, '.');
    }
    NatTextValue(magnitude / 100);
  }

  /** The AMT text denotes exactly the amount it was rendered from. */
  lemma AmountTextValue(minor: int)
    ensures AmountValue(AmountText(minor)) == minor
  {
    var magnitude: nat := if minor < 0 then -minor else minor;
    var unsigned := UnsignedAmountText(magnitude);
    UnsignedAmountTextValue(magnitude);
    if minor < 0 {
      assert AmountText(minor)[1..] == unsigned;
    } else {
      assert AmountText(minor) == unsigned;
    }
  }

  /** Distinct amounts are sent as distinct AMT texts. */
  lemma AmountTextInjective(a: int, b: int)
    requires AmountText(a) == AmountText(b)
    ensures a == b
  {
    AmountTextValue(a);
    AmountTextValue(b);
  }

  /** Amounts, codes and fixed names can always be carried on the wire. */
  lemma AmountTextWireSafe(minor: int)
    ensures '&' !in AmountText(minor) && '=' !in AmountText(minor)
  {
  }

  /** The result of one payment operation. */
  datatype Step = Step(request: Option<Params>, outcome: Outcome<Failure>, after: PaymentData)

  /** The result of tokenizing a card: the request is always sent. */
  datatype MethodStep = MethodStep(request: Params, outcome: Outcome<Failure>, after: MethodRecord)

  function TrxType(t: TransactionType): string {
    [TransactionTypeCode(t)]
  }

  // ---------------------------------------------------------------------
  // createPayment

  function CreatePaymentRequest(d: PaymentData, capture: bool): Params
    requires d.paymentMethod.Some?
  {
    [("trxtype", TrxType(if capture then TransactionType.Sale else TransactionType.Authorization)),
     ("amt", AmountText(d.amount)),
     ("currencycode", d.currency),
     ("origid", d.paymentMethod.value.remoteId),
     ("verbosity", VerbosityName(High))]
  }

  /** The payment after an approved sale (capture) or authorization. */
  function Charged(d: PaymentData, capture: bool, now: int, mode: string, pnref: string): PaymentData {
    d.(state := if capture then CaptureCompleted else PaymentState.Authorization,
       capturedTime := if capture then now else d.capturedTime,
       authorizationExpires := if capture then d.authorizationExpires else now + AuthorizationLifetime,
       isTest := mode == TestMode,
       remoteId := pnref,
       remoteState := Some(AuthorizationApproved),
       authorizedTime := now)
  }

  function CreatePaymentStep(d: PaymentData, capture: bool, now: int, mode: string, reply: Reply): (r: Step)
    ensures r.request.Some? <==> ValidatePayment(d, Some(New), now).Pass?
    ensures r.request.Some? ==>
      && ("trxtype", if capture then "S" else "A") in r.request.value
      && ("origid", d.paymentMethod.value.remoteId) in r.request.value
    ensures ValidatePayment(d, Some(New), now).Fail? ==> r.outcome == ValidatePayment(d, Some(New), now)
    ensures r.request.Some? && reply.RequestFailed? ==> r.outcome == Fail(TransportFailed(CreatePaymentOp))
    ensures r.request.Some? && reply.Received? && reply.response.result != Approved ==>
      r.outcome == Fail(Declined(CreatePaymentOp, reply.response.result, reply.response.respmsg))
    ensures r.outcome.Pass? <==> r.request.Some? && IsApproved(reply)
    ensures r.outcome.Fail? ==> r.after == d
    ensures r.outcome.Pass? ==>
      r.after == d.(state := if capture then CaptureCompleted else PaymentState.Authorization,
                    capturedTime := if capture then now else d.capturedTime,
                    authorizationExpires := if capture then d.authorizationExpires else now + AuthorizationLifetime,
                    isTest := mode == TestMode,
                    remoteId := reply.response.pnref,
                    remoteState := Some(AuthorizationApproved),
                    authorizedTime := now)
  {
    match ValidatePayment(d, Some(New), now)
    case Fail(f) => Step(None, Fail(f), d)
    case Pass =>
      var request := CreatePaymentRequest(d, capture);
      match reply
      case RequestFailed => Step(Some(request), Fail(TransportFailed(CreatePaymentOp)), d)
      case Received(response) =>
        if response.result != Approved then
          Step(Some(request), Fail(Declined(CreatePaymentOp, response.result, response.respmsg)), d)
        else
          Step(Some(request), Pass, Charged(d, capture, now, mode, response.pnref))
  }

  // ---------------------------------------------------------------------
  // capturePayment

  /** The amount of a capture or refund: the payment's whole amount when none is given. */
  function AmountOrWhole(d: PaymentData, amount: Option<int>): int {
    if amount.Some? then amount.value else d.amount
  }

  function CapturePaymentRequest(d: PaymentData, amount: int): Params {
    [("trxtype", TrxType(DelayedCapture)),
     ("amt", AmountText(amount)),
     ("currency", d.currency),
     ("origid", d.remoteId)]
  }

  function CapturePaymentStep(d: PaymentData, amount: Option<int>, now: int, reply: Reply): (r: Step)
    ensures r.request.Some? <==> ValidatePayment(d, Some(PaymentState.Authorization), now).Pass?
    ensures r.request.Some? ==>
      && ("trxtype", "D") in r.request.value
      && ("origid", d.remoteId) in r.request.value
      && ("amt", AmountText(AmountOrWhole(d, amount))) in r.request.value
    ensures ValidatePayment(d, Some(PaymentState.Authorization), now).Fail? ==>
      r.outcome == ValidatePayment(d, Some(PaymentState.Authorization), now)
    ensures r.request.Some? && reply.RequestFailed? ==> r.outcome == Fail(TransportFailed(CapturePaymentOp))
    ensures r.request.Some? && reply.Received? && reply.response.result != Approved ==>
      r.outcome == Fail(Declined(CapturePaymentOp, reply.response.result, reply.response.respmsg))
    ensures r.outcome.Pass? <==> r.request.Some? && IsApproved(reply)
    ensures r.outcome.Fail? ==> r.after == d
    ensures r.outcome.Pass? ==>
      r.after == d.(state := CaptureCompleted, amount := AmountOrWhole(d, amount), capturedTime := now)
  {
    match ValidatePayment(d, Some(PaymentState.Authorization), now)
    case Fail(f) => Step(None, Fail(f), d)
    case Pass =>
      var captured := AmountOrWhole(d, amount);
      var request := CapturePaymentRequest(d, captured);
      match reply
      case RequestFailed => Step(Some(request), Fail(TransportFailed(CapturePaymentOp)), d)
      case Received(response) =>
        if response.result != Approved then
          Step(Some(request), Fail(Declined(CapturePaymentOp, response.result, response.respmsg)), d)
        else
          Step(Some(request), Pass, d.(state := CaptureCompleted, amount := captured, capturedTime := now))
  }

  // ---------------------------------------------------------------------
  // voidPayment

  function VoidPaymentRequest(d: PaymentData): Params {
    [("trxtype", TrxType(TransactionType.Void)),
     ("origid", d.remoteId),
     ("verbosity", VerbosityName(High))]
  }

  function VoidPaymentStep(d: PaymentData, now: int, reply: Reply): (r: Step)
    ensures r.request.Some? <==> ValidatePayment(d, Some(PaymentState.Authorization), now).Pass?
    ensures r.request.Some? ==>
      && ("trxtype", "V") in r.request.value
      && ("origid", d.remoteId) in r.request.value
    ensures ValidatePayment(d, Some(PaymentState.Authorization), now).Fail? ==>
      r.outcome == ValidatePayment(d, Some(PaymentState.Authorization), now)
    ensures r.request.Some? && reply.RequestFailed? ==> r.outcome == Fail(TransportFailed(VoidPaymentOp))
    ensures r.request.Some? && reply.Received? && reply.response.result != Approved ==>
      r.outcome == Fail(Declined(VoidPaymentOp, reply.response.result, reply.response.respmsg))
    ensures r.outcome.Pass? <==> r.request.Some? && IsApproved(reply)
    ensures r.outcome.Fail? ==> r.after == d
    ensures r.outcome.Pass? ==> r.after == d.(state := AuthorizationVoided)
  {
    match ValidatePayment(d, Some(PaymentState.Authorization), now)
    case Fail(f) => Step(None, Fail(f), d)
    case Pass =>
      if Falsy(d.remoteId) then Step(None, Fail(MissingAuthorizationId), d)
      else
        var request := VoidPaymentRequest(d);
        match reply
        case RequestFailed => Step(Some(request), Fail(TransportFailed(VoidPaymentOp)), d)
        case Received(response) =>
          if response.result != Approved then
            Step(Some(request), Fail(Declined(VoidPaymentOp, response.result, response.respmsg)), d)
          else
            Step(Some(request), Pass, d.(state := AuthorizationVoided))
  }

  /** voidPayment's own remote-id check never fires: validatePayment has already rejected an empty id. */
  lemma VoidRemoteIdCheckUnreachable(d: PaymentData, now: int, reply: Reply)
    ensures VoidPaymentStep(d, now, reply).outcome != Fail(MissingAuthorizationId)
  {
  }

  // ---------------------------------------------------------------------
  // refundPayment

  function RefundPaymentRequest(d: PaymentData): Params {
    [("trxtype", TrxType(Credit)),
     ("origid", d.remoteId)]
  }

  /** The state after an approved refund that brings the refunded total to total. */
  function RefundedState(total: int, amount: int): PaymentState {
    if total < amount then CapturePartiallyRefunded else CaptureRefunded
  }

  predicate Refundable(s: PaymentState) {
    s == CaptureCompleted || s == CapturePartiallyRefunded
  }

  function RefundPaymentStep(d: PaymentData, amount: Option<int>, now: int, reply: Reply): (r: Step)
    ensures !Refundable(d.state) ==> r.outcome == Fail(NotRefundable)
    ensures Refundable(d.state) && d.capturedTime < now - RefundWindow ==> r.outcome == Fail(RefundWindowClosed)
    ensures Refundable(d.state) && d.capturedTime >= now - RefundWindow && AmountOrWhole(d, amount) > Balance(d) ==>
      r.outcome == Fail(RefundExceedsBalance(Balance(d)))
    ensures Refundable(d.state) && d.capturedTime >= now - RefundWindow && AmountOrWhole(d, amount) <= Balance(d)
            && Falsy(d.remoteId) ==>
      r.outcome == Fail(MissingRemoteDetails)
    ensures r.request.Some? <==>
      && Refundable(d.state)
      && d.capturedTime >= now - RefundWindow
      && AmountOrWhole(d, amount) <= Balance(d)
      && !Falsy(d.remoteId)
    ensures r.request.Some? ==> r.request.value == [("trxtype", "C"), ("origid", d.remoteId)]
    ensures r.request.Some? && reply.RequestFailed? ==> r.outcome == Fail(TransportFailed(RefundPaymentOp))
    ensures r.request.Some? && reply.Received? && reply.response.result != Approved ==>
      r.outcome == Fail(Declined(RefundPaymentOp, reply.response.result, reply.response.respmsg))
    ensures r.outcome.Pass? <==> r.request.Some? && IsApproved(reply)
    ensures r.outcome.Fail? ==> r.after == d
    ensures r.outcome.Pass? ==>
      && r.after.refunded == d.refunded + AmountOrWhole(d, amount)
      && r.after.refunded <= r.after.amount == d.amount
      && (r.after.state == CaptureRefunded <==> r.after.refunded == d.amount)
      && (r.after.state == CapturePartiallyRefunded <==> r.after.refunded < d.amount)
      && r.after == d.(state := r.after.state, refunded := r.after.refunded)
  {
    if !Refundable(d.state) then Step(None, Fail(NotRefundable), d)
    else if d.capturedTime < now - RefundWindow then Step(None, Fail(RefundWindowClosed), d)
    else
      var refund := AmountOrWhole(d, amount);
      if refund > Balance(d) then Step(None, Fail(RefundExceedsBalance(Balance(d))), d)
      else if Falsy(d.remoteId) then Step(None, Fail(MissingRemoteDetails), d)
      else
        var total := d.refunded + refund;
        var request := RefundPaymentRequest(d);
        match reply
        case RequestFailed => Step(Some(request), Fail(TransportFailed(RefundPaymentOp)), d)
        case Received(response) =>
          if response.result != Approved then
            Step(Some(request), Fail(Declined(RefundPaymentOp, response.result, response.respmsg)), d)
          else
            Step(Some(request), Pass, d.(state := RefundedState(total, d.amount), refunded := total))
  }

  /** A refund without an amount asks for the whole amount, so after any partial refund it is refused before a request is sent. */
  lemma WholeRefundAfterPartialRefused(d: PaymentData, now: int, reply: Reply)
    requires d.refunded > 0
    ensures RefundPaymentStep(d, None, now, reply).request.None?
    ensures RefundPaymentStep(d, None, now, reply).outcome.Fail?
  {
  }

  /** The credit request does not depend on the amount refunded: no AMT field is sent. */
  lemma RefundRequestIgnoresAmount(d: PaymentData, a1: Option<int>, a2: Option<int>, now: int, reply: Reply)
    requires RefundPaymentStep(d, a1, now, reply).request.Some?
    requires RefundPaymentStep(d, a2, now, reply).request.Some?
    ensures RefundPaymentStep(d, a1, now, reply).request == RefundPaymentStep(d, a2, now, reply).request
    ensures !HasKey(RefundPaymentStep(d, a1, now, reply).request.value, "amt")
  {
  }

  // ---------------------------------------------------------------------
  // createPaymentMethod

  /** The card fields the payment form collects. */
  datatype CardDetails = CardDetails(
    cardType: string,
    number: string,
    month: int,
    year: int,
    securityCode: string)

  predicate ValidExpiration(details: CardDetails) {
    1 <= details.month <= 12 && 1000 <= details.year <= 9999
  }

  /** The billing fields read from the payment method's owner and billing address. */
  datatype Billing = Billing(
    email: string,
    givenName: string,
    familyName: string,
    addressLine1: string,
    locality: string,
    administrativeArea: string,
    postalCode: string,
    countryCode: string)

  /** substr($number, -4): the last four characters, or all of a shorter string. */
  function LastFour(number: string): (tail: string)
    ensures |tail| == if |number| < 4 then |number| else 4
    ensures number[|number| - |tail|..] == tail
  {
    if |number| <= 4 then number else number[|number| - 4..]
  }

  function CreatePaymentMethodRequest(details: CardDetails, billing: Billing): Params
    requires ValidExpiration(details)
  {
    [("trxtype", TrxType(TransactionType.Authorization)),
     ("amt", "0"),
     ("verbosity", VerbosityName(High)),
     ("acct", details.number),
     ("expdate", GetExpirationDate(details.month, details.year)),
     ("cvv2", details.securityCode),
     ("billtoemail", billing.email),
     ("billtofirstname", billing.givenName),
     ("billtolastname", billing.familyName),
     ("billtostreet", billing.addressLine1),
     ("billtocity", billing.locality),
     ("billtostate", billing.administrativeArea),
     ("billtozip", billing.postalCode),
     ("billtocountry", billing.countryCode)]
  }

  /** The results under which a card counts as verified. */
  predicate CardAccepted(result: ResultCode) {
    result == Approved || result == FlaggedForReviewByFraudFilters
  }

  /** expires is the card's expiry timestamp, computed outside this model. */
  function CreatePaymentMethodStep(m: MethodRecord, details: CardDetails, billing: Billing, expires: int, reply: Reply): (r: MethodStep)
    requires ValidExpiration(details)
    ensures ("trxtype", "A") in r.request
    ensures ("amt", "0") in r.request
    ensures ("verbosity", "HIGH") in r.request
    ensures r.outcome.Pass? <==> reply.Received? && CardAccepted(reply.response.result)
    ensures reply.RequestFailed? ==> r.outcome == Fail(TransportFailed(CreatePaymentMethodOp))
    ensures reply.Received? && !CardAccepted(reply.response.result) ==>
      r.outcome == Fail(Declined(CreatePaymentMethodOp, reply.response.result, reply.response.respmsg))
    ensures r.outcome.Fail? ==> r.after == m
    ensures r.outcome.Pass? ==>
      && r.after.remoteId == reply.response.pnref
      && r.after.cardNumber == LastFour(details.number)
      && r.after.expires == expires
      && r.after.cardType == details.cardType
      && r.after.expMonth == details.month && r.after.expYear == details.year
  {
    var request := CreatePaymentMethodRequest(details, billing);
    match reply
    case RequestFailed => MethodStep(request, Fail(TransportFailed(CreatePaymentMethodOp)), m)
    case Received(response) =>
      if !CardAccepted(response.result) then
        MethodStep(request, Fail(Declined(CreatePaymentMethodOp, response.result, response.respmsg)), m)
      else
        MethodStep(request, Pass,
          m.(cardType := details.cardType,
             cardNumber := LastFour(details.number),
             expMonth := details.month,
             expYear := details.year,
             remoteId := response.pnref,
             expires := expires))
  }

  /** Only the last four digits of the card are stored, though the whole number is sent. */
  lemma StoredCardIsSuffix(m: MethodRecord, details: CardDetails, billing: Billing, expires: int, reply: Reply)
    requires ValidExpiration(details)
    requires |details.number| >= 4
    ensures var r := CreatePaymentMethodStep(m, details, billing, expires, reply);
      && ("acct", details.number) in r.request
      && (r.outcome.Pass? ==> |r.after.cardNumber| == 4 && r.after.cardNumber == details.number[|details.number| - 4..])
  {
    var request := CreatePaymentMethodRequest(details, billing);
    assert request[3] == ("acct", details.number);
    assert CreatePaymentMethodStep(m, details, billing, expires, reply).request == request;
  }

  // ---------------------------------------------------------------------
  // The exceptions the operations throw.

  /**
   * Once its guard has passed, a failed sale or authorization, and any failed
   * tokenization, is a hard decline of the payment method.
   */
  lemma CreateFailuresAreHardDeclines(d: PaymentData, capture: bool, now: int, mode: string, reply: Reply,
                                      m: MethodRecord, details: CardDetails, billing: Billing, expires: int)
    requires ValidExpiration(details)
    ensures var r := CreatePaymentStep(d, capture, now, mode, reply);
      r.request.Some? && r.outcome.Fail? ==> ExceptionOf(r.outcome.error) == HardDeclineException
    ensures var r := CreatePaymentMethodStep(m, details, billing, expires, reply);
      r.outcome.Fail? ==> ExceptionOf(r.outcome.error) == HardDeclineException
  {
  }

  /**
   * A refund of a refundable payment that fails is an invalid request, unless
   * the gateway answered and declined it, which is a gateway error.
   */
  lemma RefundFailureExceptions(d: PaymentData, amount: Option<int>, now: int, reply: Reply)
    requires Refundable(d.state)
    ensures var r := RefundPaymentStep(d, amount, now, reply);
      && (r.outcome.Fail? && !(r.request.Some? && reply.Received?) ==>
            ExceptionOf(r.outcome.error) == InvalidRequestException)
      && (r.outcome.Fail? && r.request.Some? && reply.Received? ==>
            ExceptionOf(r.outcome.error) == PaymentGatewayException)
  {
  }

  // ---------------------------------------------------------------------
  // The payment lifecycle.

  /** The state changes an approved operation makes. */
  predicate Transition(from: PaymentState, to: PaymentState) {
    match from
    case New => to == PaymentState.Authorization || to == CaptureCompleted
    case Authorization => to == CaptureCompleted || to == AuthorizationVoided
    case CaptureCompleted => to == CapturePartiallyRefunded || to == CaptureRefunded
    case CapturePartiallyRefunded => to == CapturePartiallyRefunded || to == CaptureRefunded
    case _ => false
  }

  /** The states a payment can reach from a state, itself included. */
  predicate Reachable(from: PaymentState, to: PaymentState) {
    from == to ||
    match from
    case New => to != New && to != Completed
    case Authorization => to != New && to != PaymentState.Authorization && to != Completed
    case CaptureCompleted => to == CapturePartiallyRefunded || to == CaptureRefunded
    case CapturePartiallyRefunded => to == CaptureRefunded
    case _ => false
  }

  /** A payment operation together with its time and the gateway's reply. */
  datatype Event =
    | CreatePayment(capture: bool, now: int, reply: Reply)
    | CapturePayment(amount: Option<int>, now: int, reply: Reply)
    | VoidPayment(now: int, reply: Reply)
    | RefundPayment(amount: Option<int>, now: int, reply: Reply)

  function Apply(d: PaymentData, e: Event, mode: string): Step {
    match e
    case CreatePayment(capture, now, reply) => CreatePaymentStep(d, capture, now, mode, reply)
    case CapturePayment(amount, now, reply) => CapturePaymentStep(d, amount, now, reply)
    case VoidPayment(now, reply) => VoidPaymentStep(d, now, reply)
    case RefundPayment(amount, now, reply) => RefundPaymentStep(d, amount, now, reply)
  }

  function Run(d: PaymentData, events: seq<Event>, mode: string): PaymentData
    decreases events
  {
    if |events| == 0 then d else Run(Apply(d, events[0], mode).after, events[1..], mode)
  }

  /** Every operation either fails and changes nothing, or takes one edge of the state graph. */
  lemma StepFollowsTransition(d: PaymentData, e: Event, mode: string)
    ensures var r := Apply(d, e, mode);
      && (r.outcome.Fail? ==> r.after == d)
      && (r.outcome.Pass? ==> Transition(d.state, r.after.state))
  {
  }

  /** Over any sequence of operations the state only moves forward along the graph. */
  lemma {:induction false} RunStaysReachable(d: PaymentData, events: seq<Event>, mode: string)
    ensures Reachable(d.state, Run(d, events, mode).state)
    decreases events
  {
    if |events| > 0 {
      var next := Apply(d, events[0], mode).after;
      StepFollowsTransition(d, events[0], mode);
      RunStaysReachable(next, events[1..], mode);
    }
  }

  /** No operation ever puts a payment into the completed state. */
  lemma RunNeverCompletes(d: PaymentData, events: seq<Event>, mode: string)
    requires d.state != Completed
    ensures Run(d, events, mode).state != Completed
  {
    RunStaysReachable(d, events, mode);
  }

  /** The refunded total agrees with the state and never exceeds the amount. */
  ghost predicate Consistent(d: PaymentData) {
    && d.amount >= 0
    && match d.state
       case New => d.refunded == 0
       case Authorization => d.refunded == 0
       case AuthorizationVoided => d.refunded == 0
       case CaptureCompleted => d.refunded == 0
       case CapturePartiallyRefunded => 0 < d.refunded < d.amount
       case CaptureRefunded => d.refunded == d.amount
       case Completed => false
  }

  /** Capture and refund amounts, when given, are positive. */
  predicate PositiveAmount(e: Event) {
    match e
    case CapturePayment(amount, _, _) => amount.Some? ==> amount.value > 0
    case RefundPayment(amount, _, _) => amount.Some? ==> amount.value > 0
    case _ => true
  }

  lemma StepKeepsConsistent(d: PaymentData, e: Event, mode: string)
    requires Consistent(d) && PositiveAmount(e)
    ensures Consistent(Apply(d, e, mode).after)
  {
  }

  /** Every sequence of operations with positive amounts keeps a payment consistent. */
  lemma {:induction false} RunKeepsConsistent(d: PaymentData, events: seq<Event>, mode: string)
    requires Consistent(d)
    requires forall i | 0 <= i < |events| :: PositiveAmount(events[i])
    ensures Consistent(Run(d, events, mode))
    ensures Run(d, events, mode).refunded <= Run(d, events, mode).amount
    decreases events
  {
    if |events| > 0 {
      StepKeepsConsistent(d, events[0], mode);
      RunKeepsConsistent(Apply(d, events[0], mode).after, events[1..], mode);
    }
  }

  /** An authorization can be captured until 29 days after it was made, the last second included. */
  lemma AuthorizationHonoured(d: PaymentData, now: int, mode: string, response: Response, later: int)
    requires ValidatePayment(d, Some(New), now).Pass?
    requires response.result == Approved && !Falsy(response.pnref)
    ensures var a := CreatePaymentStep(d, false, now, mode, Received(response)).after;
      && a.state == PaymentState.Authorization
      && (later <= now + AuthorizationLifetime ==> ValidatePayment(a, Some(PaymentState.Authorization), later).Pass?)
      && (later > now + AuthorizationLifetime ==>
            ValidatePayment(a, Some(PaymentState.Authorization), later) == Fail(AuthorizationExpired))
  {
  }

  /** A sale can be refunded until 180 days after it was captured, and not later. */
  lemma RefundWindowAfterSale(d: PaymentData, now: int, mode: string, response: Response,
                              later: int, amount: Option<int>, reply: Reply)
    requires ValidatePayment(d, Some(New), now).Pass?
    requires response.result == Approved
    ensures var s := CreatePaymentStep(d, true, now, mode, Received(response)).after;
      && s.state == CaptureCompleted
      && (later > now + RefundWindow ==> RefundPaymentStep(s, amount, later, reply).outcome == Fail(RefundWindowClosed))
      && (later <= now + RefundWindow ==> RefundPaymentStep(s, amount, later, reply).outcome != Fail(RefundWindowClosed))
  {
  }

  /** Two approved partial refunds: refunded in full exactly when they add up to the amount. */
  lemma TwoRefunds(d: PaymentData, a1: int, a2: int, t1: int, t2: int, r1: Response, r2: Response)
    requires d.state == CaptureCompleted && d.refunded == 0
    requires 0 < a1 && 0 < a2 && a1 + a2 <= d.amount
    requires d.capturedTime >= t1 - RefundWindow && d.capturedTime >= t2 - RefundWindow
    requires !Falsy(d.remoteId)
    requires r1.result == Approved && r2.result == Approved
    ensures var s1 := RefundPaymentStep(d, Some(a1), t1, Received(r1));
      var s2 := RefundPaymentStep(s1.after, Some(a2), t2, Received(r2));
      && s1.outcome.Pass? && s1.after.state == CapturePartiallyRefunded
      && s2.outcome.Pass? && s2.after.refunded == a1 + a2
      && s2.after.state == (if a1 + a2 == d.amount then CaptureRefunded else CapturePartiallyRefunded)
  {
  }
}
