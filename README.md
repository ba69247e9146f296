# Payflow Pro gateway for Drupal Commerce — a verified Dafny model

This project models the transaction engine of the Drupal Commerce plugin for
PayPal's Payflow Pro gateway:

- the name-value wire codec (`UPPER(key)=value` tokens joined by `&`, decoded
  back into a map with lower-cased keys) and the merge of the default credential
  and tender fields into every request (`PayflowBase`);
- the endpoint choice by operating mode and the card expiry field (`PayflowBase`);
- the guard run before a payment transaction (`PayflowBase.ValidatePayment`);
- the five gateway operations — sale or authorization, delayed capture, void,
  credit (refund) and card tokenization — as methods of the `Payflow` class that
  update `Payment` and `PaymentMethod` objects in place (`Payflow`), each tied to a
  step function that gives the request sent, the outcome and the new snapshot
  (`PayflowSteps`);
- the constant classes for payment states, transaction types, tenders, verbosity
  and remote transaction states (`Catalog`).

Modules: `Wrappers` (Option, Outcome), `Strings` (ASCII case mapping as
`strtoupper`/`strtolower` do, `explode`/`implode` on one character, PHP string
truthiness), `Catalog`, `Commerce` (payment and payment-method entities, the
gateway's reply, the exceptions thrown), `PayflowBase`, `PayflowSteps`, `Payflow`.

Modelling choices:

- Money is an integer number of hundredths of the currency unit, since the code
  always rounds amounts to two decimals. The AMT field is rendered as PHP prints
  the float `round($x, 2)` returns (`10.5`, `10`, `10.05`), and the text is proved
  to read back as the amount it was rendered from.
- `REQUEST_TIME` is the parameter `now`. An unset timestamp is 0. For a positive
  `now`, PHP compares NULL with an integer the same way it compares 0.
- The gateway's decoded reply is an input. `Received(Response(result, respmsg, pnref))`
  is a response that was read. `RequestFailed` stands for a `RequestException`
  from the HTTP client. The result codes APPROVED and FLAGGED_FOR_REVIEW_BY_FRAUD_FILTERS
  are two distinct abstract constants; every other result is `OtherResult`.
- The balance of a payment is its amount minus its refunded amount. This is an
  assumption about Commerce's `getBalance()`.
- `empty()` and `?:` on a string treat both `""` and `"0"` as empty. So a remote id
  `"0"` counts as missing, and a configured credential `"0"` is sent as `""`.
- Each throw site is a constructor of `Commerce.Failure`. `Commerce.ExceptionOf`
  gives the exception class it throws. The step functions say which failure each
  guard, a decline and a transport error produce. A transport error on a void
  throws InvalidArgumentException, as the code does.
- The request merge is PHP array union: `$parameters + $defaultParameters`. Keys
  compare case-sensitively. A caller key `TENDER` therefore does not suppress the
  default `tender`, and the body then carries two `TENDER=` tokens. For this
  reason the round trip asks that the MERGED keys be distinct up to case.

Where the code departs from what a reader of the wire protocol would expect, the model follows the code:

- Decoding never fails. An empty body decodes to `{"" : NULL}`. A token without `=`
  decodes to its key with a NULL value. A token's value is the text between its
  first and second `=`; the rest is dropped.
- A refund sends only TRXTYPE and ORIGID beyond the defaults; no AMT is sent.
  A refund without an amount asks for the whole payment amount, not the remaining
  balance.
- A capture may capture any amount, even one above the authorized amount. The
  captured amount then replaces the payment amount.

## Model

| member | source | states |
|---|---|---|
| Catalog.StateNameInjective | src/PaymentState.php:9-21 | the seven payment states have distinct machine names |
| Catalog.TransactionTypeCodeInjective | src/PayflowTransactionType.php:9-29 | the eleven transaction types have distinct one-letter TRXTYPE codes |
| Catalog.TenderCodeInjective | src/PayflowTender.php:9-17 | the five tenders have distinct TENDER codes |
| Catalog.TransactionStateCodeInjective | src/PayflowTransactionState.php:9-39 | the sixteen remote transaction states have distinct numeric codes |
| Strings.Split | src/Plugin/Commerce/PaymentGateway/PayflowBase.php:250 | explode yields at least one piece, no piece holds the separator, and implode of the pieces gives back the input |
| Strings.SplitJoin | src/Plugin/Commerce/PaymentGateway/PayflowBase.php:246-250 | explode undoes implode when no piece holds the separator |
| PayflowBase.GetApiUrl | src/Plugin/Commerce/PaymentGateway/PayflowBase.php:169-171 | the pilot URL exactly when the mode is 'test', the production URL exactly for every other mode |
| PayflowBase.Setting | src/Plugin/Commerce/PaymentGateway/PayflowBase.php:176-199 | a credential reads as "" exactly when its setting is falsy, otherwise as the setting |
| PayflowBase.MergeOrder | src/Plugin/Commerce/PaymentGateway/PayflowBase.php:224-234 | the merged list starts with the caller's entries in their order; every later entry is a default whose key the caller lacks |
| PayflowBase.MergeKeepsUniqueKeys | src/Plugin/Commerce/PaymentGateway/PayflowBase.php:224-233 | like PHP's array union, merging the defaults into a list with unique keys gives a list with unique keys |
| PayflowBase.MergeCallerWins | src/Plugin/Commerce/PaymentGateway/PayflowBase.php:224-233 | a key the caller set keeps the caller's value in the merged list |
| PayflowBase.MergeFillsDefaults | src/Plugin/Commerce/PaymentGateway/PayflowBase.php:224-233 | a key the caller lacks takes its default value |
| PayflowBase.MergedHasDefaults | src/Plugin/Commerce/PaymentGateway/PayflowBase.php:225-231 | every merged list holds tender, partner, vendor, user and pwd, and tender is 'C' (credit card) unless the caller set it |
| PayflowBase.PrepareBody | src/Plugin/Commerce/PaymentGateway/PayflowBase.php:236-247 | the loop builds the body of the merged list: one UPPER(key)=value token per entry, in order, joined by '&' |
| PayflowBase.EncodeShape | src/Plugin/Commerce/PaymentGateway/PayflowBase.php:241-246 | for entries free of '&' and '=', splitting the body on '&' gives exactly one token per entry, in order |
| PayflowBase.PrepareResult | src/Plugin/Commerce/PaymentGateway/PayflowBase.php:249-262 | the loop builds the decoded map of the body, token by token, a later key overwriting an earlier one |
| PayflowBase.DecodedNames | src/Plugin/Commerce/PaymentGateway/PayflowBase.php:253-257 | the decoded keys are exactly the lower-cased keys of the tokens |
| PayflowBase.LastTokenWins | src/Plugin/Commerce/PaymentGateway/PayflowBase.php:253-257 | a key maps to the value of the last token carrying it |
| PayflowBase.TokenValueIsSecondField | src/Plugin/Commerce/PaymentGateway/PayflowBase.php:254-256 | a token's key is lower-cased and its value is the text between its first and second '='; the rest is dropped |
| PayflowBase.TokenWithoutSeparator | src/Plugin/Commerce/PaymentGateway/PayflowBase.php:254-256 | a token without '=' decodes to its lower-cased text with a NULL value |
| PayflowBase.DecodeEmptyBody | src/Plugin/Commerce/PaymentGateway/PayflowBase.php:250-257 | an empty body decodes to the empty key with a NULL value; decoding never fails |
| PayflowBase.RoundTrip | src/Plugin/Commerce/PaymentGateway/PayflowBase.php:241-257 | for a non-empty list free of '&' and '=' with keys distinct up to case, decoding its encoding maps each lower-cased key to its value and holds no other key |
| PayflowBase.PrepareRoundTrip | src/Plugin/Commerce/PaymentGateway/PayflowBase.php:236-262 | prepareResult inverts prepareBody on every merged request the wire format can carry |
| PayflowBase.ExecuteTransaction | src/Plugin/Commerce/PaymentGateway/PayflowBase.php:273-283 | the request posted goes to the endpoint of the mode and carries the encoded merged parameters |
| PayflowBase.GetExpirationDate | src/Plugin/Commerce/PaymentGateway/PayflowBase.php:210-214 | four digits: the two-digit month, then the last two digits of the year |
| PayflowBase.ValidatePayment | src/Plugin/Commerce/PaymentGateway/PayflowBase.php:297-329 | an absent state means new; a state mismatch is rejected first, then a missing payment method; the guard passes exactly when the state matches, a method is present, a new payment's method has not expired (now < expiry), and an authorization has not expired (now <= expiry) and has a non-empty remote id |
| PayflowBase.ValidateExpiryChecks | src/Plugin/Commerce/PaymentGateway/PayflowBase.php:312-327 | a new payment is rejected as expired exactly when now >= the method's expiry; an authorization is rejected as expired when its expiry < now, and otherwise for an empty remote id |
| PayflowSteps.AmountText | src/Plugin/Commerce/PaymentGateway/Payflow.php:47 | the AMT text is non-empty and made of digits, '-' and '.' |
| PayflowSteps.AmountTextValue | src/Plugin/Commerce/PaymentGateway/Payflow.php:47 | the AMT text, read as a signed decimal with at most two fraction digits, denotes exactly the amount in hundredths it was rendered from |
| PayflowSteps.AmountTextInjective | src/Plugin/Commerce/PaymentGateway/Payflow.php:89 | distinct amounts are sent as distinct AMT texts |
| PayflowSteps.AmountTextWireSafe | src/Plugin/Commerce/PaymentGateway/Payflow.php:47 | an amount never contains '&' or '=' |
| PayflowSteps.CreatePaymentStep | src/Plugin/Commerce/PaymentGateway/Payflow.php:41-75 | a request is sent exactly when the new-payment guard passes; it has trxtype 'S' for a sale and 'A' otherwise, and origid set to the method's remote id; a failed guard returns the guard's own failure, a transport error TransportFailed and a non-approved reply Declined with its result and message; only an approved reply succeeds; a failure changes nothing; on approval the whole new snapshot is given: the state is capture_completed (captured at now) or authorization (expiring now + 29 days), the test flag follows the mode, the remote id is pnref, the remote state is AUTHORIZATION_APPROVED, the authorized time is now, and every other field (amount, currency, refunded total, payment method, the unused timestamp) is unchanged |
| PayflowSteps.CapturePaymentStep | src/Plugin/Commerce/PaymentGateway/Payflow.php:80-106 | a request is sent exactly when the authorization guard passes; it has trxtype 'D', origid set to the remote id, and the given or whole amount; a failed guard returns the guard's own failure, a transport error TransportFailed and a non-approved reply Declined; on approval the state is capture_completed, the amount becomes the captured amount and the captured time is now; otherwise nothing changes |
| PayflowSteps.VoidPaymentStep | src/Plugin/Commerce/PaymentGateway/Payflow.php:111-136 | a request is sent exactly when the authorization guard passes; it has trxtype 'V' and origid set to the remote id; a failed guard returns the guard's own failure, a transport error TransportFailed and a non-approved reply Declined; on approval only the state changes, to authorization_voided; otherwise nothing changes |
| PayflowSteps.VoidRemoteIdCheckUnreachable | src/Plugin/Commerce/PaymentGateway/Payflow.php:114-118 | voidPayment's own empty-remote-id failure never happens |
| PayflowSteps.RefundPaymentStep | src/Plugin/Commerce/PaymentGateway/Payflow.php:143-188 | the guards run in order, each failure stated under the earlier guards' passing: NotRefundable, RefundWindowClosed, RefundExceedsBalance with the balance, MissingRemoteDetails; a request is sent exactly when all pass; the request is exactly trxtype 'C' and origid; a transport error gives TransportFailed and a non-approved reply Declined; on approval the refunded total grows by the refund and stays within the amount, and the state is capture_refunded exactly when the total reaches the amount and capture_partially_refunded exactly when it stays below it; otherwise nothing changes |
| PayflowSteps.WholeRefundAfterPartialRefused | src/Plugin/Commerce/PaymentGateway/Payflow.php:155-160 | after any partial refund, a refund without an amount is refused before any request is sent |
| PayflowSteps.RefundRequestIgnoresAmount | src/Plugin/Commerce/PaymentGateway/Payflow.php:166-172 | the credit request is the same whatever amount is refunded, and has no amt field |
| PayflowSteps.LastFour | src/Plugin/Commerce/PaymentGateway/Payflow.php:226-227 | the stored number is the last four characters of the card number, or the whole number when shorter |
| PayflowSteps.CreatePaymentMethodStep | src/Plugin/Commerce/PaymentGateway/Payflow.php:193-240 | the request has trxtype 'A', amount 0 and verbosity HIGH; it succeeds exactly on an APPROVED or FLAGGED_FOR_REVIEW result; a transport error gives TransportFailed and any other result Declined with its result and message; a failure stores nothing; on success the remote id is pnref, only the last four digits of the number are stored, and the card type, expiry month, expiry year and expiry time are stored |
| PayflowSteps.StoredCardIsSuffix | src/Plugin/Commerce/PaymentGateway/Payflow.php:198-227 | the whole number goes out as acct, and only its last four digits are kept |
| Commerce.ExceptionOf | src/Plugin/Commerce/PaymentGateway/Payflow.php:55-238 | a failure is a hard decline exactly when the payment method has expired or a charge or tokenization was declined or could not be sent; a declined capture, void or refund is a gateway error |
| PayflowSteps.CreateFailuresAreHardDeclines | src/Plugin/Commerce/PaymentGateway/Payflow.php:53-74 | once the new-payment guard has passed, every failure of a sale or authorization is a hard decline, and so is every failure of a tokenization |
| PayflowSteps.RefundFailureExceptions | src/Plugin/Commerce/PaymentGateway/Payflow.php:150-187 | a failed refund of a refundable payment is an invalid request, except a decline from the gateway, which is a gateway error |
| PayflowSteps.StepFollowsTransition | src/Plugin/Commerce/PaymentGateway/Payflow.php:41-188 | every operation either fails and changes nothing, or takes one edge: new to authorization or capture_completed, authorization to capture_completed or authorization_voided, a capture to capture_partially_refunded or capture_refunded |
| PayflowSteps.RunStaysReachable | src/Plugin/Commerce/PaymentGateway/Payflow.php:41-188 | over any sequence of operations the state only moves forward along those edges |
| PayflowSteps.RunNeverCompletes | src/PaymentState.php:21 | no sequence of operations ever enters the completed state |
| PayflowSteps.StepKeepsConsistent | src/Plugin/Commerce/PaymentGateway/Payflow.php:156-184 | each operation with a positive amount keeps the refunded total in line with the state and within the amount |
| PayflowSteps.RunKeepsConsistent | src/Plugin/Commerce/PaymentGateway/Payflow.php:143-188 | over any sequence of operations with positive amounts the refunded total stays consistent with the state and never exceeds the amount |
| PayflowSteps.AuthorizationHonoured | src/Plugin/Commerce/PaymentGateway/Payflow.php:58-70 | after an approved authorization at time t, the authorization guard passes up to t + 29 days, the last second included, and rejects it as expired after that |
| PayflowSteps.RefundWindowAfterSale | src/Plugin/Commerce/PaymentGateway/Payflow.php:151-153 | after an approved sale at time t, a refund is refused for the window exactly when it comes later than t + 180 days |
| PayflowSteps.TwoRefunds | src/Plugin/Commerce/PaymentGateway/Payflow.php:167-184 | two approved positive refunds within the amount both succeed; the payment is capture_refunded exactly when they add up to the amount, and capture_partially_refunded otherwise |
| Payflow.Payflow.CreatePayment | src/Plugin/Commerce/PaymentGateway/Payflow.php:41-75 | updates the payment in place to the snapshot CreatePaymentStep gives, returns its outcome, and posts its request (nothing when a guard fails) |
| Payflow.Payflow.CapturePayment | src/Plugin/Commerce/PaymentGateway/Payflow.php:80-106 | updates the payment in place as CapturePaymentStep gives, with its outcome and request |
| Payflow.Payflow.VoidPayment | src/Plugin/Commerce/PaymentGateway/Payflow.php:111-136 | updates the payment in place as VoidPaymentStep gives, with its outcome and request |
| Payflow.Payflow.RefundPayment | src/Plugin/Commerce/PaymentGateway/Payflow.php:143-188 | updates the payment in place as RefundPaymentStep gives, with its outcome and request |
| Payflow.Payflow.CreatePaymentMethod | src/Plugin/Commerce/PaymentGateway/Payflow.php:193-240 | updates the payment method in place as CreatePaymentMethodStep gives, with its outcome and the request it posts |

## Left out

- The HTTP exchange is left out: the Guzzle POST, its Content-Type and Content-Length headers and its unbounded timeout. Each method returns the request it would post (URL and body), and the reply is an input.
- The text of exception messages is left out. Each throw site is a distinct `Failure` constructor; a decline carries the result code and RESPMSG.
- The mapping from the raw RESULT text to `ResultCode` is left out. The file that defines PayflowResultCode is not part of this model, so PHP's loose comparison of that text with the constants is not modelled.
- The decoded map is unordered. PHP keeps the insertion order of the result array, which no caller reads.
- The plugin plumbing is left out: the constructor, the factory, defaultConfiguration and the configuration form. This is framework and UI code.
- The `dpm()` debug output is left out.
- Entity persistence is left out: `save()`, `delete()` and `deletePaymentMethod`.
- The billing-profile and address lookups are left out. Their results are the `Billing` input.
- `CreditCard::calculateExpirationTimestamp` is left out; it is a foreign library. The expiry timestamp is an input of CreatePaymentMethod.
- The payment's `setTest` flag is kept, but the `PaymentGatewayMode` constants are not. Test mode is the string 'test'.
- Floating-point amounts are left out. `round($x, 2)` and float printing are replaced by integer hundredths of the currency unit. PHP prints floats with 14 significant digits: from 10^14 hundredths on it drops the cents, and from 10^16 hundredths on it uses exponent form. Such amounts are not modelled.
- Amounts finer than a hundredth of the currency unit are left out. For a three-decimal currency such as BHD or KWD, the code rounds the amount to two decimals, and the model cannot hold the third decimal. An amount in a zero-decimal currency such as JPY is held in hundredths too, so 1000 yen is 100000 and is sent as `1000`.
- Prices in another currency than the payment's are left out. Commerce would throw a currency mismatch there.
- PayflowBase.GetExpirationDate: requires a month in 1-12 and a four-digit year, as the card form supplies. What `strtotime` does with other input is not modelled.
- PayflowSteps.RefundWindowAfterSale: `strtotime('-180 days')` is taken as now minus 180 × 86400 seconds, ignoring daylight-saving shifts.
- PayflowSteps.StepKeepsConsistent: requires capture and refund amounts to be positive. The code itself accepts any amount.
- PayflowSteps.RunKeepsConsistent: requires capture and refund amounts to be positive, as StepKeepsConsistent does.
