/**
 * The shared part of the Payflow gateway: its configuration, the merge of
 * default credential fields into a request, the name-value wire codec, the
 * endpoint choice, the card expiry format and the payment guard run before
 * each transaction.
 */
module PayflowBase {
  import opened Wrappers
  import opened Strings
  import opened Catalog
  import opened Commerce

  const PaypalApiTestUrl := "https://pilot-payflowpro.paypal.com"
  const PaypalApiUrl := "https://payflowpro.paypal.com"

  /** The operating mode under which requests go to the pilot endpoint. */
  const TestMode := "test"

  /** The gateway settings an administrator enters. */
  datatype Configuration = Configuration(
    partner: string,
    vendor: string,
    user: string,
    password: string,
    mode: string)

  /** The endpoint for a mode: the pilot server in test mode, production otherwise. */
  function GetApiUrl(mode: string): (url: string)
    ensures url == PaypalApiTestUrl <==> mode == TestMode
    ensures url == PaypalApiUrl <==> mode != TestMode
  {
    if mode == TestMode then PaypalApiTestUrl else PaypalApiUrl
  }

  /** A setting read with `?: ''`: a falsy setting reads as "". */
  function Setting(value: string): (r: string)
    ensures r == "" <==> Falsy(value)
    ensures r != "" ==> r == value
  {
    if Falsy(value) then "" else value
  }

  // ---------------------------------------------------------------------
  // Request parameters: an ordered list of (field, value) pairs, as a PHP
  // array with string keys.

  type Params = seq<(string, string)>

  predicate HasKey(p: Params, k: string) {
    exists i :: 0 <= i < |p| && p[i].0 == k
  }

  /** The value stored under k (the first entry with that key). */
  function Lookup(p: Params, k: string): Option<string> {
    if |p| == 0 then None
    else if p[0].0 == k then Some(p[0].1)
    else Lookup(p[1..], k)
  }

  lemma {:induction false} LookupFindsKey(p: Params, k: string)
    ensures Lookup(p, k).Some? <==> HasKey(p, k)
  {
    if |p| > 0 {
      LookupFindsKey(p[1..], k);
      if p[0].0 != k && HasKey(p, k) {
        var i :| 0 <= i < |p| && p[i].0 == k;
        assert p[1..][i - 1].0 == k;
      }
    }
  }

  lemma {:induction false} LookupAppend(p: Params, q: Params, k: string)
    ensures Lookup(p + q, k) == if HasKey(p, k) then Lookup(p, k) else Lookup(q, k)
  {
    LookupFindsKey(p, k);
    if |p| > 0 {
      assert (p + q)[0] == p[0];
      if p[0].0 == k {
        assert HasKey(p, k);
      } else {
        assert (p + q)[1..] == p[1..] + q;
        LookupAppend(p[1..], q, k);
        LookupFindsKey(p[1..], k);
      }
    } else {
      assert p + q == q;
    }
  }

  /** The entries of defaults whose key the given parameters lack. */
  function Missing(defaults: Params, given: Params): Params {
    if |defaults| == 0 then []
    else (if HasKey(given, defaults[0].0) then [] else [defaults[0]]) + Missing(defaults[1..], given)
  }

  lemma {:induction false} LookupMissing(defaults: Params, given: Params, k: string)
    ensures Lookup(Missing(defaults, given), k) == if HasKey(given, k) then None else Lookup(defaults, k)
  {
    if |defaults| > 0 {
      LookupMissing(defaults[1..], given, k);
      var head := if HasKey(given, defaults[0].0) then [] else [defaults[0]];
      LookupAppend(head, Missing(defaults[1..], given), k);
    }
  }

  lemma {:induction false} MissingEntries(defaults: Params, given: Params)
    ensures forall j | 0 <= j < |Missing(defaults, given)| ::
      !HasKey(given, Missing(defaults, given)[j].0) && Missing(defaults, given)[j] in defaults
  {
    if |defaults| > 0 {
      MissingEntries(defaults[1..], given);
    }
  }

  /** No key occurs twice, as in a PHP array. */
  predicate UniqueKeys(p: Params) {
    forall i, j | 0 <= i < j < |p| :: p[i].0 != p[j].0
  }

  lemma {:induction false} MissingUniqueKeys(defaults: Params, given: Params)
    requires UniqueKeys(defaults)
    ensures UniqueKeys(Missing(defaults, given))
  {
    if |defaults| > 0 {
      var rest := Missing(defaults[1..], given);
      MissingUniqueKeys(defaults[1..], given);
      MissingEntries(defaults[1..], given);
      forall j | 0 <= j < |rest|
        ensures rest[j].0 != defaults[0].0
      {
        var k :| 0 <= k < |defaults[1..]| && defaults[1..][k] == rest[j];
        assert defaults[k + 1] == rest[j];
      }
      var head := if HasKey(given, defaults[0].0) then [] else [defaults[0]];
      var all := head + rest;
      forall i, j | 0 <= i < j < |all|
        ensures all[i].0 != all[j].0
      {
        if |head| == 1 && i == 0 {
          assert all[j] == rest[j - 1];
        } else {
          assert all[i] == rest[i - |head|] && all[j] == rest[j - |head|];
        }
      }
    }
  }

  /** The credential and tender fields every request carries unless the caller set them. */
  function DefaultParameters(configuration: Configuration): Params {
    [("tender", [TenderCode(CreditCard)]),
     ("partner", Setting(configuration.partner)),
     ("vendor", Setting(configuration.vendor)),
     ("user", Setting(configuration.user)),
     ("pwd", Setting(configuration.password))]
  }

  const DefaultKeys: seq<string> := ["tender", "partner", "vendor", "user", "pwd"]

  /** PHP's `$parameters + $defaultParameters`. */
  function GetParameters(configuration: Configuration, parameters: Params): Params {
    parameters + Missing(DefaultParameters(configuration), parameters)
  }

  /** The caller's entries come first, in their order; after them come only defaults whose key the caller lacks. */
  lemma MergeOrder(configuration: Configuration, parameters: Params)
    ensures |GetParameters(configuration, parameters)| >= |parameters|
    ensures GetParameters(configuration, parameters)[..|parameters|] == parameters
    ensures forall j | |parameters| <= j < |GetParameters(configuration, parameters)| ::
      !HasKey(parameters, GetParameters(configuration, parameters)[j].0)
      && GetParameters(configuration, parameters)[j] in DefaultParameters(configuration)
  {
    var defaults := DefaultParameters(configuration);
    var merged := GetParameters(configuration, parameters);
    MissingEntries(defaults, parameters);
    forall j | |parameters| <= j < |merged|
      ensures !HasKey(parameters, merged[j].0) && merged[j] in defaults
    {
      assert merged[j] == Missing(defaults, parameters)[j - |parameters|];
    }
  }

  /** Like PHP's array union, the merge keeps keys unique. */
  lemma MergeKeepsUniqueKeys(configuration: Configuration, parameters: Params)
    requires UniqueKeys(parameters)
    ensures UniqueKeys(GetParameters(configuration, parameters))
  {
    var defaults := DefaultParameters(configuration);
    var extra := Missing(defaults, parameters);
    var merged := GetParameters(configuration, parameters);
    MissingUniqueKeys(defaults, parameters);
    MissingEntries(defaults, parameters);
    forall i, j | 0 <= i < j < |merged|
      ensures merged[i].0 != merged[j].0
    {
      if j >= |parameters| {
        assert merged[j] == extra[j - |parameters|];
        if i < |parameters| {
          assert merged[i] == parameters[i];
          assert !HasKey(parameters, extra[j - |parameters|].0);
        } else {
          assert merged[i] == extra[i - |parameters|];
        }
      }
    }
  }

  /** A key the caller set keeps the caller's value: a default never overrides it. */
  lemma MergeCallerWins(configuration: Configuration, parameters: Params, k: string)
    requires HasKey(parameters, k)
    ensures Lookup(GetParameters(configuration, parameters), k) == Lookup(parameters, k)
  {
    LookupAppend(parameters, Missing(DefaultParameters(configuration), parameters), k);
  }

  /** A key the caller lacks takes its default value. */
  lemma MergeFillsDefaults(configuration: Configuration, parameters: Params, k: string)
    requires !HasKey(parameters, k)
    ensures Lookup(GetParameters(configuration, parameters), k) == Lookup(DefaultParameters(configuration), k)
  {
    var defaults := DefaultParameters(configuration);
    LookupAppend(parameters, Missing(defaults, parameters), k);
    LookupMissing(defaults, parameters, k);
  }

  /** Every merged request carries all five default keys, and the tender is credit card unless the caller chose one. */
  lemma MergedHasDefaults(configuration: Configuration, parameters: Params)
    ensures forall i | 0 <= i < |DefaultKeys| :: HasKey(GetParameters(configuration, parameters), DefaultKeys[i])
    ensures !HasKey(parameters, "tender") ==> Lookup(GetParameters(configuration, parameters), "tender") == Some("C")
  {
    var defaults := DefaultParameters(configuration);
    var merged := GetParameters(configuration, parameters);
    forall i | 0 <= i < |DefaultKeys|
      ensures HasKey(merged, DefaultKeys[i])
    {
      var k := DefaultKeys[i];
      assert defaults[i].0 == k;
      LookupFindsKey(defaults, k);
      LookupAppend(parameters, Missing(defaults, parameters), k);
      LookupMissing(defaults, parameters, k);
      LookupFindsKey(parameters, k);
      LookupFindsKey(merged, k);
    }
    LookupAppend(parameters, Missing(defaults, parameters), "tender");
    LookupMissing(defaults, parameters, "tender");
  }

  // ---------------------------------------------------------------------
  // Encoding: UPPER(key)=value tokens joined by '&'.

  function Token(entry: (string, string)): string {
    Upper(entry.0) + "=" + entry.1
  }

  function Tokens(p: Params): seq<string> {
    seq(|p|, i requires 0 <= i < |p| => Token(p[i]))
  }

  function Encode(p: Params): string {
    Join(Tokens(p), '&')
  }

  /** prepareBody: merge the defaults in, then encode the merged list in order. */
  method PrepareBody(configuration: Configuration, parameters: Params) returns (body: string)
    ensures body == Encode(GetParameters(configuration, parameters))
  {
    var merged := GetParameters(configuration, parameters);
    var values: seq<string> := [];
    for i := 0 to |merged|
      invariant |values| == i
      invariant forall j | 0 <= j < i :: values[j] == Token(merged[j])
    {
      var (key, value) := merged[i];
      values := values + [Upper(key) + "=" + value];
    }
    assert values == Tokens(merged);
    body := Join(values, '&');
  }

  /** A list the wire format can carry: no '&' or '=' in any key or value. */
  predicate WireSafe(p: Params) {
    forall i | 0 <= i < |p| ::
      '&' !in p[i].0 && '=' !in p[i].0 && '&' !in p[i].1 && '=' !in p[i].1
  }

  /** No two keys collide once lower-cased. */
  predicate DistinctUpToCase(p: Params) {
    forall i, j | 0 <= i < j < |p| :: Lower(p[i].0) != Lower(p[j].0)
  }

  // ---------------------------------------------------------------------
  // Decoding: split on '&', then each token on '='; keys are lower-cased.

  /** A decoded response: a token without '=' decodes to no value (NULL). */
  type Decoded = map<string, Option<string>>

  /** The key of a token: the text before its first '=', lower-cased. */
  function FieldName(token: string): string {
    Lower(Split(token, '=')[0])
  }

  /** The value of a token: the text between its first and second '='. */
  function FieldValue(token: string): Option<string> {
    var fields := Split(token, '=');
    if |fields| >= 2 then Some(fields[1]) else None
  }

  /** The tokens stored in order, a later key overwriting an earlier one. */
  function DecodeTokens(tokens: seq<string>): Decoded {
    if |tokens| == 0 then map[]
    else DecodeTokens(tokens[..|tokens| - 1])[FieldName(tokens[|tokens| - 1]) := FieldValue(tokens[|tokens| - 1])]
  }

  function Decode(body: string): Decoded {
    DecodeTokens(Split(body, '&'))
  }

  /** prepareResult. */
  method PrepareResult(body: string) returns (result: Decoded)
    ensures result == Decode(body)
  {
    var responseParts := Split(body, '&');
    result := map[];
    for i := 0 to |responseParts|
      invariant result == DecodeTokens(responseParts[..i])
    {
      var bodyPart := responseParts[i];
      var fields := Split(bodyPart, '=');
      var key := fields[0];
      var value := if |fields| >= 2 then Some(fields[1]) else None;
      result := result[Lower(key) := value];
      assert responseParts[..i + 1][..i] == responseParts[..i];
    }
    assert responseParts[..|responseParts|] == responseParts;
  }

  /** The decoded keys are exactly the lower-cased keys of the tokens. */
  lemma {:induction false} DecodedNames(tokens: seq<string>)
    ensures DecodeTokens(tokens).Keys == set i | 0 <= i < |tokens| :: FieldName(tokens[i])
  {
    if |tokens| > 0 {
      var init := tokens[..|tokens| - 1];
      DecodedNames(init);
      var whole := set i | 0 <= i < |tokens| :: FieldName(tokens[i]);
      var front := set i | 0 <= i < |init| :: FieldName(init[i]);
      assert whole == front + {FieldName(tokens[|tokens| - 1])} by {
        forall k | k in whole ensures k in front + {FieldName(tokens[|tokens| - 1])} {
          var i :| 0 <= i < |tokens| && FieldName(tokens[i]) == k;
          if i < |init| {
            assert FieldName(init[i]) == k;
          }
        }
        forall k | k in front ensures k in whole {
          var i :| 0 <= i < |init| && FieldName(init[i]) == k;
          assert FieldName(tokens[i]) == k;
        }
      }
    }
  }

  /** A key takes the value of its last token. */
  lemma {:induction false} LastTokenWins(tokens: seq<string>, j: int)
    requires 0 <= j < |tokens|
    requires forall i | j < i < |tokens| :: FieldName(tokens[i]) != FieldName(tokens[j])
    ensures FieldName(tokens[j]) in DecodeTokens(tokens)
    ensures DecodeTokens(tokens)[FieldName(tokens[j])] == FieldValue(tokens[j])
  {
    if j < |tokens| - 1 {
      var init := tokens[..|tokens| - 1];
      assert init[j] == tokens[j];
      LastTokenWins(init, j);
    }
  }

  /** A token's value stops at its second '=': what follows is dropped. */
  lemma TokenValueIsSecondField(a: string, b: string, rest: string)
    requires '=' !in a && '=' !in b
    ensures FieldName(a + "=" + b + "=" + rest) == Lower(a)
    ensures FieldValue(a + "=" + b + "=" + rest) == Some(b)
  {
    assert a + "=" + b + "=" + rest == a + ['='] + (b + ['='] + rest);
    SplitAfterPiece(a, b + ['='] + rest, '=');
    SplitAfterPiece(b, rest, '=');
  }

  /** A token without '=' is a key with no value. */
  lemma TokenWithoutSeparator(token: string)
    requires '=' !in token
    ensures FieldName(token) == Lower(token) && FieldValue(token) == None
  {
    SplitWithoutSeparator(token, '=');
  }

  /** An empty body decodes to the empty key with no value; decoding never fails. */
  lemma DecodeEmptyBody()
    ensures Decode("") == map["" := None]
  {
    assert Split("", '&') == [""];
    assert Split("", '=') == [""];
    assert Lower("") == "";
  }

  lemma TokenFields(entry: (string, string))
    requires '&' !in entry.0 && '=' !in entry.0 && '&' !in entry.1 && '=' !in entry.1
    ensures '&' !in Token(entry)
    ensures FieldName(Token(entry)) == Lower(entry.0)
    ensures FieldValue(Token(entry)) == Some(entry.1)
  {
    UpperKeepsOut(entry.0, '=');
    UpperKeepsOut(entry.0, '&');
    SplitAfterPiece(Upper(entry.0), entry.1, '=');
    SplitWithoutSeparator(entry.1, '=');
    LowerOfUpper(entry.0);
  }

  /** The body is exactly one UPPER(key)=value token per entry, in order. */
  lemma EncodeShape(p: Params)
    requires |p| > 0 && WireSafe(p)
    ensures Split(Encode(p), '&') == Tokens(p)
    ensures |Split(Encode(p), '&')| == |p|
  {
    forall i | 0 <= i < |p| ensures '&' !in Tokens(p)[i] {
      TokenFields(p[i]);
    }
    SplitJoin(Tokens(p), '&');
  }

  /** Decoding an encoded list maps each lower-cased key to its value and holds nothing else. */
  lemma RoundTrip(p: Params)
    requires |p| > 0 && WireSafe(p) && DistinctUpToCase(p)
    ensures Decode(Encode(p)).Keys == set i | 0 <= i < |p| :: Lower(p[i].0)
    ensures forall i | 0 <= i < |p| ::
      Lower(p[i].0) in Decode(Encode(p)) && Decode(Encode(p))[Lower(p[i].0)] == Some(p[i].1)
  {
    var tokens := Tokens(p);
    EncodeShape(p);
    forall i | 0 <= i < |p| ensures FieldName(tokens[i]) == Lower(p[i].0) && FieldValue(tokens[i]) == Some(p[i].1) {
      TokenFields(p[i]);
    }
    DecodedNames(tokens);
    assert (set i | 0 <= i < |tokens| :: FieldName(tokens[i])) == set i | 0 <= i < |p| :: Lower(p[i].0);
    forall i | 0 <= i < |p|
      ensures Lower(p[i].0) in Decode(Encode(p)) && Decode(Encode(p))[Lower(p[i].0)] == Some(p[i].1)
    {
      LastTokenWins(tokens, i);
    }
  }

  /** prepareResult inverts prepareBody on every merged request the wire format can carry. */
  lemma PrepareRoundTrip(configuration: Configuration, parameters: Params)
    requires WireSafe(GetParameters(configuration, parameters))
    requires DistinctUpToCase(GetParameters(configuration, parameters))
    ensures var merged := GetParameters(configuration, parameters);
      && Decode(Encode(merged)).Keys == (set i | 0 <= i < |merged| :: Lower(merged[i].0))
      && forall i | 0 <= i < |merged| :: Decode(Encode(merged))[Lower(merged[i].0)] == Some(merged[i].1)
  {
    var merged := GetParameters(configuration, parameters);
    MergedHasDefaults(configuration, parameters);
    assert HasKey(merged, DefaultKeys[0]);
    RoundTrip(merged);
  }

  /** One request as it leaves the gateway: the endpoint and the encoded body. */
  datatype Post = Post(url: string, body: string)

  /** The request sent for the given caller parameters, if any is sent at all. */
  function Transmitted(configuration: Configuration, request: Option<Params>): Option<Post> {
    match request
    case None => None
    case Some(p) => Some(Post(GetApiUrl(configuration.mode), Encode(GetParameters(configuration, p))))
  }

  /** executeTransaction up to the HTTP call: the request it posts. */
  method ExecuteTransaction(configuration: Configuration, parameters: Params) returns (post: Post)
    ensures Transmitted(configuration, Some(parameters)) == Some(post)
  {
    var body := PrepareBody(configuration, parameters);
    post := Post(GetApiUrl(configuration.mode), body);
  }

  // ---------------------------------------------------------------------
  // Card expiry and the payment guard.

  /** The EXPDATE field: two-digit month then two-digit year. */
  function GetExpirationDate(month: int, year: int): (mmyy: string)
    requires 1 <= month <= 12 && 1000 <= year <= 9999
    ensures |mmyy| == 4 && forall i | 0 <= i < 4 :: IsDigit(mmyy[i])
    ensures DigitValue(mmyy[0]) * 10 + DigitValue(mmyy[1]) == month
    ensures DigitValue(mmyy[2]) * 10 + DigitValue(mmyy[3]) == year % 100
  {
    [Digit(month / 10), Digit(month % 10), Digit(year % 100 / 10), Digit(year % 10)]
  }

  /**
   * validatePayment: the state guard (an absent state means new), the
   * payment-method guard, then the checks of the required state.
   */
  function ValidatePayment(payment: PaymentData, paymentState: Option<PaymentState>, now: int): (r: Outcome<Failure>)
    ensures var required := if paymentState.None? then New else paymentState.value;
      && (payment.state != required ==> r == Fail(InvalidPaymentState))
      && (payment.state == required && payment.paymentMethod.None? ==> r == Fail(MissingPaymentMethod))
      && (r.Pass? <==>
            && payment.state == required
            && payment.paymentMethod.Some?
            && (required == New ==> now < payment.paymentMethod.value.expires)
            && (required == PaymentState.Authorization ==> now <= payment.authorizationExpires && !Falsy(payment.remoteId)))
  {
    var required := if paymentState.None? then New else paymentState.value;
    if payment.state != required then Fail(InvalidPaymentState)
    else if payment.paymentMethod.None? then Fail(MissingPaymentMethod)
    else match required
      case New =>
        if now >= payment.paymentMethod.value.expires then Fail(PaymentMethodExpired) else Pass
      case Authorization =>
        if payment.authorizationExpires < now then Fail(AuthorizationExpired)
        else if Falsy(payment.remoteId) then Fail(MissingTransactionId)
        else Pass
      case _ => Pass
  }

  /** Which guard rejects: expiry is checked before the remote id, equality of times being on the valid side for authorizations only. */
  lemma ValidateExpiryChecks(payment: PaymentData, now: int)
    requires payment.paymentMethod.Some?
    ensures payment.state == New ==>
      (ValidatePayment(payment, None, now) == Fail(PaymentMethodExpired) <==> now >= payment.paymentMethod.value.expires)
    ensures payment.state == PaymentState.Authorization ==>
      && (payment.authorizationExpires < now ==> ValidatePayment(payment, Some(PaymentState.Authorization), now) == Fail(AuthorizationExpired))
      && (payment.authorizationExpires >= now && Falsy(payment.remoteId) ==>
            ValidatePayment(payment, Some(PaymentState.Authorization), now) == Fail(MissingTransactionId))
  {
  }
}
