/** Vocabulary shared by both `/api/create-payment-intent` handlers: the JSON
    `amount` as the handler sees it, the processor request and outcome, and the
    HTTP response. The processor (`stripe.paymentIntents.create`) is an
    abstract outcome supplied by the caller; a handler reports the request it
    would have sent, so "no processor call" is observable. */
module PaymentIntent {
  import opened Common

  /** The `amount` field of the request body, as far as the handler's check can tell. */
  datatype JsVal =
    | Absent          // key missing: `undefined`
    | NonNumber       // a string, boolean, object, array or null
    | NaN
    | Num(value: real) // a finite number; zero, negative and fractional included

  /** `!amount || typeof amount !== 'number'` is false: the value is a number other than 0 and NaN. */
  function AmountPasses(a: JsVal): (ok: bool)
    // anything that is not a number fails, truthy strings and objects included
    ensures !a.Num? ==> !ok
    // zero is the one number rejected; negative and fractional amounts pass
    ensures a.Num? ==> (ok <==> a.value != 0.0)
    ensures a.Num? && a.value < 0.0 ==> ok
    ensures a == Num(0.5) ==> ok
  {
    a.Num? && a.value != 0.0
  }

  datatype IntentRequest = IntentRequest(amount: real, currency: string, automaticPaymentMethods: bool)

  /** What the payment processor answers, when it is asked. */
  datatype ProcessorOutcome = Created(clientSecret: string) | Failed(message: string)

  datatype Body =
    | ErrorBody(message: string)
    | SecretBody(clientSecret: string, mock: Option<bool>)

  datatype Response = Response(status: int, body: Body)

  /** One request/response exchange and the processor call it made, if any. */
  datatype Exchange = Exchange(response: Response, call: Option<IntentRequest>)

  const InvalidAmountMessage := "Invalid amount. Please provide a valid number."
  const NotConfiguredMessage := "Stripe is not configured. Please set STRIPE_SECRET_KEY environment variable."
  const ErrorPrefix := "Error creating payment intent: "
  const MockSecretPrefix := "pi_mock_secret_"
  const Currency := "usd"

  const InvalidAmount := Exchange(Response(400, ErrorBody(InvalidAmountMessage)), None)
  const NotConfigured := Exchange(Response(500, ErrorBody(NotConfiguredMessage)), None)

  /** `STRIPE_SECRET_KEY` makes a client only when it is set and non-empty. */
  predicate StripeConfigured(secretKey: Option<string>) {
    secretKey.Some? && secretKey.value != ""
  }

  /** Mock mode is on only for `STRIPE_MOCK` exactly equal to "true". */
  predicate MockEnabled(flag: Option<string>) {
    flag == Some("true")
  }

  /** The processor branch both handlers share: create an intent for the amount
      as given, in dollars, with automatic payment methods, and map the outcome. */
  function CreateIntent(amount: real, outcome: ProcessorOutcome): (x: Exchange)
    ensures x.call == Some(IntentRequest(amount, Currency, true))
    ensures outcome.Created? ==> x.response == Response(200, SecretBody(outcome.clientSecret, None))
    ensures outcome.Failed? ==> x.response == Response(500, ErrorBody(ErrorPrefix + outcome.message))
  {
    var request := IntentRequest(amount, Currency, true);
    match outcome
    case Created(secret) => Exchange(Response(200, SecretBody(secret, None)), Some(request))
    case Failed(message) => Exchange(Response(500, ErrorBody(ErrorPrefix + message)), Some(request))
  }

  /** The placeholder secret of mock mode, `pi_mock_secret_${Date.now()}`. */
  function MockSecret(now: nat): string {
    MockSecretPrefix + DecimalString(now)
  }

  /** A mock secret is the prefix followed by a non-empty run of digits that reads back as `now`;
      different instants give different secrets. */
  lemma MockSecretShape(now: nat, later: nat)
    ensures |MockSecret(now)| > |MockSecretPrefix|
    ensures MockSecret(now)[..|MockSecretPrefix|] == MockSecretPrefix
    ensures AllDigits(MockSecret(now)[|MockSecretPrefix|..])
    ensures DecimalValue(MockSecret(now)[|MockSecretPrefix|..]) == now
    ensures now != later ==> MockSecret(now) != MockSecret(later)
  {
    var digits := DecimalString(now);
    assert MockSecret(now)[|MockSecretPrefix|..] == digits;
    DecimalRoundTrip(now);
    if now != later && MockSecret(now) == MockSecret(later) {
      assert MockSecret(later)[|MockSecretPrefix|..] == DecimalString(later);
      DecimalStringInjective(now, later);
    }
  }
}
