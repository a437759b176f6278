/** The demo server's `/api/create-payment-intent` handler: validate the
    amount, then fall back to "not configured" or mock mode when there is no
    processor client, otherwise ask the processor. */
module ServerRoute {
  import opened Common
  import opened PaymentIntent

  /** The handler as a function of the body's `amount`, whether a processor
      client exists, the mock flag, the processor's answer and `Date.now()`. */
  function Handle(amount: JsVal, configured: bool, mock: bool, outcome: ProcessorOutcome, now: nat): (x: Exchange)
    // validation comes first: an invalid amount is a 400 whatever the configuration
    ensures x.response.status == 400 <==> !AmountPasses(amount)
    ensures !AmountPasses(amount) ==> x == InvalidAmount
    // the processor is asked exactly when the amount passes and a client exists, for that amount unchanged
    ensures x.call.Some? <==> AmountPasses(amount) && configured
    ensures x.call.Some? ==> x.call.value == IntentRequest(amount.value, "usd", true)
    // no client and no mock: a 500 that names the missing key
    ensures AmountPasses(amount) && !configured && !mock ==> x == NotConfigured
    // only mock mode produces a `mock` field, and then it is true with a placeholder secret
    ensures x.response.body.SecretBody? && x.response.body.mock.Some? <==> AmountPasses(amount) && !configured && mock
    ensures AmountPasses(amount) && !configured && mock ==>
              x.response == Response(200, SecretBody(MockSecret(now), Some(true)))
    // with a client, processor failures are 500s carrying the processor's message
    ensures AmountPasses(amount) && configured && outcome.Failed? ==>
              x.response == Response(500, ErrorBody(ErrorPrefix + outcome.message))
    ensures AmountPasses(amount) && configured && outcome.Created? ==>
              x.response == Response(200, SecretBody(outcome.clientSecret, None))
  {
    if !AmountPasses(amount) then InvalidAmount
    else if !configured then
      if !mock then NotConfigured
      else Exchange(Response(200, SecretBody(MockSecret(now), Some(true))), None)
    else CreateIntent(amount.value, outcome)
  }

  /** The handler as deployed: the client exists when `STRIPE_SECRET_KEY` is set
      and non-empty, and mock mode when `STRIPE_MOCK` is "true". */
  function HandleWithEnv(amount: JsVal, secretKey: Option<string>, mockFlag: Option<string>,
                         outcome: ProcessorOutcome, now: nat): (x: Exchange)
    // a key that is set and non-empty means the processor is asked, whatever the mock flag
    ensures secretKey.Some? && secretKey.value != "" ==> (x.call.Some? <==> AmountPasses(amount))
    // a missing or empty key: the processor is never asked, and only the exact
    // string "true" turns mock mode on
    ensures secretKey.None? || secretKey == Some("") ==> x.call.None?
    ensures AmountPasses(amount) && (secretKey.None? || secretKey == Some("")) ==>
              (x.response.body.SecretBody? <==> mockFlag == Some("true"))
    ensures AmountPasses(amount) && (secretKey.None? || secretKey == Some("")) && mockFlag != Some("true") ==>
              x == NotConfigured
  {
    Handle(amount, StripeConfigured(secretKey), MockEnabled(mockFlag), outcome, now)
  }

  /** Zero, NaN, a missing amount and any non-number are rejected; negative and
      fractional numbers get through to the next check. */
  lemma TruthinessCheck(outcome: ProcessorOutcome, now: nat)
    ensures Handle(Num(0.0), true, true, outcome, now).response.status == 400
    ensures Handle(NaN, true, true, outcome, now).response.status == 400
    ensures Handle(Absent, true, true, outcome, now).response.status == 400
    ensures Handle(NonNumber, true, true, outcome, now).response.status == 400
    ensures Handle(Num(-5.0), true, false, outcome, now).call == Some(IntentRequest(-5.0, "usd", true))
    ensures Handle(Num(0.5), false, true, outcome, now).response.status == 200
  {
  }

  /** With a client configured, the mock flag and the clock make no difference. */
  lemma ConfiguredIgnoresMock(amount: JsVal, outcome: ProcessorOutcome, now1: nat, now2: nat)
    ensures Handle(amount, true, true, outcome, now1) == Handle(amount, true, false, outcome, now2)
  {
  }

  /** A string value for `STRIPE_MOCK` other than "true" leaves mock mode off. */
  lemma MockFlagExact(amount: JsVal, flag: string, outcome: ProcessorOutcome, now: nat)
    requires AmountPasses(amount) && flag != "true"
    ensures HandleWithEnv(amount, None, Some(flag), outcome, now) == NotConfigured
    ensures HandleWithEnv(amount, Some(""), Some(flag), outcome, now) == NotConfigured
  {
  }

  /** Scenario: a $100.00 charge with a client whose processor returns `sk_test_123`. */
  lemma HundredDollarScenario(mock: bool, now: nat)
    ensures Handle(Num(10000.0), true, mock, Created("sk_test_123"), now)
         == Exchange(Response(200, SecretBody("sk_test_123", None)), Some(IntentRequest(10000.0, "usd", true)))
  {
  }
}
