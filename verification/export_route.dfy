/** The export copy of `/api/create-payment-intent`: it checks for a processor
    client before looking at the amount and has no mock mode. */
module ExportRoute {
  import opened Common
  import opened PaymentIntent
  import ServerRoute

  function Handle(amount: JsVal, configured: bool, outcome: ProcessorOutcome): (x: Exchange)
    // configuration first: without a client every request is the same 500, however bad the amount
    ensures !configured ==> x == NotConfigured
    ensures configured ==> (x.response.status == 400 <==> !AmountPasses(amount))
    ensures configured && !AmountPasses(amount) ==> x == InvalidAmount
    // the processor is asked exactly when both checks pass, for the amount unchanged
    ensures x.call.Some? <==> configured && AmountPasses(amount)
    ensures x.call.Some? ==> x.call.value == IntentRequest(amount.value, "usd", true)
    // a success never carries a `mock` field
    ensures x.response.body.SecretBody? ==>
              && x.response.body.mock.None?
              && outcome.Created?
              && x.response.body.clientSecret == outcome.clientSecret
    ensures configured && AmountPasses(amount) && outcome.Failed? ==>
              x.response == Response(500, ErrorBody(ErrorPrefix + outcome.message))
    ensures configured && AmountPasses(amount) && outcome.Created? ==>
              x.response == Response(200, SecretBody(outcome.clientSecret, None))
  {
    if !configured then NotConfigured
    else if !AmountPasses(amount) then InvalidAmount
    else CreateIntent(amount.value, outcome)
  }

  /** With a client configured the two handlers agree on every input, whatever
      the demo server's mock flag and clock say. */
  lemma AgreesWithServerWhenConfigured(amount: JsVal, outcome: ProcessorOutcome, mock: bool, now: nat)
    ensures Handle(amount, true, outcome) == ServerRoute.Handle(amount, true, mock, outcome, now)
  {
  }

  /** Without a client they disagree exactly on invalid amounts (400 against 500)
      and, in the server's mock mode, on valid ones. */
  lemma DisagreesWhenUnconfigured(amount: JsVal, outcome: ProcessorOutcome, mock: bool, now: nat)
    ensures Handle(amount, false, outcome) == ServerRoute.Handle(amount, false, mock, outcome, now)
        <==> AmountPasses(amount) && !mock
  {
  }
}
