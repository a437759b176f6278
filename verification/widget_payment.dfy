/** The widget package's `PaymentButton` and its `CheckoutForm`, as a state
    machine driven by abstract outcomes. Each async handler is split at its
    `await`: a `Begin` step for the synchronous part and a `Complete` step that
    receives the outcome. `fetch`, `loadStripe` and `confirmPayment` are not
    executed: their calls are recorded as effects and their answers are inputs. */
module WidgetPayment {
  import opened Common
  import PaymentIntent

  const DefaultEndpoint := "/api/create-payment-intent"
  const RequestFailedMessage := "Failed to create payment intent"
  const UnknownErrorMessage := "Failed to initialize payment"
  const PaymentFailedMessage := "Payment failed"

  /** The component's props; the two callbacks are optional. */
  datatype Props = Props(
    amount: int,
    stripePublicKey: Option<string>,
    apiEndpoint: Option<string>,
    hasOnSuccess: bool,
    hasOnError: bool)

  /** `stripeKey` is `stripePromise`: `None` is `null`, `Some(k)` a promise loaded with key `k`. */
  datatype State = State(
    isLoading: bool,
    showDialog: bool,
    clientSecret: string,
    isMock: bool,
    stripeKey: Option<string>)

  const InitialState := State(false, false, "", false, None)

  datatype Effect =
    | Post(endpoint: string, amount: PaymentIntent.JsVal)
    | LoadStripe(key: string)
    | OnError(message: string)
    | OnSuccess

  /** A transition: the next state and the calls it made, in order. */
  datatype Step = Step(state: State, effects: seq<Effect>)

  /** What the `fetch` of the payment intent produced: a non-ok status, an
      exception (with its `message` when it is an `Error`), or the parsed body. */
  datatype FetchOutcome =
    | NotOk
    | Threw(message: Option<string>)
    | Ok(clientSecret: string, mock: bool)

  function Endpoint(p: Props): string {
    p.apiEndpoint.GetOr(DefaultEndpoint)
  }

  function ErrorCallback(p: Props, message: string): seq<Effect> {
    if p.hasOnError then [OnError(message)] else []
  }

  function SuccessCallback(p: Props): seq<Effect> {
    if p.hasOnSuccess then [OnSuccess] else []
  }

  /** A public key is usable when it is given and non-empty. */
  predicate HasKey(p: Props) {
    p.stripePublicKey.Some? && p.stripePublicKey.value != ""
  }

  // ---------------------------------------------------------------------------
  // handlePayClick

  /** The click, up to the `await fetch`: loading starts and `{amount}` is posted.
      While loading the button is disabled and a click does nothing. */
  function PayBegin(p: Props, s: State): (r: Step)
    ensures r.state.isLoading
    ensures s.isLoading ==> r == Step(s, [])
    ensures !s.isLoading ==> r.state.(isLoading := false) == s
    ensures !s.isLoading ==> r.effects == [Post(Endpoint(p), PaymentIntent.Num(p.amount as real))]
  {
    if s.isLoading then Step(s, [])
    else Step(s.(isLoading := true), [Post(Endpoint(p), PaymentIntent.Num(p.amount as real))])
  }

  /** Whether the completed request loads Stripe. The mock test reads `isMock`
      from the state the click started in, not the response just received. */
  function LoadsStripe(p: Props, s: State): (load: bool)
    // only a usable key, and only while no promise exists
    ensures load ==> HasKey(p) && s.stripeKey.None?
    // the flag consulted is the one already in state, whatever the new response says
    ensures s.isMock ==> !load
    ensures !s.isMock && HasKey(p) && s.stripeKey.None? ==> load
  {
    !s.isMock && HasKey(p) && s.stripeKey.None?
  }

  /** The rest of the click, once the request has an outcome. */
  function PayComplete(p: Props, s: State, o: FetchOutcome): (r: Step)
    // loading ends on every outcome
    ensures !r.state.isLoading
    // failures report through `onError` and leave everything else as it was
    ensures o.NotOk? ==> r == Step(s.(isLoading := false), ErrorCallback(p, RequestFailedMessage))
    ensures o.Threw? ==> r == Step(s.(isLoading := false), ErrorCallback(p, o.message.GetOr(UnknownErrorMessage)))
    // success stores the secret and the mock flag and opens the dialog
    ensures o.Ok? ==> && r.state.showDialog
                      && r.state.clientSecret == o.clientSecret
                      && r.state.isMock == o.mock
    ensures o.Ok? ==> (LoadStripe(p.stripePublicKey.GetOr("")) in r.effects <==> LoadsStripe(p, s))
    ensures o.Ok? ==> r.effects == (if LoadsStripe(p, s) then [LoadStripe(p.stripePublicKey.value)] else [])
    ensures o.Ok? ==> r.state.stripeKey == (if LoadsStripe(p, s) then p.stripePublicKey else s.stripeKey)
    ensures OnSuccess !in r.effects
  {
    match o
    case NotOk => Step(s.(isLoading := false), ErrorCallback(p, RequestFailedMessage))
    case Threw(m) => Step(s.(isLoading := false), ErrorCallback(p, m.GetOr(UnknownErrorMessage)))
    case Ok(secret, mock) =>
      var load := LoadsStripe(p, s);
      var next := s.(
        isLoading := false,
        clientSecret := secret,
        isMock := mock,
        stripeKey := if load then p.stripePublicKey else s.stripeKey,
        showDialog := true);
      Step(next, if load then [LoadStripe(p.stripePublicKey.value)] else [])
  }

  // ---------------------------------------------------------------------------
  // payment callbacks and the dialog

  /** `handlePaymentSuccess`: close the dialog, then call `onSuccess`. */
  function PaymentSuccess(p: Props, s: State): (r: Step)
    ensures !r.state.showDialog
    ensures r.state.(showDialog := s.showDialog) == s
    ensures r.effects == SuccessCallback(p)
  {
    Step(s.(showDialog := false), SuccessCallback(p))
  }

  /** `handlePaymentError`: report, and leave the dialog open for another try. */
  function PaymentError(p: Props, s: State, message: string): (r: Step)
    ensures r.state == s
    ensures r.effects == ErrorCallback(p, message)
  {
    Step(s, ErrorCallback(p, message))
  }

  /** The dialog's `onOpenChange(false)`: the user dismissed it. */
  function DismissDialog(s: State): (r: State)
    ensures !r.showDialog && r.(showDialog := s.showDialog) == s
  {
    s.(showDialog := false)
  }

  datatype DialogBody = SimulateButton | CheckoutForm | Spinner

  /** Which body the open dialog shows. */
  function Body(s: State): (b: DialogBody)
    ensures b == SimulateButton <==> s.isMock
    ensures b == CheckoutForm <==> !s.isMock && s.clientSecret != "" && s.stripeKey.Some?
    ensures b == Spinner <==> !s.isMock && (s.clientSecret == "" || s.stripeKey.None?)
  {
    if s.isMock then SimulateButton
    else if s.clientSecret != "" && s.stripeKey.Some? then CheckoutForm
    else Spinner
  }

  // ---------------------------------------------------------------------------
  // CheckoutForm.handleSubmit

  /** What `stripe.confirmPayment` resolved to; an error may lack a message. */
  datatype ConfirmOutcome = Confirmed | ConfirmError(message: Option<string>)

  /** `error.message || "Payment failed"`. */
  function ErrorText(message: Option<string>): (t: string)
    ensures t != ""
    ensures message.Some? && message.value != "" ==> t == message.value
    ensures !(message.Some? && message.value != "") ==> t == PaymentFailedMessage
  {
    if message.Some? && message.value != "" then message.value else PaymentFailedMessage
  }

  datatype Callback = CallSuccess | CallError(message: string)

  /** One submit of the checkout form. `ready` is whether `stripe` and `elements`
      are both loaded; `processing` is the form's `isProcessing` before the submit. */
  datatype Submission = Submission(
    confirmCalled: bool,
    processingDuring: bool,
    processingAfter: bool,
    callback: Option<Callback>)

  function CheckoutSubmit(ready: bool, processing: bool, o: ConfirmOutcome): (r: Submission)
    ensures !ready ==> r == Submission(false, processing, processing, None)
    ensures ready ==> r.confirmCalled && r.processingDuring && !r.processingAfter && r.callback.Some?
    ensures ready ==> (r.callback.value == CallSuccess <==> o.Confirmed?)
    ensures ready && o.ConfirmError? ==> r.callback.value == CallError(ErrorText(o.message))
    ensures ready && o.ConfirmError? ==> r.callback.value.message != ""
  {
    if !ready then Submission(false, processing, processing, None)
    else
      var cb := match o
        case Confirmed => CallSuccess
        case ConfirmError(m) => CallError(ErrorText(m));
      Submission(true, true, false, Some(cb))
  }

  /** The button's response to the form's callback. */
  function OnFormCallback(p: Props, s: State, cb: Callback): Step {
    match cb
    case CallSuccess => PaymentSuccess(p, s)
    case CallError(m) => PaymentError(p, s, m)
  }

  /** End to end: a confirmed payment closes the dialog and reports success; a
      failed one keeps it open and reports Stripe's message, or "Payment failed"
      when it has none; an unready form changes nothing. */
  lemma SubmitOutcome(p: Props, s: State, ready: bool, o: ConfirmOutcome)
    requires p.hasOnSuccess && p.hasOnError
    ensures var sub := CheckoutSubmit(ready, false, o);
            && (!ready ==> sub.callback.None? && !sub.confirmCalled)
            && (ready && o.Confirmed? ==>
                  var st := OnFormCallback(p, s, sub.callback.value);
                  !st.state.showDialog && st.effects == [OnSuccess])
            && (ready && o.ConfirmError? ==>
                  var st := OnFormCallback(p, s, sub.callback.value);
                  st.state == s && st.effects == [OnError(ErrorText(o.message))])
            && (ready && o == ConfirmError(None) ==>
                  OnFormCallback(p, s, sub.callback.value).effects == [OnError(PaymentFailedMessage)])
  {
  }

  // ---------------------------------------------------------------------------
  // sequences of events

  datatype Event =
    | PayClick
    | RequestDone(fetched: FetchOutcome)
    | SimulateClick
    | FormCallback(cb: Callback)
    | Dismiss

  function StepOn(p: Props, s: State, e: Event): Step {
    match e
    case PayClick => PayBegin(p, s)
    case RequestDone(o) => PayComplete(p, s, o)
    case SimulateClick => PaymentSuccess(p, s)
    case FormCallback(cb) => OnFormCallback(p, s, cb)
    case Dismiss => Step(DismissDialog(s), [])
  }

  /** Runs `events` in order and collects every call made. */
  function RunEvents(p: Props, s: State, events: seq<Event>): Step
    decreases |events|
  {
    if |events| == 0 then Step(s, [])
    else
      var first := StepOn(p, s, events[0]);
      var rest := RunEvents(p, first.state, events[1..]);
      Step(rest.state, first.effects + rest.effects)
  }

  function LoadCount(effects: seq<Effect>): nat
    decreases |effects|
  {
    if |effects| == 0 then 0
    else (if effects[0].LoadStripe? then 1 else 0) + LoadCount(effects[1..])
  }

  lemma {:induction false} LoadCountAppend(a: seq<Effect>, b: seq<Effect>)
    ensures LoadCount(a + b) == LoadCount(a) + LoadCount(b)
    decreases |a|
  {
    if |a| == 0 {
      assert a + b == b;
    } else {
      assert (a + b)[0] == a[0];
      assert (a + b)[1..] == a[1..] + b;
      LoadCountAppend(a[1..], b);
    }
  }

  /** One step loads Stripe at most once, only with the public key, and only
      while no promise exists; afterwards the promise exists and is never dropped. */
  lemma StepLoads(p: Props, s: State, e: Event)
    ensures var st := StepOn(p, s, e);
            && LoadCount(st.effects) == (if s.stripeKey.None? && st.state.stripeKey.Some? then 1 else 0)
            && (s.stripeKey.Some? ==> st.state.stripeKey == s.stripeKey)
            && (st.state.stripeKey.Some? && s.stripeKey.None? ==> st.state.stripeKey == p.stripePublicKey)
  {
  }

  /** Over any sequence of events `loadStripe` runs once exactly when the promise
      goes from absent to present, so at most once, and never again once it exists. */
  lemma {:induction false} LoadStripeAtMostOnce(p: Props, s: State, events: seq<Event>)
    ensures var run := RunEvents(p, s, events);
            && LoadCount(run.effects) == (if s.stripeKey.None? && run.state.stripeKey.Some? then 1 else 0)
            && (s.stripeKey.Some? ==> run.state.stripeKey == s.stripeKey)
    decreases |events|
  {
    if |events| > 0 {
      var first := StepOn(p, s, events[0]);
      StepLoads(p, s, events[0]);
      LoadStripeAtMostOnce(p, first.state, events[1..]);
      LoadCountAppend(first.effects, RunEvents(p, first.state, events[1..]).effects);
    }
  }

  /** The mock test reads the previous render's `isMock`, so a first response in
      mock mode still loads Stripe, and a real response after it finds the
      promise already there and shows the checkout form. */
  lemma StaleMockRead(p: Props, mockSecret: string, secret: string)
    requires HasKey(p) && secret != ""
    ensures var first := PayComplete(p, InitialState, Ok(mockSecret, true));
            && first.effects == [LoadStripe(p.stripePublicKey.value)]
            && Body(first.state) == SimulateButton
            && var second := PayComplete(p, first.state, Ok(secret, false));
               second.effects == [] && Body(second.state) == CheckoutForm
  {
  }

  /** The mock flag is only ever set together with, or after, the Stripe promise:
      with a usable key, every state reachable from the initial one that shows the
      simulate button already holds the promise, so the stale read never strands
      a later real answer on the spinner. */
  lemma {:induction false} MockImpliesLoaded(p: Props, s: State, events: seq<Event>)
    requires HasKey(p)
    requires s.isMock ==> s.stripeKey.Some?
    ensures var st := RunEvents(p, s, events).state;
            st.isMock ==> st.stripeKey.Some?
    decreases |events|
  {
    if |events| > 0 {
      var first := StepOn(p, s, events[0]);
      assert first.state.isMock ==> first.state.stripeKey.Some?;
      MockImpliesLoaded(p, first.state, events[1..]);
    }
  }

  /** With a usable key, every real answer after any history shows the checkout form. */
  lemma RealAnswerShowsForm(p: Props, events: seq<Event>, secret: string)
    requires HasKey(p) && secret != ""
    ensures var s := RunEvents(p, InitialState, events).state;
            Body(PayComplete(p, s, Ok(secret, false)).state) == CheckoutForm
  {
    MockImpliesLoaded(p, InitialState, events);
  }

  /** Without a usable key no step ever loads Stripe: the promise stays `null`. */
  lemma {:induction false} NoKeyNeverLoads(p: Props, s: State, events: seq<Event>)
    requires !HasKey(p) && s.stripeKey.None?
    ensures RunEvents(p, s, events).state.stripeKey.None?
    ensures LoadCount(RunEvents(p, s, events).effects) == 0
    decreases |events|
  {
    if |events| > 0 {
      var first := StepOn(p, s, events[0]);
      StepLoads(p, s, events[0]);
      NoKeyNeverLoads(p, first.state, events[1..]);
      LoadCountAppend(first.effects, RunEvents(p, first.state, events[1..]).effects);
    }
  }
}
