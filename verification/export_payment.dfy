/** The export package's `PaymentButton` and `CheckoutForm`: the same dialog
    flow as the widget's, without mock payments or callbacks. Failures surface as
    toasts instead. A request either yields a client secret or fails. */
module ExportPayment {
  import opened Common
  import PaymentIntent
  import WidgetPayment

  const Endpoint := "/api/create-payment-intent"

  datatype State = State(isLoading: bool, showDialog: bool, clientSecret: string)

  const InitialState := State(false, false, "")

  datatype Toast = Toast(title: string, description: Option<string>, destructive: bool)

  const InitFailedToast := Toast("Error", Some("Failed to initialize payment. Please try again."), true)
  const PaidToast := Toast("Payment Successful", Some("Thank you for your payment!"), false)

  function PaymentErrorToast(message: Option<string>): Toast {
    Toast("Payment Error", message, true)
  }

  datatype Effect =
    | Post(endpoint: string, amount: PaymentIntent.JsVal)
    | ShowToast(toast: Toast)
    | CallOnSuccess

  datatype Step = Step(state: State, effects: seq<Effect>)

  datatype RequestOutcome = Succeeded(clientSecret: string) | RequestFailed

  /** The click up to the `await`: loading starts and `{amount}` is posted; a
      click while loading hits a disabled button and does nothing. */
  function PayBegin(amount: int, s: State): (r: Step)
    ensures r.state.isLoading
    ensures s.isLoading ==> r == Step(s, [])
    ensures !s.isLoading ==> r.state.(isLoading := false) == s
    ensures !s.isLoading ==> r.effects == [Post(Endpoint, PaymentIntent.Num(amount as real))]
  {
    if s.isLoading then Step(s, [])
    else Step(s.(isLoading := true), [Post(Endpoint, PaymentIntent.Num(amount as real))])
  }

  /** The rest of the click: a secret opens the dialog; a failure shows the
      destructive toast and leaves the dialog as it was. */
  function PayComplete(s: State, o: RequestOutcome): (r: Step)
    ensures !r.state.isLoading
    ensures o.Succeeded? ==> r.state.showDialog && r.state.clientSecret == o.clientSecret && r.effects == []
    ensures o.RequestFailed? ==> r.state == s.(isLoading := false) && r.effects == [ShowToast(InitFailedToast)]
  {
    match o
    case Succeeded(secret) => Step(State(false, true, secret), [])
    case RequestFailed => Step(s.(isLoading := false), [ShowToast(InitFailedToast)])
  }

  /** `handlePaymentSuccess` only closes the dialog. */
  function PaymentSuccess(s: State): (r: State)
    ensures !r.showDialog && r.(showDialog := s.showDialog) == s
  {
    s.(showDialog := false)
  }

  datatype DialogBody = CheckoutForm | Spinner

  function Body(s: State): (b: DialogBody)
    ensures b == CheckoutForm <==> s.clientSecret != ""
  {
    if s.clientSecret != "" then CheckoutForm else Spinner
  }

  /** One submit of the checkout form, at the button's level: an unready form does
      nothing; a confirm error shows an error toast and keeps the dialog; success
      shows the success toast and then runs `onSuccess`, which closes the dialog. */
  function CheckoutSubmit(s: State, ready: bool, o: WidgetPayment.ConfirmOutcome): (r: Step)
    ensures !ready ==> r == Step(s, [])
    ensures ready && o.ConfirmError? ==> r == Step(s, [ShowToast(PaymentErrorToast(o.message))])
    ensures ready && o.Confirmed? ==> r.effects == [ShowToast(PaidToast), CallOnSuccess]
    ensures ready && o.Confirmed? ==> r.state == PaymentSuccess(s)
    ensures CallOnSuccess in r.effects <==> ready && o.Confirmed?
  {
    if !ready then Step(s, [])
    else match o
      case ConfirmError(m) => Step(s, [ShowToast(PaymentErrorToast(m))])
      case Confirmed => Step(PaymentSuccess(s), [ShowToast(PaidToast), CallOnSuccess])
  }

  /** What the export button keeps of the widget button's state. */
  function Project(s: WidgetPayment.State): State {
    State(s.isLoading, s.showDialog, s.clientSecret)
  }

  /** On a real (non-mock) answer and on a failed request, the two buttons end in
      the same loading, dialog and secret state; the widget just adds callbacks. */
  lemma AgreesWithWidget(p: WidgetPayment.Props, s: WidgetPayment.State, secret: string)
    ensures Project(WidgetPayment.PayComplete(p, s, WidgetPayment.Ok(secret, false)).state)
         == PayComplete(Project(s), Succeeded(secret)).state
    ensures Project(WidgetPayment.PayComplete(p, s, WidgetPayment.NotOk).state)
         == PayComplete(Project(s), RequestFailed).state
    ensures Project(WidgetPayment.PaymentSuccess(p, s).state) == PaymentSuccess(Project(s))
    ensures Project(WidgetPayment.PayBegin(p, s).state) == PayBegin(p.amount, Project(s)).state
  {
  }

  /** Whenever the widget's dialog shows its checkout form, the export's would too;
      the converse fails because the export has no mock body and does not wait for Stripe. */
  lemma BodyRefinesWidget(s: WidgetPayment.State)
    ensures WidgetPayment.Body(s) == WidgetPayment.CheckoutForm ==> Body(Project(s)) == CheckoutForm
    ensures Body(Project(s)) == CheckoutForm && !s.isMock && s.stripeKey.Some? ==>
              WidgetPayment.Body(s) == WidgetPayment.CheckoutForm
  {
  }

  /** Over any run of submits none of which confirmed a payment, the button's
      state (loading, dialog and secret) is unchanged: an error never closes the
      dialog. The toasts the submits show are not tracked here. */
  lemma {:induction false} SubmitsKeepDialogUntilConfirmed(s: State, submits: seq<(bool, WidgetPayment.ConfirmOutcome)>)
    requires forall i :: 0 <= i < |submits| ==> !(submits[i].0 && submits[i].1.Confirmed?)
    ensures RunSubmits(s, submits) == s
    decreases |submits|
  {
    if |submits| > 0 {
      assert !(submits[0].0 && submits[0].1.Confirmed?);
      SubmitsKeepDialogUntilConfirmed(CheckoutSubmit(s, submits[0].0, submits[0].1).state, submits[1..]);
    }
  }

  function RunSubmits(s: State, submits: seq<(bool, WidgetPayment.ConfirmOutcome)>): State
    decreases |submits|
  {
    if |submits| == 0 then s
    else RunSubmits(CheckoutSubmit(s, submits[0].0, submits[0].1).state, submits[1..])
  }
}
