# DelayedPopup — a Dafny model of the popup lifecycle and payment-intent flow

DelayedPopup is an embeddable promotional popup. A host page opens it after a
delay. Closing it writes a suppression cookie. A floating chat button reopens it.
Inside the popup, a pay button asks a small server endpoint for a payment-processor
client secret and then shows a checkout dialog.

This project models the four pieces of logic in that system as pure functions
over immutable records:

- **Popup provider** (`PopUpContext`): the open flag, the config, the content and
  a cookie store (`Cookies`, a map from name to value and lifetime in days). It
  covers `showPopUp`, `hidePopUp`, the two field-wise partial updates, and the
  cookie check on initial render. It also runs sequences of these calls.
- **Drivers of the provider**:
  - `PopUpView`: the document listeners, the back button, the body scroll lock
    and render-nothing-when-closed of `PopUp`.
  - `ChatButton`: the reopen click.
  - `HomePage`: the demo page's mount effect, its 2000 ms timer and unmount.
- **Payment-intent endpoint**: `PaymentIntent` holds the shared vocabulary.
  `ServerRoute` is the demo server's handler, which validates first and has a mock
  mode. `ExportRoute` is the export copy, which checks configuration first and has
  no mock mode. Both are functions from the request's `amount`, the configuration,
  the processor's outcome and the clock to a response. Each also reports the
  processor request it made, if any.
- **Payment dialog**: `WidgetPayment` and `ExportPayment` are the two
  `PaymentButton`/`CheckoutForm` variants. Each is a state machine driven by
  request and confirmation outcomes, plus a function that picks the dialog body.
  Each async handler is split at its `await`. A `Begin` step runs the part before
  the await, and a `Complete` step receives the outcome.

Facts about the code that shape the model:

- **Cookie value.** `hidePopUp` writes the string `"true"` into the suppression
  cookie, and the initial-render check compares against that same string.
- **Order of checks.** The demo server validates the amount before it looks at
  the configuration; the export copy does it the other way round.
- **Truthiness check.** The server rejects only a missing amount, a non-number,
  0 and NaN. So `-5` and `0.5` pass validation.
- **Mock flag.** Mock mode matters only when no processor key is configured.
  With a key, the flag is ignored.

## Model

| member | source | states |
|---|---|---|
| PopUpContext.InitialDefaults | client/src/contexts/PopUpContext.tsx:36-51 | The provider starts closed. Its defaults are cookie name "popupShown", 7 days, 2000 ms delay and cookies enabled. The default amount is 10000. |
| PopUpContext.Show | client/src/contexts/PopUpContext.tsx:53-56 | After show the popup is open. Config, content and cookies are exactly as before. |
| PopUpContext.ShowIgnoresCookies | client/src/contexts/PopUpContext.tsx:53-56 | Two states that differ only in their cookies both open on show and keep their own cookies, so show never consults the cookie. |
| PopUpContext.ShowOpensSuppressed | client/src/contexts/PopUpContext.tsx:53-56 | A suppressed popup still opens on show, and it stays suppressed. |
| PopUpContext.ShowIdempotent | client/src/contexts/PopUpContext.tsx:53-56 | Showing twice is the same as showing once. |
| PopUpContext.Hide | client/src/contexts/PopUpContext.tsx:58-64 | After hide the popup is closed. With cookies enabled, the store is the old one with the configured cookie set to "true" and the configured lifetime, every other cookie keeping its value and lifetime. With cookies disabled, the store is untouched. Config and content are kept. |
| PopUpContext.HideIdempotent | client/src/contexts/PopUpContext.tsx:58-64 | Hiding twice is the same as hiding once. |
| PopUpContext.HideSuppresses | client/src/contexts/PopUpContext.tsx:58-64 | After hide, the popup is suppressed for the next load exactly when cookies are enabled. |
| PopUpContext.UpdateConfig | client/src/contexts/PopUpContext.tsx:66-68 | Each supplied config field takes its new value and each missing one keeps its old value. The open flag, content and cookies do not change. |
| PopUpContext.UpdateConfigThen | client/src/contexts/PopUpContext.tsx:66-68 | Two config updates in a row equal one update with the later patch laid over the earlier one. |
| PopUpContext.UpdateConfigIdempotent | client/src/contexts/PopUpContext.tsx:66-68 | Re-applying a config patch changes nothing more. An empty patch changes nothing. |
| PopUpContext.UpdateContent | client/src/contexts/PopUpContext.tsx:70-72 | This is the same field-wise merge over content. Supplying `undefined` for discount or image clears that field. Nothing outside content changes. |
| PopUpContext.UpdateContentThen | client/src/contexts/PopUpContext.tsx:70-72 | Two content updates in a row equal one merged update. |
| PopUpContext.UpdateContentIdempotent | client/src/contexts/PopUpContext.tsx:70-72 | Re-applying a content patch changes nothing more. An empty patch changes nothing. |
| PopUpContext.InitCheck | client/src/contexts/PopUpContext.tsx:75-82 | The check never opens the popup. It closes an open popup exactly when cookies are enabled and the configured cookie equals "true". Nothing else changes. |
| PopUpContext.InitCheckAfterHide | client/src/contexts/PopUpContext.tsx:58-82 | With cookies enabled, the init check after a hide keeps the popup closed, even if a show came in between. |
| PopUpContext.LastCallDecides | client/src/contexts/PopUpContext.tsx:53-64 | After any sequence of show and hide calls, the popup is open iff the last call was show. With no calls it keeps its state. |
| PopUpContext.OpenIffLastShow | client/src/contexts/PopUpContext.tsx:36-64 | Starting from the first render, the popup is open iff there was at least one call and the last one was show. |
| PopUpContext.ShowHideKeepConfigAndContent | client/src/contexts/PopUpContext.tsx:53-64 | No sequence of show and hide calls changes config or content. |
| PopUpContext.OnlyHideWritesCookies | client/src/contexts/PopUpContext.tsx:53-82 | Any sequence of calls without a hide leaves the cookie store unchanged. |
| PopUpView.Dispatch | popup-widget-package/src/components/PopUp.tsx:31-95 | A closed popup ignores every event. An open popup hides on an outside mousedown, on the Escape key or on the back button, and on nothing else. No event opens it. |
| PopUpView.Listeners | popup-widget-package/src/components/PopUp.tsx:38-56 | The mousedown and keydown listeners are both registered while the popup is open, and none is registered while it is closed. |
| PopUpView.EventsNeverOpen | popup-widget-package/src/components/PopUp.tsx:38-56 | A run of events never opens the popup. While the popup is closed, events change nothing, cookies included. |
| PopUpView.OpenUntilDismissed | popup-widget-package/src/components/PopUp.tsx:32-52 | An open popup stays open through a run of events iff none of them is a dismissing event. |
| PopUpView.MountPage | popup-widget-package/src/components/PopUp.tsx:63-73 | Mounting shows the provider state it was given and sets the body overflow to "hidden" if the popup is open and to "" if it is closed. |
| PopUpView.Rerender | popup-widget-package/src/components/PopUp.tsx:63-73 | The overflow effect runs only when `isOpen` changes: the style is kept otherwise and after unmount, and a mounted lock that followed the old state follows the new one. |
| PopUpView.Act | popup-widget-package/src/components/PopUp.tsx:31-73 | A DOM event reaches the popup only while mounted, a provider call may arrive at any time, and unmounting resets the overflow to "". Each of them keeps the overflow at "hidden" while the mounted popup is open and at "" otherwise. |
| PopUpView.ScrollLockFollowsOpen | popup-widget-package/src/components/PopUp.tsx:63-73 | Through any run of events, provider calls and unmounting, the overflow is "hidden" while the mounted popup is open and exactly "" when it is closed or unmounted. |
| PopUpView.Render | popup-widget-package/src/components/PopUp.tsx:75-91 | Nothing is rendered iff the popup is closed. An open popup renders its props unchanged and gives the pay button exactly the payment props, that is the amount alone. |
| PopUpView.PaymentProps | popup-widget-package/src/components/PopUp.tsx:184 | The pay button gets the popup's amount and nothing else: it posts to the default endpoint, has no public key and no success or error callback. |
| PopUpView.PopUpPaymentNeverLoads | popup-widget-package/src/components/PopUp.tsx:184 | After any history, the popup's pay button has never loaded Stripe, so a real answer leaves its dialog on the spinner, and neither a card error nor a success reaches a callback. |
| ChatButton.Click | popup-widget-package/src/components/ChatButton.tsx:25-28 | After a click the popup is open and the store is the old one without the suppression cookie; every other cookie keeps its value and lifetime. Config and content are unchanged. |
| ChatButton.ClickOpensRegardless | popup-widget-package/src/components/ChatButton.tsx:25-28 | The result of a click does not depend on the prior open flag or on the suppression cookie's prior value. |
| ChatButton.AbsentUntilHide | popup-widget-package/src/components/ChatButton.tsx:26 | After a click, the suppression cookie stays absent through any sequence of calls that has no hide. |
| ChatButton.HideRestoresSuppression | popup-widget-package/src/components/ChatButton.tsx:25-28 | When the configured cookie is the one cleared, the click lifts suppression and the next hide restores it. |
| HomePage.MountEffectsOrder | client/src/pages/home.tsx:8-21 | The page's config update runs before the provider's cookie check re-runs on changed dependencies. The result is the same as a merge followed by one check. |
| HomePage.Mount | client/src/pages/home.tsx:8-21 | On the first commit, where the provider starts closed, the result is the config merge alone: delay 2000, cookies enabled, duration 1, cookie name kept, and the popup still closed. The timer is armed for the literal 2000 ms. |
| HomePage.Remount | client/src/pages/home.tsx:8-21 | Mounting again under a live provider merges the same config and arms the same timer. The popup never opens, and an open one closes only when the merge turned cookies on and the cookie is set. |
| HomePage.RemountKeepsOpen | client/src/contexts/PopUpContext.tsx:75-82 | With cookies already enabled, a remount leaves an open popup open even though the suppression cookie is set, because the provider's check does not re-run. |
| HomePage.TimerFires | client/src/pages/home.tsx:16-18 | An armed timer fires by calling show. A cleared or already-fired timer does nothing. |
| HomePage.Unmount | client/src/pages/home.tsx:20 | Unmounting clears an armed timer and leaves the popup as it was. |
| HomePage.AutoShowIgnoresCookie | client/src/pages/home.tsx:16-18 | With the suppression cookie set at mount, the popup is closed after mount but open once the timer fires. |
| HomePage.AutoShowAlwaysOpens | client/src/pages/home.tsx:10-18 | After a first mount, or a remount from any provider state, the popup is open once the timer fires, and the whole config the mount left (delay 2000, cookies enabled, duration 1, cookie name) is unchanged by it. |
| HomePage.UnmountCancelsAutoShow | client/src/pages/home.tsx:16-20 | After unmount, no number of timer events changes the popup, whatever state the page was in. |
| HomePage.PopUpProps | client/src/pages/home.tsx:81-88 | The popup receives title, description, price, discount, image and amount from the provider unchanged. |
| HomePage.PayPostsContentAmount | client/src/pages/home.tsx:81-88 | The open popup's pay button posts the provider's amount to "/api/create-payment-intent". The default amount passes the server's check. |
| PaymentIntent.CreateIntent | server/routes.ts:42-59 | The processor is asked for the amount unchanged, in "usd", with automatic payment methods. Success is 200 with the secret and no mock field. Failure is 500 with "Error creating payment intent: " plus the processor's message. |
| PaymentIntent.AmountPasses | server/routes.ts:24 | Any non-number fails the check. Among numbers only zero fails, so negative and fractional amounts pass. |
| PaymentIntent.MockSecretShape | server/routes.ts:36-39 | A mock secret is "pi_mock_secret_" followed by a non-empty run of digits that reads back as the timestamp. Different timestamps give different secrets. |
| Common.DecimalRoundTrip | server/routes.ts:37 | Reading back the decimal digits of a timestamp gives the timestamp. |
| ServerRoute.Handle | server/routes.ts:20-61 | The status is 400 iff the amount fails the truthiness check, whatever the configuration. The processor is called iff the amount passes and a key exists. With no key and no mock, the status is 500 "not configured". A mock field appears only with no key and mock on, and then the response is a 200 with the placeholder secret. |
| ServerRoute.HandleWithEnv | server/routes.ts:6-16 | A set, non-empty secret key means the processor is asked exactly when the amount passes, whatever the mock flag. A missing or empty key never asks the processor, and then only STRIPE_MOCK exactly "true" gives a secret; any other value gives the "not configured" 500. |
| ServerRoute.TruthinessCheck | server/routes.ts:24-28 | Zero, NaN, a missing amount and a non-number are rejected. A negative amount reaches the processor, and a fractional one reaches mock mode. |
| ServerRoute.ConfiguredIgnoresMock | server/routes.ts:30-52 | With a key configured, the response and the processor call do not depend on the mock flag or the clock. |
| ServerRoute.MockFlagExact | server/routes.ts:6-16 | With no key or an empty key, any STRIPE_MOCK value other than "true" gives the "not configured" 500. |
| ServerRoute.HundredDollarScenario | server/routes.ts:42-52 | A 10000-cent request with a processor returning "sk_test_123" gives exactly `{clientSecret: "sk_test_123"}` with status 200. |
| ExportRoute.Handle | export-files/routes.ts:18-53 | With no key, every request is the "not configured" 500, even with an invalid amount. With a key, the status is 400 iff the amount fails the check. The processor gets the amount unchanged. A created intent is a 200 with the processor's secret and no mock field. |
| ExportRoute.AgreesWithServerWhenConfigured | export-files/routes.ts:18-53 | With a key configured, the export handler and the server handler give the same response and processor call for every input. |
| ExportRoute.DisagreesWhenUnconfigured | export-files/routes.ts:20-32 | With no key, the two handlers agree exactly when the amount is valid and mock mode is off. |
| WidgetPayment.PayBegin | popup-widget-package/src/components/PaymentButton.tsx:80-88 | A click sets loading and posts `{amount}` to the endpoint, which defaults to "/api/create-payment-intent". A click while loading does nothing. |
| WidgetPayment.PayComplete | popup-widget-package/src/components/PaymentButton.tsx:89-110 | Loading ends on every outcome. A non-ok status reports "Failed to create payment intent" and a thrown error reports its message, and neither touches the dialog. An ok response stores the secret and `Boolean(mock)` and opens the dialog. Stripe loads iff the previous mock flag was false, a key is given and no promise exists. |
| WidgetPayment.LoadsStripe | popup-widget-package/src/components/PaymentButton.tsx:98 | Stripe is loaded only with a usable key and no promise yet, and never when the mock flag already in state is set, whatever the new response says. |
| WidgetPayment.StaleMockRead | popup-widget-package/src/components/PaymentButton.tsx:96-100 | Because the previous mock flag is read, a first mock response still loads Stripe and shows the simulate button; a real response after it loads nothing more and shows the checkout form. |
| WidgetPayment.MockImpliesLoaded | popup-widget-package/src/components/PaymentButton.tsx:94-100 | With a usable key, in every state reachable from the initial one, the mock flag is set only if the Stripe promise exists. |
| WidgetPayment.RealAnswerShowsForm | popup-widget-package/src/components/PaymentButton.tsx:94-100 | With a usable key, a real answer after any history shows the checkout form, so the stale mock read never leaves the dialog on the spinner. |
| WidgetPayment.NoKeyNeverLoads | popup-widget-package/src/components/PaymentButton.tsx:98-100 | Without a usable key, no event sequence ever calls `loadStripe` and the promise stays absent. |
| WidgetPayment.StepLoads | popup-widget-package/src/components/PaymentButton.tsx:98-100 | One event loads Stripe at most once, only with the public key, and only while no promise exists. A promise, once made, is kept. |
| WidgetPayment.LoadStripeAtMostOnce | popup-widget-package/src/components/PaymentButton.tsx:98-100 | Over any event sequence, `loadStripe` runs exactly once if the promise went from absent to present, and otherwise never. |
| WidgetPayment.PaymentSuccess | popup-widget-package/src/components/PaymentButton.tsx:112-115 | Payment success closes the dialog, calls `onSuccess` if one is given, and changes nothing else. |
| WidgetPayment.PaymentError | popup-widget-package/src/components/PaymentButton.tsx:117-119 | Payment error only calls `onError`. The dialog stays as it is. |
| WidgetPayment.DismissDialog | popup-widget-package/src/components/PaymentButton.tsx:138-140 | Dismissing closes the dialog and changes nothing else. |
| WidgetPayment.Body | popup-widget-package/src/components/PaymentButton.tsx:149-170 | The simulate button shows iff the payment is a mock. The checkout form shows iff it is not a mock, the secret is non-empty and Stripe is loaded. Otherwise the spinner shows. |
| WidgetPayment.ErrorText | popup-widget-package/src/components/PaymentButton.tsx:44 | The reported confirm error is never empty. It is the processor's message when that message is non-empty, and otherwise "Payment failed". |
| WidgetPayment.CheckoutSubmit | popup-widget-package/src/components/PaymentButton.tsx:26-50 | If Stripe is not ready, the submit does nothing. Otherwise it confirms, processes during the call, and ends not processing. It calls success iff the payment was confirmed, and otherwise reports the processor's message, or "Payment failed" when that is missing or empty. |
| WidgetPayment.SubmitOutcome | popup-widget-package/src/components/PaymentButton.tsx:43-47 | A confirmed payment closes the dialog and calls `onSuccess`. A failed one keeps the dialog and calls `onError` with exactly the processor's message, or "Payment failed" when there is none. |
| ExportPayment.PayBegin | export-package/PaymentButton.tsx:76-80 | A click sets loading and posts `{amount}` to "/api/create-payment-intent". A click while loading does nothing. |
| ExportPayment.PayComplete | export-package/PaymentButton.tsx:76-93 | Loading ends on every outcome. Success stores the secret and opens the dialog. Failure shows the destructive "Failed to initialize payment. Please try again." toast and changes nothing else. |
| ExportPayment.PaymentSuccess | export-package/PaymentButton.tsx:95-97 | Payment success only closes the dialog. |
| ExportPayment.Body | export-package/PaymentButton.tsx:124-132 | The checkout form shows iff the secret is non-empty, and otherwise the spinner. There is no mock body. |
| ExportPayment.CheckoutSubmit | export-package/PaymentButton.tsx:22-54 | If not ready, the submit does nothing. A confirm error shows an error toast and keeps the dialog. Success shows the success toast and then runs `onSuccess`, which closes the dialog. `onSuccess` runs iff the payment was confirmed. |
| ExportPayment.SubmitsKeepDialogUntilConfirmed | export-package/PaymentButton.tsx:39-51 | A run of submits with no confirmed payment leaves the button's state unchanged. |
| ExportPayment.AgreesWithWidget | export-package/PaymentButton.tsx:76-97 | On a click, a real answer, a failed request and payment success, the export button reaches the same loading, dialog and secret state as the widget button. |
| ExportPayment.BodyRefinesWidget | export-package/PaymentButton.tsx:124-132 | When the widget shows the checkout form, so does the export. The reverse holds when the widget is not in mock mode and Stripe is loaded. |

## Left out

- **Presentation.** Markup, CSS classes, animations, the avatar, the ChatButton hover icon and bounce interval, and the fixed "Discount 38.1%" label are not behaviour.
- **Message-box click.** The "Your message..." box forwards its click to the pay button, so it is the same `PayClick` event.
- **Foreign calls.** `fetch`, `apiRequest`, `loadStripe`, `confirmPayment`, `paymentIntents.create` and Express become outcome parameters, or effects that record the call. The export button's `apiRequest` comes from `@/lib/queryClient`, which is not part of this model; it is taken to reject on a non-ok status, so a request either yields a client secret or fails.
- **Cookie library.** `lib/cookie` is not part of this model. It is an in-memory map. Expiry, storage failures and the exact name `clearPopupCookie` removes are not modelled; that name is a parameter.
- **Clocks and timers.** `Date.now` is a natural-number parameter. The timer is an explicit event.
- **React.** Closures and re-render mechanics are modelled only where they matter: the effect dependency lists and the stale `isMockPayment` read.
- **Amount values.** The JSON amount is Absent, NonNumber, NaN or a finite number. A body such as `{"amount":1e999}` parses to `Infinity`, which `real` cannot represent; it passes both handlers' truthiness check and takes the same path as any non-zero number. On the client side the amount is an integer (`Content.amount`, the payment buttons' `amount`), whereas the source types it as a JS `number`; a fractional content amount, or a NaN one that `JSON.stringify` would send as `null` and the server would answer with a 400, cannot be expressed there.
- **Missing request body.** A missing `req.body` makes the destructuring throw, which leads to a 500. This path is not modelled.
- **Null client secret.** The processor's `client_secret` is taken to be a string.
- **Explicit `undefined` in patches.** An update that passes `undefined` for a required config or content field would erase it. The model's patches cannot express that. Optional content fields can be cleared.
- **Startup warnings, console logging and toast display.** Toasts appear only as effect labels.
- **Module-level `loadStripe`.** The export package calls it at import time. That call is environment setup, not a transition.
- **The submit button's disabled state.** The form's `disabled={!stripe || isProcessing}` is not modelled as gating further submits.
- **`shared/schema.ts`.** No route uses it.
- **Demo client's own components.** The demo client takes `PopUp` (in `client/src/pages/home.tsx`) and `ChatButton` (in `client/src/App.tsx`) from its own `@/components`, and the provider's cookie helpers from `@/lib/cookie`; none of these is part of this model. The widget package's `PopUp`, `ChatButton` and `PaymentButton`, and an in-memory cookie store, stand in for them.
- **Wiring files.** `client/src/App.tsx` places `Home` and `ChatButton` under one `PopUpProvider`, which is why both drive the same provider state in this model; its router, query client and toaster are not modelled. `client/src/main.tsx` renders `App` and warns about a missing public key. The two package index files only re-export.
