/** The `PopUp` component's behaviour: which document listeners are live, how
    mouse, keyboard and back-button events turn into provider calls, the page
    scroll lock, and rendering nothing while closed. Markup is not modelled. */
module PopUpView {
  import opened Common
  import opened PopUpContext
  import WidgetPayment

  /** The props the host passes in (the avatar props are presentational). */
  datatype Props = Props(
    title: string,
    description: string,
    price: string,
    discount: Option<string>,
    imageSrc: Option<string>,
    amount: int)

  datatype DomEvent =
    | MouseDown(insidePopup: bool)  // a mousedown on the document; whether its target lies inside the popup box
    | KeyDown(key: string)
    | BackClick                      // the header's back button

  datatype Listener = MouseDownListener | KeyDownListener

  /** The effects register both document listeners only while the popup is open. */
  function Listeners(s: State): (r: set<Listener>)
    ensures r == {} <==> !s.isOpen
    ensures s.isOpen ==> MouseDownListener in r && KeyDownListener in r
  {
    if s.isOpen then {MouseDownListener, KeyDownListener} else {}
  }

  /** The component returns `null` while closed. */
  predicate Rendered(s: State) {
    s.isOpen
  }

  /** The payment button inside the popup gets the amount and nothing else, so
      its endpoint is the default, it has no public key and no callbacks. */
  function PaymentProps(props: Props): (b: WidgetPayment.Props)
    ensures b.amount == props.amount
    ensures WidgetPayment.Endpoint(b) == WidgetPayment.DefaultEndpoint
    ensures !WidgetPayment.HasKey(b) && !b.hasOnSuccess && !b.hasOnError
  {
    WidgetPayment.Props(props.amount, None, None, false, false)
  }

  /** Whatever the popup's payment button has been through, it never loads
      Stripe, so a real answer leaves its dialog on the spinner, and neither a
      card error nor a success reaches anyone. */
  lemma PopUpPaymentNeverLoads(props: Props, events: seq<WidgetPayment.Event>, secret: string, message: string)
    ensures var b := PaymentProps(props);
            var run := WidgetPayment.RunEvents(b, WidgetPayment.InitialState, events);
            && WidgetPayment.LoadCount(run.effects) == 0
            && WidgetPayment.Body(WidgetPayment.PayComplete(b, run.state, WidgetPayment.Ok(secret, false)).state)
               == WidgetPayment.Spinner
            && WidgetPayment.PaymentError(b, run.state, message).effects == []
            && WidgetPayment.PaymentSuccess(b, run.state).effects == []
  {
    WidgetPayment.NoKeyNeverLoads(PaymentProps(props), WidgetPayment.InitialState, events);
  }

  datatype View = View(props: Props, payment: WidgetPayment.Props)

  function Render(s: State, props: Props): (v: Option<View>)
    ensures v.None? <==> !s.isOpen
    ensures v.Some? ==> v.value.props == props && v.value.payment.amount == props.amount
    ensures v.Some? ==> v.value.payment == PaymentProps(props)
  {
    if Rendered(s) then Some(View(props, PaymentProps(props))) else None
  }

  /** The event kinds that dismiss the popup while it is open. */
  predicate Dismisses(e: DomEvent) {
    match e
    case MouseDown(inside) => !inside
    case KeyDown(key) => key == "Escape"
    case BackClick => true
  }

  /** One event delivered to the page. */
  function Dispatch(s: State, e: DomEvent): (r: State)
    // a closed popup has no listeners and no button: nothing happens, no cookie is written
    ensures !s.isOpen ==> r == s
    // an open popup calls `hidePopUp` on an outside mousedown, Escape, or the back button, and on nothing else
    ensures s.isOpen ==> (r == Hide(s) <==> Dismisses(e))
    ensures s.isOpen && !Dismisses(e) ==> r == s
    ensures r.isOpen ==> s.isOpen
  {
    match e
    case MouseDown(inside) =>
      if MouseDownListener in Listeners(s) && !inside then Hide(s) else s
    case KeyDown(key) =>
      if KeyDownListener in Listeners(s) && key == "Escape" then Hide(s) else s
    case BackClick =>
      if Rendered(s) then Hide(s) else s
  }

  function DispatchAll(s: State, events: seq<DomEvent>): State
    decreases |events|
  {
    if |events| == 0 then s else DispatchAll(Dispatch(s, events[0]), events[1..])
  }

  /** Events alone never open the popup, and change nothing at all while it is closed. */
  lemma {:induction false} EventsNeverOpen(s: State, events: seq<DomEvent>)
    ensures DispatchAll(s, events).isOpen ==> s.isOpen
    ensures !s.isOpen ==> DispatchAll(s, events) == s
    decreases |events|
  {
    if |events| > 0 {
      EventsNeverOpen(Dispatch(s, events[0]), events[1..]);
    }
  }

  /** An open popup stays open through events exactly when none of them dismisses it. */
  lemma {:induction false} OpenUntilDismissed(s: State, events: seq<DomEvent>)
    requires s.isOpen
    ensures DispatchAll(s, events).isOpen <==> forall i :: 0 <= i < |events| ==> !Dismisses(events[i])
    decreases |events|
  {
    if |events| > 0 {
      var next := Dispatch(s, events[0]);
      if Dismisses(events[0]) {
        EventsNeverOpen(next, events[1..]);
      } else {
        OpenUntilDismissed(next, events[1..]);
        assert forall i :: 1 <= i < |events| ==> events[i] == events[1..][i - 1];
      }
    }
  }

  // ---------------------------------------------------------------------------
  // the scroll lock on document.body

  /** The page as the component sees it: provider state, `document.body.style.overflow`,
      and whether the component is mounted. */
  datatype Page = Page(popup: State, overflow: string, mounted: bool)

  function OverflowFor(isOpen: bool): string {
    if isOpen then "hidden" else ""
  }

  /** The body is "hidden" exactly while the mounted popup is open; otherwise its
      overflow is reset to "" — when closed and once unmounted. */
  predicate ScrollLockInvariant(pg: Page) {
    pg.overflow == (if pg.mounted && pg.popup.isOpen then "hidden" else "")
  }

  /** Mounting runs the overflow effect once. */
  function MountPage(s: State): (pg: Page)
    ensures pg.popup == s
    ensures pg.mounted && ScrollLockInvariant(pg)
  {
    Page(s, OverflowFor(s.isOpen), true)
  }

  /** A state change as the mounted component sees it: the overflow effect depends
      on `isOpen` only, so it runs (cleanup, then body) only when `isOpen` changed. */
  function Rerender(pg: Page, next: State): (r: Page)
    ensures r.popup == next && r.mounted == pg.mounted
    // the body keeps its style when `isOpen` did not change, and once unmounted
    ensures next.isOpen == pg.popup.isOpen || !pg.mounted ==> r.overflow == pg.overflow
    // a mounted page whose lock followed the old state follows the new one
    ensures pg.mounted && ScrollLockInvariant(pg) ==> ScrollLockInvariant(r)
    ensures pg.mounted && next.isOpen != pg.popup.isOpen ==> r.overflow == OverflowFor(next.isOpen)
  {
    if !pg.mounted || next.isOpen == pg.popup.isOpen then pg.(popup := next)
    else Page(next, OverflowFor(next.isOpen), true)
  }

  datatype HostAction = Dom(e: DomEvent) | Call(op: Op) | Unmount

  /** One thing happening to the page: a DOM event reaches the listeners only
      while mounted; a provider call can come from elsewhere at any time;
      unmounting runs the effect's cleanup. */
  function Act(pg: Page, a: HostAction): (r: Page)
    ensures a.Dom? && !pg.mounted ==> r == pg
    ensures a.Dom? && pg.mounted ==> r.popup == Dispatch(pg.popup, a.e) && r.mounted
    ensures a.Call? ==> r.popup == Apply(pg.popup, a.op) && r.mounted == pg.mounted
    ensures a.Unmount? ==> r.popup == pg.popup && !r.mounted && r.overflow == ""
    ensures ScrollLockInvariant(pg) ==> ScrollLockInvariant(r)
  {
    match a
    case Dom(e) => if pg.mounted then Rerender(pg, Dispatch(pg.popup, e)) else pg
    case Call(op) => Rerender(pg, Apply(pg.popup, op))
    case Unmount => pg.(overflow := "", mounted := false)
  }

  function ActAll(pg: Page, actions: seq<HostAction>): Page
    decreases |actions|
  {
    if |actions| == 0 then pg else ActAll(Act(pg, actions[0]), actions[1..])
  }

  /** Whatever happens — events, provider calls, unmounting — the lock follows `isOpen`
      and is released on close and on unmount. */
  lemma {:induction false} ScrollLockFollowsOpen(pg: Page, actions: seq<HostAction>)
    requires ScrollLockInvariant(pg)
    ensures ScrollLockInvariant(ActAll(pg, actions))
    decreases |actions|
  {
    if |actions| > 0 {
      ScrollLockFollowsOpen(Act(pg, actions[0]), actions[1..]);
    }
  }
}
