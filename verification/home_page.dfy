/** The demo page: on mount it merges its config over the provider's and arms
    a 2000 ms timer that calls `showPopUp`; unmounting clears the timer. It
    hands the provider's content to `PopUp` unchanged. The timer is an explicit
    event, not real time. */
module HomePage {
  import opened Common
  import Cookies
  import opened PopUpContext
  import PopUpView
  import WidgetPayment
  import PaymentIntent

  /** The literal the page passes to `setTimeout`; `config.delay` is never read. */
  const AutoShowDelayMs: nat := 2000

  const MountPatch := ConfigPatch(None, Some(1), Some(2000), Some(true))

  datatype Timer = Armed(ms: nat) | Fired | Cleared

  datatype Home = Home(popup: State, timer: Timer)

  /** The commit that mounts the page. Child effects run before parent effects, so
      the page's config update is queued first; the provider's cookie check then
      runs with the config of that render, and runs again on the next render if
      `cookieName` or `enableCookies` changed. */
  function MountEffects(s: State): State {
    var checked := InitCheck(s);
    var merged := UpdateConfig(checked, MountPatch);
    if InitCheckDepsChanged(s.config, merged.config) then InitCheck(merged) else merged
  }

  /** The effect order does not matter: mounting is the merge followed by one cookie check. */
  lemma MountEffectsOrder(s: State)
    ensures MountEffects(s) == InitCheck(UpdateConfig(s, MountPatch))
  {
  }

  /** The first commit, in which the provider and the page mount together. The
      provider's first render is closed, so its cookie check has nothing to close:
      the page ends with the merged config, still closed, and the timer armed. */
  function Mount(s: State): (h: Home)
    requires !s.isOpen
    ensures h.timer == Armed(AutoShowDelayMs)
    ensures h.popup.config == s.config.(delay := 2000, enableCookies := true, cookieDuration := 1)
    ensures h.popup.config.cookieName == s.config.cookieName
    ensures h.popup.content == s.content && h.popup.cookies == s.cookies
    ensures !h.popup.isOpen
    ensures h.popup == UpdateConfig(s, MountPatch)
  {
    MountEffectsOrder(s);
    Home(MountEffects(s), Armed(AutoShowDelayMs))
  }

  /** The page mounting again under a provider that is already live (a route
      change back to it). Only the page's effect runs; the provider's cookie check
      re-runs only if the merge changed `cookieName` or `enableCookies`. */
  function Remount(s: State): (h: Home)
    ensures h.timer == Armed(AutoShowDelayMs)
    ensures h.popup.config == s.config.(delay := 2000, enableCookies := true, cookieDuration := 1)
    ensures h.popup.content == s.content && h.popup.cookies == s.cookies
    ensures h.popup.isOpen ==> s.isOpen
    // an open popup is closed only when the check re-runs and finds the cookie
    ensures h.popup.isOpen != s.isOpen <==> s.isOpen && !s.config.enableCookies && Suppressed(h.popup)
  {
    var merged := UpdateConfig(s, MountPatch);
    var popup := if InitCheckDepsChanged(s.config, merged.config) then InitCheck(merged) else merged;
    Home(popup, Armed(AutoShowDelayMs))
  }

  /** Under a live provider with cookies already enabled, a remount leaves an open
      popup open even when the suppression cookie is set. */
  lemma RemountKeepsOpen(s: State)
    requires s.isOpen && s.config.enableCookies
    requires Cookies.Get(s.cookies, s.config.cookieName) == Some(Sentinel)
    ensures Suppressed(Remount(s).popup)
    ensures Remount(s).popup.isOpen
  {
  }

  /** The timer's callback: `showPopUp`, if the timer is still armed. */
  function TimerFires(h: Home): (r: Home)
    ensures h.timer.Armed? ==> r.popup == Show(h.popup) && r.timer == Fired
    ensures !h.timer.Armed? ==> r == h
  {
    if h.timer.Armed? then Home(Show(h.popup), Fired) else h
  }

  /** The effect's cleanup: `clearTimeout`. */
  function Unmount(h: Home): (r: Home)
    ensures r.popup == h.popup
    ensures !r.timer.Armed?
    ensures h.timer.Armed? ==> r.timer == Cleared
  {
    if h.timer.Armed? then h.(timer := Cleared) else h
  }

  /** The auto-show ignores the suppression cookie: even with the cookie set at
      mount, the popup is closed after mount and open once the timer fires. */
  lemma AutoShowIgnoresCookie(jar: Cookies.Jar)
    requires Cookies.Get(jar, "popupShown") == Some(Sentinel)
    ensures Suppressed(Mount(Initial(jar)).popup)
    ensures !Mount(Initial(jar)).popup.isOpen
    ensures TimerFires(Mount(Initial(jar))).popup.isOpen
  {
  }

  /** Whether the page mounts with the provider or under a live one, the fired
      timer leaves the popup open with the page's config. */
  lemma AutoShowAlwaysOpens(s: State)
    ensures !s.isOpen ==> TimerFires(Mount(s)).popup.isOpen
    ensures !s.isOpen ==> TimerFires(Mount(s)).popup.config.cookieDuration == 1
    ensures TimerFires(Remount(s)).popup.isOpen
    ensures TimerFires(Remount(s)).popup.config.cookieDuration == 1
    ensures !s.isOpen ==> TimerFires(Mount(s)).popup.config == Mount(s).popup.config
    ensures TimerFires(Remount(s)).popup.config == Remount(s).popup.config
  {
  }

  function FireTimes(h: Home, n: nat): Home
    decreases n
  {
    if n == 0 then h else FireTimes(TimerFires(h), n - 1)
  }

  /** Unmounting before the timer fires means `showPopUp` is never called by it. */
  lemma {:induction false} UnmountCancelsAutoShow(h: Home, n: nat)
    ensures FireTimes(Unmount(h), n).popup == h.popup
    decreases n
  {
    if n > 0 {
      UnmountCancelsAutoShow(h, n - 1);
      assert TimerFires(Unmount(h)) == Unmount(h);
    }
  }

  /** The props the page gives `PopUp`: the provider's content, field for field. */
  function PopUpProps(c: Content): (p: PopUpView.Props)
    ensures p.title == c.title && p.description == c.description && p.price == c.price
    ensures p.discount == c.discount && p.imageSrc == c.imageSrc && p.amount == c.amount
  {
    PopUpView.Props(c.title, c.description, c.price, c.discount, c.imageSrc, c.amount)
  }

  /** Once the popup is open, its pay button posts the provider's content amount
      to the default endpoint, and the default amount passes the server's check. */
  lemma PayPostsContentAmount(h: Home)
    requires h.popup.isOpen
    ensures var v := PopUpView.Render(h.popup, PopUpProps(h.popup.content));
            && v.Some?
            && WidgetPayment.PayBegin(v.value.payment, WidgetPayment.InitialState).effects
               == [WidgetPayment.Post("/api/create-payment-intent", PaymentIntent.Num(h.popup.content.amount as real))]
    ensures h.popup.content == DefaultContent ==>
              PaymentIntent.AmountPasses(PaymentIntent.Num(h.popup.content.amount as real))
  {
  }
}
