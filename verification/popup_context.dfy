/** The popup provider: whether the popup is open, its configuration and
    content, and the cookie store it reads and writes. Every operation of the
    provider is a pure transition on `State`. */
module PopUpContext {
  import opened Common
  import Cookies

  /** The value `hidePopUp` stores in the suppression cookie and the init check compares against. */
  const Sentinel := "true"

  datatype Config = Config(cookieName: string, cookieDuration: int, delay: int, enableCookies: bool)

  datatype Content = Content(
    title: string,
    description: string,
    price: string,
    discount: Option<string>,
    imageSrc: Option<string>,
    amount: int)

  datatype State = State(isOpen: bool, config: Config, content: Content, cookies: Cookies.Jar)

  const DefaultConfig := Config("popupShown", 7, 2000, true)

  const DefaultContent := Content(
    "Let us do all the work for you!",
    "I could register your @username across 16 platforms and set up your profiles. I'll reach out instantly after payment to discuss everything.",
    "$100",
    Some("$160"),
    Some("https://images.unsplash.com/photo-1551434678-e076c223a692?ixlib=rb-4.0.3&ixid=M3wxMjA3fDB8MHxwaG90by1wYWdlfHx8fGVufDB8fHx8fA%3D%3D&auto=format&fit=crop&w=800&q=80"),
    10000)

  /** The provider's state on its first render, over whatever cookies the browser holds. */
  function Initial(jar: Cookies.Jar): State {
    State(false, DefaultConfig, DefaultContent, jar)
  }

  lemma InitialDefaults(jar: Cookies.Jar)
    ensures !Initial(jar).isOpen
    ensures Initial(jar).config.cookieName == "popupShown"
    ensures Initial(jar).config.cookieDuration == 7
    ensures Initial(jar).config.delay == 2000
    ensures Initial(jar).config.enableCookies
    ensures Initial(jar).content.amount == 10000
    ensures Initial(jar).cookies == jar
  {
  }

  // ---------------------------------------------------------------------------
  // show / hide

  /** `showPopUp`: opens the popup and touches nothing else; the cookie is not read. */
  function Show(s: State): (r: State)
    ensures r.isOpen
    ensures r.(isOpen := s.isOpen) == s
  {
    s.(isOpen := true)
  }

  /** `hidePopUp`: closes the popup and, when cookies are enabled, remembers that
      it was shown by writing the sentinel under the configured name. */
  function Hide(s: State): (r: State)
    ensures !r.isOpen
    ensures r.config == s.config && r.content == s.content
    ensures s.config.enableCookies ==>
              r.cookies == s.cookies[s.config.cookieName := Cookies.Cookie(Sentinel, s.config.cookieDuration)]
    ensures !s.config.enableCookies ==> r.cookies == s.cookies
  {
    var jar := if s.config.enableCookies
               then Cookies.Set(s.cookies, s.config.cookieName, Sentinel, s.config.cookieDuration)
               else s.cookies;
    s.(isOpen := false, cookies := jar)
  }

  /** Whether the init check would keep the popup closed: cookies are enabled and
      the configured cookie holds the sentinel. */
  predicate Suppressed(s: State) {
    s.config.enableCookies && Cookies.Get(s.cookies, s.config.cookieName) == Some(Sentinel)
  }

  /** The cookie is never consulted by `Show`: two states that differ only in
      their cookies open identically and keep their cookies. */
  lemma ShowIgnoresCookies(s: State, jar1: Cookies.Jar, jar2: Cookies.Jar)
    ensures Show(s.(cookies := jar1)).isOpen && Show(s.(cookies := jar2)).isOpen
    ensures Show(s.(cookies := jar1)).(cookies := jar2) == Show(s.(cookies := jar2))
  {
  }

  /** Even a suppressed popup opens on `Show`, and stays suppressed for the next load. */
  lemma ShowOpensSuppressed(s: State)
    requires Suppressed(s)
    ensures Show(s).isOpen && Suppressed(Show(s))
  {
  }

  lemma ShowIdempotent(s: State)
    ensures Show(Show(s)) == Show(s)
  {
  }

  /** Calling `hidePopUp` twice writes the same cookie once more: no observable difference. */
  lemma HideIdempotent(s: State)
    ensures Hide(Hide(s)) == Hide(s)
  {
  }

  /** `Hide` with cookies enabled is what makes the next init check suppress the popup. */
  lemma HideSuppresses(s: State)
    ensures Suppressed(Hide(s)) <==> s.config.enableCookies
  {
  }

  // ---------------------------------------------------------------------------
  // partial updates

  /** A `Partial<PopUpConfig>`: `None` means the key is not supplied. */
  datatype ConfigPatch = ConfigPatch(
    cookieName: Option<string>,
    cookieDuration: Option<int>,
    delay: Option<int>,
    enableCookies: Option<bool>)

  const EmptyConfigPatch := ConfigPatch(None, None, None, None)

  /** A `Partial<PopUpContent>`. For the optional fields `Some(None)` supplies
      the key with the value `undefined`, which clears the field. */
  datatype ContentPatch = ContentPatch(
    title: Option<string>,
    description: Option<string>,
    price: Option<string>,
    discount: Option<Option<string>>,
    imageSrc: Option<Option<string>>,
    amount: Option<int>)

  const EmptyContentPatch := ContentPatch(None, None, None, None, None, None)

  /** `{ ...prev, ...patch }` on the configuration. */
  function MergeConfig(c: Config, p: ConfigPatch): Config {
    Config(
      p.cookieName.GetOr(c.cookieName),
      p.cookieDuration.GetOr(c.cookieDuration),
      p.delay.GetOr(c.delay),
      p.enableCookies.GetOr(c.enableCookies))
  }

  /** `{ ...prev, ...patch }` on the content. */
  function MergeContent(c: Content, p: ContentPatch): Content {
    Content(
      p.title.GetOr(c.title),
      p.description.GetOr(c.description),
      p.price.GetOr(c.price),
      p.discount.GetOr(c.discount),
      p.imageSrc.GetOr(c.imageSrc),
      p.amount.GetOr(c.amount))
  }

  /** `updatePopUpConfig`: each supplied field takes its new value, every other
      field keeps its old one, and nothing outside the configuration changes. */
  function UpdateConfig(s: State, p: ConfigPatch): (r: State)
    ensures r.config.cookieName == (if p.cookieName.Some? then p.cookieName.value else s.config.cookieName)
    ensures r.config.cookieDuration == (if p.cookieDuration.Some? then p.cookieDuration.value else s.config.cookieDuration)
    ensures r.config.delay == (if p.delay.Some? then p.delay.value else s.config.delay)
    ensures r.config.enableCookies == (if p.enableCookies.Some? then p.enableCookies.value else s.config.enableCookies)
    ensures r.(config := s.config) == s
  {
    s.(config := MergeConfig(s.config, p))
  }

  /** `updatePopUpContent`: the same field-wise merge over the content. */
  function UpdateContent(s: State, p: ContentPatch): (r: State)
    ensures r.content.title == (if p.title.Some? then p.title.value else s.content.title)
    ensures r.content.description == (if p.description.Some? then p.description.value else s.content.description)
    ensures r.content.price == (if p.price.Some? then p.price.value else s.content.price)
    ensures r.content.discount == (if p.discount.Some? then p.discount.value else s.content.discount)
    ensures r.content.imageSrc == (if p.imageSrc.Some? then p.imageSrc.value else s.content.imageSrc)
    ensures r.content.amount == (if p.amount.Some? then p.amount.value else s.content.amount)
    ensures r.(content := s.content) == s
  {
    s.(content := MergeContent(s.content, p))
  }

  /** The patch equivalent to applying `p` and then `q`: `q` wins where both supply a field. */
  function ThenConfig(p: ConfigPatch, q: ConfigPatch): ConfigPatch {
    ConfigPatch(
      if q.cookieName.Some? then q.cookieName else p.cookieName,
      if q.cookieDuration.Some? then q.cookieDuration else p.cookieDuration,
      if q.delay.Some? then q.delay else p.delay,
      if q.enableCookies.Some? then q.enableCookies else p.enableCookies)
  }

  function ThenContent(p: ContentPatch, q: ContentPatch): ContentPatch {
    ContentPatch(
      if q.title.Some? then q.title else p.title,
      if q.description.Some? then q.description else p.description,
      if q.price.Some? then q.price else p.price,
      if q.discount.Some? then q.discount else p.discount,
      if q.imageSrc.Some? then q.imageSrc else p.imageSrc,
      if q.amount.Some? then q.amount else p.amount)
  }

  /** Two successive config updates are one update with the later patch laid over the earlier. */
  lemma UpdateConfigThen(s: State, p: ConfigPatch, q: ConfigPatch)
    ensures UpdateConfig(UpdateConfig(s, p), q) == UpdateConfig(s, ThenConfig(p, q))
  {
  }

  lemma UpdateContentThen(s: State, p: ContentPatch, q: ContentPatch)
    ensures UpdateContent(UpdateContent(s, p), q) == UpdateContent(s, ThenContent(p, q))
  {
  }

  /** Re-applying the same patch changes nothing further; an empty patch changes nothing at all. */
  lemma UpdateConfigIdempotent(s: State, p: ConfigPatch)
    ensures UpdateConfig(UpdateConfig(s, p), p) == UpdateConfig(s, p)
    ensures UpdateConfig(s, EmptyConfigPatch) == s
  {
  }

  lemma UpdateContentIdempotent(s: State, p: ContentPatch)
    ensures UpdateContent(UpdateContent(s, p), p) == UpdateContent(s, p)
    ensures UpdateContent(s, EmptyContentPatch) == s
  {
  }

  // ---------------------------------------------------------------------------
  // the cookie check on initial render

  /** The provider's mount effect: when cookies are enabled and the configured
      cookie equals the sentinel, force the popup closed; otherwise do nothing. */
  function InitCheck(s: State): (r: State)
    ensures r.isOpen ==> s.isOpen
    ensures r.isOpen != s.isOpen <==> s.isOpen && Suppressed(s)
    ensures r.(isOpen := s.isOpen) == s
  {
    if s.config.enableCookies && Cookies.Get(s.cookies, s.config.cookieName) == Some(Sentinel)
    then s.(isOpen := false)
    else s
  }

  /** The check re-runs only when `cookieName` or `enableCookies` changes. */
  predicate InitCheckDepsChanged(before: Config, after: Config) {
    before.cookieName != after.cookieName || before.enableCookies != after.enableCookies
  }

  /** After a hide with cookies enabled, the init check of the next page load keeps the popup closed. */
  lemma InitCheckAfterHide(s: State)
    requires s.config.enableCookies
    ensures InitCheck(Hide(s)) == Hide(s)
    ensures !InitCheck(Show(Hide(s))).isOpen
  {
  }

  // ---------------------------------------------------------------------------
  // sequences of calls on the provider

  datatype Op = ShowOp | HideOp | ConfigOp(cp: ConfigPatch) | ContentOp(tp: ContentPatch) | InitOp

  function Apply(s: State, op: Op): State {
    match op
    case ShowOp => Show(s)
    case HideOp => Hide(s)
    case ConfigOp(p) => UpdateConfig(s, p)
    case ContentOp(p) => UpdateContent(s, p)
    case InitOp => InitCheck(s)
  }

  /** Applies `ops` in order, first element first. */
  function Run(s: State, ops: seq<Op>): State
    decreases |ops|
  {
    if |ops| == 0 then s else Run(Apply(s, ops[0]), ops[1..])
  }

  predicate ShowHideOnly(ops: seq<Op>) {
    forall i :: 0 <= i < |ops| ==> ops[i].ShowOp? || ops[i].HideOp?
  }

  /** Dropping the first call of a show/hide-only sequence leaves one. */
  lemma ShowHideOnlyTail(ops: seq<Op>)
    requires |ops| > 0 && ShowHideOnly(ops)
    ensures ShowHideOnly(ops[1..])
  {
    forall i | 0 <= i < |ops[1..]| ensures ops[1..][i].ShowOp? || ops[1..][i].HideOp? {
      assert ops[1..][i] == ops[i + 1];
    }
  }

  /** After a sequence of show and hide calls the popup is open exactly when the
      last call was a show; with no calls it keeps its state. */
  lemma {:induction false} LastCallDecides(s: State, ops: seq<Op>)
    requires ShowHideOnly(ops)
    ensures Run(s, ops).isOpen <==> if |ops| == 0 then s.isOpen else ops[|ops| - 1].ShowOp?
    decreases |ops|
  {
    if |ops| > 0 {
      ShowHideOnlyTail(ops);
      LastCallDecides(Apply(s, ops[0]), ops[1..]);
      if |ops| > 1 {
        assert ops[1..][|ops[1..]| - 1] == ops[|ops| - 1];
      }
    }
  }

  /** From the provider's first render: open iff the last call was a show, closed with no calls. */
  lemma OpenIffLastShow(jar: Cookies.Jar, ops: seq<Op>)
    requires ShowHideOnly(ops)
    ensures Run(Initial(jar), ops).isOpen <==> |ops| > 0 && ops[|ops| - 1].ShowOp?
  {
    LastCallDecides(Initial(jar), ops);
  }

  /** Show and hide calls never change the configuration or the content. */
  lemma {:induction false} ShowHideKeepConfigAndContent(s: State, ops: seq<Op>)
    requires ShowHideOnly(ops)
    ensures Run(s, ops).config == s.config && Run(s, ops).content == s.content
    decreases |ops|
  {
    if |ops| > 0 {
      ShowHideOnlyTail(ops);
      ShowHideKeepConfigAndContent(Apply(s, ops[0]), ops[1..]);
    }
  }

  predicate NoHide(ops: seq<Op>) {
    forall i :: 0 <= i < |ops| ==> !ops[i].HideOp?
  }

  /** Only `hidePopUp` writes cookies: any run of the other calls leaves the store as it was. */
  lemma {:induction false} OnlyHideWritesCookies(s: State, ops: seq<Op>)
    requires NoHide(ops)
    ensures Run(s, ops).cookies == s.cookies
    decreases |ops|
  {
    if |ops| > 0 {
      assert NoHide(ops[1..]) by {
        forall i | 0 <= i < |ops[1..]| ensures !ops[1..][i].HideOp? {
          assert ops[1..][i] == ops[i + 1];
        }
      }
      assert !ops[0].HideOp?;
      OnlyHideWritesCookies(Apply(s, ops[0]), ops[1..]);
    }
  }
}
