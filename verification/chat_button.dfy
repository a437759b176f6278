/** The floating chat button: a click clears the suppression cookie and then
    opens the popup. Which cookie `clearPopupCookie` removes is not visible
    here, so its name is a parameter. */
module ChatButton {
  import opened Common
  import Cookies
  import opened PopUpContext

  /** The button's `onClick`. */
  function Click(s: State, suppressionCookie: string): (r: State)
    ensures r.isOpen
    ensures r.cookies == s.cookies - {suppressionCookie}
    ensures r.config == s.config && r.content == s.content
  {
    Show(s.(cookies := Cookies.Clear(s.cookies, suppressionCookie)))
  }

  /** The popup opens whatever it was before and whatever the cookie held. */
  lemma ClickOpensRegardless(s1: State, s2: State, name: string)
    requires s1.config == s2.config && s1.content == s2.content
    requires s1.cookies - {name} == s2.cookies - {name}
    ensures Click(s1, name) == Click(s2, name)
  {
  }

  /** After a click the suppression cookie stays absent through any calls other
      than `hidePopUp`. */
  lemma AbsentUntilHide(s: State, name: string, ops: seq<Op>)
    requires NoHide(ops)
    ensures Cookies.Get(Run(Click(s, name), ops).cookies, name) == None
    ensures Run(Click(s, name), ops).cookies == Click(s, name).cookies
  {
    OnlyHideWritesCookies(Click(s, name), ops);
  }

  /** When the cleared cookie is the configured one, the next hide writes it back. */
  lemma HideRestoresSuppression(s: State)
    requires s.config.enableCookies
    ensures !Suppressed(Click(s, s.config.cookieName))
    ensures Suppressed(Hide(Click(s, s.config.cookieName)))
  {
  }
}
