/** The browser cookie store, as an in-memory map from cookie name to a value
    and a lifetime in days. Expiry itself is not modelled: a cookie is present
    until it is overwritten or cleared. */
module Cookies {
  import opened Common

  datatype Cookie = Cookie(value: string, days: int)

  type Jar = map<string, Cookie>

  /** The value stored under `name`, if any (`getCookie`). */
  function Get(jar: Jar, name: string): Option<string> {
    if name in jar then Some(jar[name].value) else None
  }

  /** Writes `name = value` with a lifetime of `days` (`setCookie`). */
  function Set(jar: Jar, name: string, value: string, days: int): (r: Jar)
    ensures name in r && r[name] == Cookie(value, days)
    ensures forall n :: n in jar && n != name ==> n in r && r[n] == jar[n]
    ensures r.Keys == jar.Keys + {name}
  {
    jar[name := Cookie(value, days)]
  }

  /** Removes `name` (`clearPopupCookie` on the suppression cookie). */
  function Clear(jar: Jar, name: string): (r: Jar)
    ensures forall n :: n in r ==> n in jar && r[n] == jar[n]
    ensures r.Keys == jar.Keys - {name}
  {
    jar - {name}
  }
}
