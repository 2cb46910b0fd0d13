/** The server hook of hooks.server.ts: the guard in front of every `/admin` route. */
module Hooks {
  import opened Wrappers
  import opened Text
  import opened Kit

  const ADMIN_PREFIX: string := "/admin"
  const LOGIN_PATH: string := "/admin/login"

  /**
   * `handle` (hooks.server.ts:5-26) for a request path and the `admin_session` cookie:
   * `Render(())` passes the request on, otherwise it is sent to the login page. Only paths
   * that start with "/admin", other than the login page itself, and only without the cookie
   * value "1", are redirected.
   */
  function Handle(pathname: string, adminSession: Option<string>): (r: Outcome<()>)
    ensures r == Render(()) || r == Redirect(303, LOGIN_PATH)
    ensures r.Redirect? <==> StartsWith(pathname, ADMIN_PREFIX) && pathname != LOGIN_PATH && adminSession != Some("1")
  {
    if StartsWith(pathname, ADMIN_PREFIX) then
      if pathname == LOGIN_PATH then Render(())
      else if !Truthy(adminSession) || adminSession.value != "1" then Redirect(303, LOGIN_PATH)
      else Render(())
    else Render(())
  }

  /** The guard is a plain prefix test: "/administrator" and "/admin-tools" are guarded too, "/" is not. */
  lemma PrefixGuardExamples()
    ensures Handle("/administrator", None) == Redirect(303, LOGIN_PATH)
    ensures Handle("/admin-tools", Some("0")) == Redirect(303, LOGIN_PATH)
    ensures Handle("/admin", Some("1")) == Render(())
    ensures Handle("/", None) == Render(())
  {
    assert "/administrator"[..6] == ADMIN_PREFIX;
    assert "/admin-tools"[..6] == ADMIN_PREFIX;
  }

  /** The redirect never loops: the login page it points at is always let through. */
  lemma RedirectTargetIsOpen(pathname: string, adminSession: Option<string>, cookieThere: Option<string>)
    requires Handle(pathname, adminSession).Redirect?
    ensures Handle(Handle(pathname, adminSession).location, cookieThere) == Render(())
  {
  }
}
