/** The sign-in page (app/routes/auth.tsx): where to go once signed in. */
module Auth {
  import opened Wrappers
  import opened Text
  import opened Records

  /**
   * `rawNext && rawNext.startsWith("/") && !rawNext.startsWith("//")`: only a
   * path on this site is accepted, never a protocol-relative URL.
   */
  predicate IsValidRedirect(rawNext: Option<string>)
  {
    rawNext.Some? && rawNext.value != "" && StartsWith(rawNext.value, "/") && !StartsWith(rawNext.value, "//")
  }

  /** The `next` search parameter if it is a valid redirect, otherwise "/". */
  function NextUrl(rawNext: Option<string>): (url: string)
    ensures IsValidRedirect(rawNext) ==> url == rawNext.value
    ensures !IsValidRedirect(rawNext) ==> url == "/"
    ensures StartsWith(url, "/") && !StartsWith(url, "//")
  {
    if IsValidRedirect(rawNext) then rawNext.value else "/"
  }

  /**
   * The check looks at the first two characters only: "/\evil.com", which
   * browsers read like "//evil.com", is kept as the target.
   */
  lemma BackslashTargetKept()
    ensures NextUrl(Some("/\\evil.com")) == "/\\evil.com"
  {
    assert "/\\evil.com"[..2] == ['/', '\\'];
  }

  /** A computed target passes the check again unchanged. */
  lemma NextUrlIdempotent(rawNext: Option<string>)
    ensures NextUrl(Some(NextUrl(rawNext))) == NextUrl(rawNext)
  {
  }

  /** The effect: once signed in, go to the target, replacing the history entry. */
  function AuthNavigation(isAuthenticated: bool, rawNext: Option<string>): (nav: Option<Navigation>)
    ensures nav.Some? <==> isAuthenticated
    ensures nav.Some? ==> nav.value == Navigation(NextUrl(rawNext), true)
  {
    if isAuthenticated then Some(Navigation(NextUrl(rawNext), true)) else None
  }

  datatype AuthButton = SigningIn | LogOut | LogIn

  function ButtonLabel(button: AuthButton): string
  {
    match button
    case SigningIn => "Signing you in..."
    case LogOut => "Log Out"
    case LogIn => "Log In"
  }

  /** Which button is shown: loading wins, then the signed-in state decides. */
  function Button(isLoading: bool, isAuthenticated: bool): (button: AuthButton)
    ensures button == SigningIn <==> isLoading
    ensures button == LogOut <==> !isLoading && isAuthenticated
    ensures button == LogIn <==> !isLoading && !isAuthenticated
    ensures ButtonLabel(button) == (if isLoading then "Signing you in..." else if isAuthenticated then "Log Out" else "Log In")
  {
    if isLoading then SigningIn else if isAuthenticated then LogOut else LogIn
  }
}
