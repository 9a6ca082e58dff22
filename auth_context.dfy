/** The authentication provider of src/contexts/auth-context.tsx: the redirect it
    issues when the signed-in user changes, the "redirecting" screen it shows
    instead of its children, logout, and the useAuth guard. Router calls and the
    identity service's sign-out are recorded as effects, in the order issued. */
module AuthContext {
  import opened Wrappers
  import opened JsValues
  import opened Types

  /** A side effect on the outside world. */
  datatype Effect = SignOut | RemoveSession | Navigate(path: string)

  /** The pages a signed-in user is sent away from. */
  const PublicPaths: seq<string> := ["/agency/login", "/hotel/login", "/"]

  /** A claim used as a condition: absent and empty are falsy. */
  predicate ClaimTruthy(claim: Option<string>) {
    claim.Some? && claim.value != ""
  }

  /** A claim inserted into a template literal: absent prints as "undefined". */
  function ClaimText(claim: Option<string>): string {
    if claim.Some? then claim.value else "undefined"
  }

  /** The redirect issued for a freshly signed-in user with token claims `claims`
      on page `pathname`: an if / else-if chain, so at most one target. */
  function RedirectTarget(claims: Claims, pathname: string): (target: Option<string>)
    ensures target.Some? ==> claims.role == Some("agency") || claims.role == Some("hotelier")
    ensures target.Some? && claims.role == Some("agency") ==> target.value == "/admin"
  {
    var role := claims.role;
    if role == Some("agency") && !StartsWith(pathname, "/admin") then
      Some("/admin")
    else if role == Some("hotelier") && ClaimTruthy(claims.hotelId) && !StartsWith(pathname, "/dashboard") then
      Some("/dashboard/" + ClaimText(claims.hotelId))
    else if ClaimTruthy(role) && pathname in PublicPaths then
      if role == Some("agency") then Some("/admin")
      else if role == Some("hotelier") then Some("/dashboard/" + ClaimText(claims.hotelId))
      else None
    else
      None
  }

  /** The provider shows "Sie werden weitergeleitet..." instead of its children
      while loading, and while a user with a role is outside /admin and /dashboard. */
  predicate RedirectingScreen(loading: bool, signedIn: bool, claims: Option<Claims>, pathname: string): (shown: bool)
    ensures loading ==> shown
    ensures shown && !loading ==> signedIn && claims.Some? && !StartsWith(pathname, "/admin") && !StartsWith(pathname, "/dashboard")
  {
    || loading
    || (signedIn && claims.Some? && ClaimTruthy(claims.value.role)
        && !StartsWith(pathname, "/admin") && !StartsWith(pathname, "/dashboard"))
  }

  /** What logout does, in order: sign out, remove the session cookie, go home. */
  const LogoutEffects: seq<Effect> := [SignOut, RemoveSession, Navigate("/")]

  lemma NoPublicPathUnder(prefix: string)
    requires prefix == "/admin" || prefix == "/dashboard"
    ensures forall p :: p in PublicPaths ==> !StartsWith(p, prefix)
  {
    assert !StartsWith("/agency/login", prefix) by {
      assert "/agency/login"[2] != prefix[2];
    }
    assert !StartsWith("/hotel/login", prefix) by {
      assert "/hotel/login"[1] != prefix[1];
    }
  }

  /** The chain reduced to what it can actually do: its fallback never fires for
      an agency user (the first branch has already fired on every public page),
      and fires for a hotelier only when the hotelId claim is falsy. */
  lemma {:induction false} RedirectTargetCases(claims: Claims, pathname: string)
    ensures RedirectTarget(claims, pathname) ==
      if claims.role == Some("agency") then
        (if StartsWith(pathname, "/admin") then None else Some("/admin"))
      else if claims.role == Some("hotelier") &&
              (if ClaimTruthy(claims.hotelId) then !StartsWith(pathname, "/dashboard") else pathname in PublicPaths) then
        Some("/dashboard/" + ClaimText(claims.hotelId))
      else
        None
  {
    NoPublicPathUnder("/admin");
    NoPublicPathUnder("/dashboard");
  }

  /** An agency user is sent to /admin exactly when outside it. */
  lemma AgencyRedirect(claims: Claims, pathname: string)
    requires claims.role == Some("agency")
    ensures RedirectTarget(claims, pathname) == Some("/admin") <==> !StartsWith(pathname, "/admin")
    ensures RedirectTarget(claims, pathname).None? <==> StartsWith(pathname, "/admin")
  {
    RedirectTargetCases(claims, pathname);
  }

  /** A hotelier without a hotelId claim is sent from a public page to a dashboard
      path spelled with the missing claim: "/dashboard/undefined". */
  lemma HotelierWithoutHotelId(pathname: string)
    requires pathname in PublicPaths
    ensures RedirectTarget(Claims(Some("hotelier"), None), pathname) == Some("/dashboard/undefined")
  {
    RedirectTargetCases(Claims(Some("hotelier"), None), pathname);
    assert "/dashboard/" + ClaimText(None) == "/dashboard/undefined";
  }

  /** Claims as the role-assignment script writes them: "agency", or "hotelier"
      with a hotel id. */
  predicate WellFormed(claims: Claims) {
    claims.role == Some("agency") || (claims.role == Some("hotelier") && ClaimTruthy(claims.hotelId))
  }

  /** A redirect lands where no further redirect is issued and the redirecting
      screen is gone, so one redirect per change of user is enough. */
  lemma {:induction false} RedirectSettles(claims: Claims, pathname: string)
    requires RedirectTarget(claims, pathname).Some?
    ensures var target := RedirectTarget(claims, pathname).value;
      && RedirectTarget(claims, target).None?
      && !RedirectingScreen(false, true, Some(claims), target)
  {
    var target := RedirectTarget(claims, pathname).value;
    RedirectTargetCases(claims, pathname);
    RedirectTargetCases(claims, target);
    NoPublicPathUnder("/admin");
    NoPublicPathUnder("/dashboard");
    assert StartsWith(target, "/admin") || StartsWith(target, "/dashboard");
  }

  /** With well-formed claims the redirecting screen is only ever shown, once
      loading is over, on a page the user is then redirected away from. */
  lemma {:induction false} ScreenMeansRedirect(claims: Claims, pathname: string)
    requires WellFormed(claims)
    requires RedirectingScreen(false, true, Some(claims), pathname)
    ensures RedirectTarget(claims, pathname).Some?
  {
    RedirectTargetCases(claims, pathname);
  }

  /** Any other role keeps a signed-in user on the redirecting screen outside
      /admin and /dashboard with no redirect issued. */
  lemma {:induction false} UnknownRoleIsStuck(claims: Claims, pathname: string)
    requires ClaimTruthy(claims.role) && claims.role != Some("agency") && claims.role != Some("hotelier")
    requires !StartsWith(pathname, "/admin") && !StartsWith(pathname, "/dashboard")
    ensures RedirectingScreen(false, true, Some(claims), pathname)
    ensures RedirectTarget(claims, pathname).None?
  {
    RedirectTargetCases(claims, pathname);
  }

  /** What the provider hands to the components below it. */
  datatype AuthContextValue = AuthContextValue(user: Option<string>, claims: Option<Claims>, loading: bool)

  /** useAuth: outside a provider there is no context value and the hook throws. */
  function UseAuth(context: Option<AuthContextValue>): (r: Result<AuthContextValue, string>)
    ensures r.Err? <==> context.None?
    ensures r.Err? ==> r.error == "useAuth must be used within an AuthProvider"
    ensures r.Ok? ==> r.value == context.value
  {
    if context.None? then Err("useAuth must be used within an AuthProvider") else Ok(context.value)
  }

  /** The provider's state: the signed-in user (by uid), the token's claims, the
      loading flag, and the effects issued so far. */
  class AuthProvider {
    var user: Option<string>
    var claims: Option<Claims>
    var loading: bool
    var effects: seq<Effect>

    constructor ()
      ensures user == None && claims == None && loading && effects == []
    {
      user, claims, loading, effects := None, None, true, [];
    }

    /** The auth-state callback up to the await of the token: loading is set, and
        either the new user is recorded (the claims are still being fetched) or,
        with nobody signed in, user and claims are cleared and loading ends. */
    method AuthStateChanged(signedIn: Option<string>)
      modifies this
      ensures signedIn.None? ==> user == None && claims == None && !loading
      ensures signedIn.Some? ==> user == signedIn && claims == old(claims) && loading
      ensures effects == old(effects)
    {
      loading := true;
      if signedIn.Some? {
        user := signedIn;
      } else {
        user := None;
        claims := None;
        loading := false;
      }
    }

    /** The rest of the callback once the token's claims arrive: they are stored,
        at most one redirect is issued, and loading ends. */
    method TokenResolved(tokenClaims: Claims, pathname: string)
      requires loading && user.Some?
      modifies this
      ensures user == old(user) && claims == Some(tokenClaims) && !loading
      ensures RedirectTarget(tokenClaims, pathname).None? ==> effects == old(effects)
      ensures RedirectTarget(tokenClaims, pathname).Some? ==>
        effects == old(effects) + [Navigate(RedirectTarget(tokenClaims, pathname).value)]
    {
      claims := Some(tokenClaims);
      var role := tokenClaims.role;
      if role == Some("agency") && !StartsWith(pathname, "/admin") {
        effects := effects + [Navigate("/admin")];
      } else if role == Some("hotelier") && ClaimTruthy(tokenClaims.hotelId) && !StartsWith(pathname, "/dashboard") {
        effects := effects + [Navigate("/dashboard/" + ClaimText(tokenClaims.hotelId))];
      } else if ClaimTruthy(role) && pathname in PublicPaths {
        if role == Some("agency") {
          effects := effects + [Navigate("/admin")];
        } else if role == Some("hotelier") {
          effects := effects + [Navigate("/dashboard/" + ClaimText(tokenClaims.hotelId))];
        }
      }
      loading := false;
    }

    /** logout: sign out, then remove the session, then navigate to "/". */
    method Logout()
      modifies this
      ensures effects == old(effects) + LogoutEffects
      ensures user == old(user) && claims == old(claims) && loading == old(loading)
    {
      effects := effects + [SignOut];
      effects := effects + [RemoveSession];
      effects := effects + [Navigate("/")];
    }

    /** Whether the provider renders the redirecting screen on page `pathname`. */
    predicate ShowsRedirectingScreen(pathname: string)
      reads this
    {
      RedirectingScreen(loading, user.Some?, claims, pathname)
    }

    /** The context value children see; there are none while the screen is shown. */
    function Context(pathname: string): (context: Option<AuthContextValue>)
      reads this
      ensures context.Some? ==> !context.value.loading
      ensures context.None? <==> ShowsRedirectingScreen(pathname)
    {
      if ShowsRedirectingScreen(pathname) then None else Some(AuthContextValue(user, claims, loading))
    }
  }
}
