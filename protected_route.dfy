/** The route guard of src/components/auth/protected-route.tsx: the decision its
    effect takes from the auth context and the route's requirements, the effects
    that decision issues, and the separate test that decides whether the guarded
    page is rendered. */
module ProtectedRoute {
  import opened Wrappers
  import opened Types
  import opened AuthContext

  /** The role a route demands. */
  datatype RequiredRole = AgencyRole | HotelierRole

  function RoleName(role: RequiredRole): string {
    match role
    case AgencyRole => "agency"
    case HotelierRole => "hotelier"
  }

  /** `claims?.role`: an absent claims object has no role. */
  function RoleOf(claims: Option<Claims>): Option<string> {
    if claims.Some? then claims.value.role else None
  }

  /** `claims?.hotelId`. */
  function HotelIdOf(claims: Option<Claims>): Option<string> {
    if claims.Some? then claims.value.hotelId else None
  }

  /** The effect's `isAuthorized` flag: it starts true, is cleared on a role
      mismatch, and, on hotelier routes, also on a hotelId mismatch. Comparisons
      are strict, so an absent required hotelId matches an absent claim. */
  predicate IsAuthorized(claims: Option<Claims>, requiredRole: RequiredRole, requiredHotelId: Option<string>): (ok: bool)
    ensures ok ==> claims.Some? && claims.value.role == Some(RoleName(requiredRole))
    ensures ok && requiredRole == HotelierRole ==> claims.value.hotelId == requiredHotelId
  {
    var afterRoleCheck := RoleOf(claims) == Some(RoleName(requiredRole));
    var afterHotelCheck := if requiredRole == HotelierRole && HotelIdOf(claims) != requiredHotelId then false else afterRoleCheck;
    afterHotelCheck
  }

  /** What the effect does on one run. */
  datatype Decision = Wait | RedirectToLogin | LogoutThenRedirect | Stay

  function Decide(loading: bool, signedIn: bool, claims: Option<Claims>, requiredRole: RequiredRole, requiredHotelId: Option<string>)
    : (d: Decision)
    ensures d == Wait <==> loading
    ensures d == RedirectToLogin <==> !loading && !signedIn
    ensures d == Stay <==> !loading && signedIn && IsAuthorized(claims, requiredRole, requiredHotelId)
  {
    if loading then Wait
    else if !signedIn then RedirectToLogin
    else if !IsAuthorized(claims, requiredRole, requiredHotelId) then LogoutThenRedirect
    else Stay
  }

  /** The effects a decision issues: logout runs to completion before the
      redirect to the login page. */
  function DecisionEffects(d: Decision, loginPath: string): (effects: seq<Effect>)
    ensures d == Wait || d == Stay ==> effects == []
    ensures d == RedirectToLogin ==> effects == [Navigate(loginPath)]
    ensures d == LogoutThenRedirect ==> |effects| == 4 && effects[..3] == LogoutEffects && effects[3] == Navigate(loginPath)
  {
    match d
    case Wait => []
    case RedirectToLogin => [Navigate(loginPath)]
    case LogoutThenRedirect => LogoutEffects + [Navigate(loginPath)]
    case Stay => []
  }

  /** The guarded page is rendered unless loading, signed out, or the role claim
      differs from the required role. The hotelId claim is not looked at. */
  predicate RendersChildren(loading: bool, signedIn: bool, claims: Option<Claims>, requiredRole: RequiredRole): (shown: bool)
    ensures shown ==> !loading && signedIn
    ensures shown ==> claims.Some? && claims.value.role == Some(RoleName(requiredRole))
  {
    !(loading || !signedIn || RoleOf(claims) != Some(RoleName(requiredRole)))
  }

  /** The authorization rule: the role claim equals the required role and, on a
      hotelier route, the hotelId claim equals the required hotel id; on an agency
      route the hotelId claim plays no part. */
  lemma AuthorizationRule(claims: Option<Claims>, requiredRole: RequiredRole, requiredHotelId: Option<string>)
    ensures IsAuthorized(claims, requiredRole, requiredHotelId) <==>
      claims.Some? && claims.value.role == Some(RoleName(requiredRole)) &&
      (requiredRole == HotelierRole ==> claims.value.hotelId == requiredHotelId)
    ensures requiredRole == AgencyRole ==>
      forall h :: IsAuthorized(claims, requiredRole, h) == IsAuthorized(claims, requiredRole, requiredHotelId)
  {
  }

  /** Without a claims object nobody is authorized, on any route. */
  lemma AbsentClaimsNeverAuthorized(requiredRole: RequiredRole, requiredHotelId: Option<string>)
    ensures !IsAuthorized(None, requiredRole, requiredHotelId)
    ensures !RendersChildren(false, true, None, requiredRole)
  {
  }

  /** While loading nothing happens; signed out, the guard only redirects and
      never logs out. */
  lemma {:induction false} SignedOutOrLoading(signedIn: bool, claims: Option<Claims>, requiredRole: RequiredRole, requiredHotelId: Option<string>, loginPath: string)
    ensures DecisionEffects(Decide(true, signedIn, claims, requiredRole, requiredHotelId), loginPath) == []
    ensures DecisionEffects(Decide(false, false, claims, requiredRole, requiredHotelId), loginPath) == [Navigate(loginPath)]
    ensures SignOut !in DecisionEffects(Decide(false, false, claims, requiredRole, requiredHotelId), loginPath)
  {
  }

  /** An unauthorized user is signed out before any navigation, and the last
      navigation is to the login page (logout's own navigation to "/" comes first). */
  lemma {:induction false} UnauthorizedLogsOutFirst(claims: Option<Claims>, requiredRole: RequiredRole, requiredHotelId: Option<string>, loginPath: string)
    requires !IsAuthorized(claims, requiredRole, requiredHotelId)
    ensures var effects := DecisionEffects(Decide(false, true, claims, requiredRole, requiredHotelId), loginPath);
      && effects[0] == SignOut
      && (forall i :: 0 <= i < |effects| && effects[i].Navigate? ==> 0 < i)
      && effects[|effects| - 1] == Navigate(loginPath)
  {
    var effects := DecisionEffects(Decide(false, true, claims, requiredRole, requiredHotelId), loginPath);
    assert effects == [SignOut, RemoveSession, Navigate("/"), Navigate(loginPath)];
  }

  /** The render test is weaker than authorization: every authorized state
      renders, and the states that render without being authorized are exactly
      those of a hotelier route whose role matches but whose hotelId claim does
      not, where the page is shown while logout is under way. */
  lemma {:induction false} RenderGateIgnoresHotelId(loading: bool, signedIn: bool, claims: Option<Claims>, requiredRole: RequiredRole, requiredHotelId: Option<string>)
    ensures Decide(loading, signedIn, claims, requiredRole, requiredHotelId) == Stay ==>
      RendersChildren(loading, signedIn, claims, requiredRole)
    ensures RendersChildren(loading, signedIn, claims, requiredRole) &&
            Decide(loading, signedIn, claims, requiredRole, requiredHotelId) != Stay
      <==> && !loading && signedIn && requiredRole == HotelierRole
           && RoleOf(claims) == Some("hotelier") && HotelIdOf(claims) != requiredHotelId
    ensures RendersChildren(loading, signedIn, claims, requiredRole) &&
            Decide(loading, signedIn, claims, requiredRole, requiredHotelId) != Stay ==>
      Decide(loading, signedIn, claims, requiredRole, requiredHotelId) == LogoutThenRedirect
  {
    AuthorizationRule(claims, requiredRole, requiredHotelId);
  }

  /** Under the provider the guard never waits: the provider shows its own
      screen, not its children, while loading. */
  lemma GuardUnderProviderNeverWaits(p: AuthProvider, pathname: string, requiredRole: RequiredRole, requiredHotelId: Option<string>)
    requires p.Context(pathname).Some?
    ensures var c := p.Context(pathname).value;
      Decide(c.loading, c.user.Some?, c.claims, requiredRole, requiredHotelId) != Wait
  {
  }
}
