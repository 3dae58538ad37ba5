/**
 * The web app's `ProtectedRoute`: what a guarded page shows, decided from the
 * authentication state and the route's two requirement flags.
 */
module RouteGuard {
  import opened Wrappers
  import opened Js

  /** The part of the signed-in user the guard reads. */
  datatype AuthUser = AuthUser(emailConfirmedAt: Option<string>)

  /** The loading placeholder, a replacing redirect carrying the current location, or the nested routes. */
  datatype View = LoadingView | Redirect(to: string, from: string) | OutletView

  const LoginPath := "/login"
  const VerifyEmailPath := "/verify-email"
  const SetupPath := "/setup"

  /** A flag with a destructuring default: only an absent value takes the default. */
  function FlagOr(flag: Option<bool>, default: bool): bool {
    if flag.Some? then flag.value else default
  }

  /** Whether a signed-in user meets the route's requirements (email confirmation by default, Google access on request). */
  predicate Admits(requireGoogle: Option<bool>, requireEmailConfirmation: Option<bool>, user: AuthUser, hasGoogleAccess: bool) {
    (FlagOr(requireEmailConfirmation, true) ==> Truthy(user.emailConfirmedAt)) &&
    (FlagOr(requireGoogle, false) ==> hasGoogleAccess)
  }

  /** The guard's chain of checks: loading, then signed in, then email, then Google. */
  function ProtectedRoute(requireGoogle: Option<bool>, requireEmailConfirmation: Option<bool>,
                          loading: bool, user: Option<AuthUser>, hasGoogleAccess: bool, location: string): (v: View)
    ensures loading ==> v == LoadingView
    ensures !loading && user.None? ==> v == Redirect(LoginPath, location)
    ensures v == OutletView <==>
      !loading && user.Some? && Admits(requireGoogle, requireEmailConfirmation, user.value, hasGoogleAccess)
    ensures v.Redirect? ==> v.from == location && v.to in {LoginPath, VerifyEmailPath, SetupPath}
    ensures !loading && user.Some? && FlagOr(requireEmailConfirmation, true) && !Truthy(user.value.emailConfirmedAt) ==>
      v == Redirect(VerifyEmailPath, location)
    ensures (&& !loading && user.Some? && FlagOr(requireGoogle, false) && !hasGoogleAccess
             && (FlagOr(requireEmailConfirmation, true) ==> Truthy(user.value.emailConfirmedAt))) ==>
      v == Redirect(SetupPath, location)
    ensures v.Redirect? && v.to == LoginPath ==> !loading && user.None?
    ensures v.Redirect? && v.to == VerifyEmailPath ==>
      user.Some? && FlagOr(requireEmailConfirmation, true) && !Truthy(user.value.emailConfirmedAt)
  {
    if loading then LoadingView
    else if user.None? then Redirect(LoginPath, location)
    else if FlagOr(requireEmailConfirmation, true) && !Truthy(user.value.emailConfirmedAt) then Redirect(VerifyEmailPath, location)
    else if FlagOr(requireGoogle, false) && !hasGoogleAccess then Redirect(SetupPath, location)
    else OutletView
  }

  /** With the default flags, an unconfirmed user is sent to verify their email. */
  lemma DefaultRequiresConfirmation(user: AuthUser, hasGoogleAccess: bool, location: string)
    requires !Truthy(user.emailConfirmedAt)
    ensures ProtectedRoute(None, None, false, Some(user), hasGoogleAccess, location) == Redirect(VerifyEmailPath, location)
  {
  }

  /** With the default flags, Google access is not needed. */
  lemma DefaultIgnoresGoogle(user: AuthUser, location: string)
    requires Truthy(user.emailConfirmedAt)
    ensures ProtectedRoute(None, None, false, Some(user), false, location) == OutletView
  {
  }

  /** The email check comes first: an unconfirmed user without Google access goes to /verify-email, not /setup. */
  lemma EmailCheckedBeforeGoogle(user: AuthUser, location: string)
    requires !Truthy(user.emailConfirmedAt)
    ensures ProtectedRoute(Some(true), None, false, Some(user), false, location) == Redirect(VerifyEmailPath, location)
  {
  }

  /** A redirect to /setup happens only when Google access is required and missing, after the other checks passed. */
  lemma SetupRedirectMeansNoGoogle(requireGoogle: Option<bool>, requireEmailConfirmation: Option<bool>,
                                   loading: bool, user: Option<AuthUser>, hasGoogleAccess: bool, location: string)
    requires ProtectedRoute(requireGoogle, requireEmailConfirmation, loading, user, hasGoogleAccess, location).Redirect?
    requires ProtectedRoute(requireGoogle, requireEmailConfirmation, loading, user, hasGoogleAccess, location).to == SetupPath
    ensures !loading && user.Some? && requireGoogle == Some(true) && !hasGoogleAccess
    ensures FlagOr(requireEmailConfirmation, true) ==> Truthy(user.value.emailConfirmedAt)
  {
  }
}
