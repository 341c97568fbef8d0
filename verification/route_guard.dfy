/** The route guard of the dashboard (`frontend/src/components/ProtectedRoute`):
    a fixed sequence of checks on the session that ends in a spinner, a
    redirect, or the dashboard layout. */
module RouteGuard {
  import opened Wrappers

  /** The signed-in user as the guard sees it. */
  datatype User = User(emailConfirmed: bool)

  datatype Profile = Profile(role: string)

  /** The session state the guard reads; the trial and subscription flags
      are `None` while they load. */
  datatype Session = Session(
    loading: bool, user: Option<User>, profile: Option<Profile>,
    inTrial: Option<bool>, subscriptionActive: Option<bool>, path: string)

  /** What the guard renders. `ToLogin` records whether the user is signed
      out first. */
  datatype Outcome = Spinner | ToLogin(signOut: bool) | ToDashboard | ToExpired | Layout

  const AdminOnlyRoutes: seq<string> := ["/relatorios", "/assinatura"]
  const Attendant: string := "atendente"
  const SubscriptionPath: string := "/assinatura"

  predicate AdminOnly(path: string) { path in AdminOnlyRoutes }

  predicate IsAttendant(p: Option<Profile>) { p.Some? && p.value.role == Attendant }

  /** The guard, check by check in source order. */
  function Guard(s: Session): (r: Outcome)
    ensures s.loading ==> r == Spinner
    ensures !s.loading && s.user.Some? && !s.user.value.emailConfirmed ==> r == ToLogin(true)
    ensures !s.loading && s.user.None? ==> r == ToLogin(false)
    ensures r.ToLogin? ==> !s.loading && (r.signOut <==> s.user.Some?)
    ensures r == Spinner <==>
              s.loading || (s.user.Some? && s.user.value.emailConfirmed &&
                            (s.inTrial.None? || s.subscriptionActive.None? || s.profile.None?))
    ensures r == ToDashboard <==>
              !s.loading && s.user.Some? && s.user.value.emailConfirmed &&
              s.inTrial.Some? && s.subscriptionActive.Some? && IsAttendant(s.profile) && AdminOnly(s.path)
    ensures r == ToExpired <==>
              !s.loading && s.user.Some? && s.user.value.emailConfirmed && s.profile.Some? &&
              !(IsAttendant(s.profile) && AdminOnly(s.path)) &&
              s.inTrial == Some(false) && s.subscriptionActive == Some(false) && s.path != SubscriptionPath
  {
    if s.loading then Spinner
    else if s.user.Some? && !s.user.value.emailConfirmed then ToLogin(true)
    else if s.user.None? then ToLogin(false)
    else if s.inTrial.None? || s.subscriptionActive.None? then Spinner
    else if s.profile.None? then Spinner
    else if s.profile.value.role == Attendant && AdminOnly(s.path) then ToDashboard
    else if s.inTrial == Some(false) && s.subscriptionActive == Some(false) && s.path != SubscriptionPath then ToExpired
    else Layout
  }

  /** The layout renders exactly when every check passes: not loading, a
      confirmed user, flags and profile loaded, no attendant on an
      admin-only route, and the trial or the subscription alive (or the
      subscription page). */
  lemma {:induction false} LayoutIffChecksPass(s: Session)
    ensures Guard(s) == Layout <==>
              && !s.loading && s.user.Some? && s.user.value.emailConfirmed
              && s.inTrial.Some? && s.subscriptionActive.Some? && s.profile.Some?
              && !(IsAttendant(s.profile) && AdminOnly(s.path))
              && (s.inTrial.value || s.subscriptionActive.value || s.path == SubscriptionPath)
  {}

  /** The role rule comes before the expiry rule: an attendant on an
      admin-only route goes to the dashboard even with an expired trial. */
  lemma {:induction false} RoleBeforeExpiry(s: Session)
    requires !s.loading && s.user.Some? && s.user.value.emailConfirmed
    requires s.inTrial.Some? && s.subscriptionActive.Some?
    requires IsAttendant(s.profile) && AdminOnly(s.path)
    ensures Guard(s) == ToDashboard
  {}

  /** The "Acesso restrito" toast is raised for attendants on admin-only
      routes, which covers every redirect to the dashboard. */
  predicate RestrictedToast(s: Session) { IsAttendant(s.profile) && AdminOnly(s.path) }

  lemma {:induction false} DashboardRedirectWarns(s: Session)
    requires Guard(s) == ToDashboard
    ensures RestrictedToast(s)
  {}
}
