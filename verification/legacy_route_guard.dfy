/** The older route guard (`src/components/ProtectedRoute`): fewer checks,
    and the expiry rule before the role rule. */
module LegacyRouteGuard {
  import opened Wrappers
  import RouteGuard

  datatype User = User(role: string)

  datatype Session = Session(loading: bool, user: Option<User>, inTrial: bool, subscriptionActive: bool, path: string)

  datatype Outcome = Spinner | ToLogin | ToExpired | ToDashboard | Layout

  /** The guard, check by check in source order. */
  function Guard(s: Session): (r: Outcome)
    ensures r == Spinner <==> s.loading
    ensures r == ToLogin <==> !s.loading && s.user.None?
    ensures r == ToExpired <==> !s.loading && s.user.Some? && !s.inTrial && !s.subscriptionActive
                                && s.path != RouteGuard.SubscriptionPath
    ensures r == ToDashboard <==>
              !s.loading && s.user.Some? && s.user.value.role == RouteGuard.Attendant && RouteGuard.AdminOnly(s.path)
              && (s.inTrial || s.subscriptionActive || s.path == RouteGuard.SubscriptionPath)
  {
    if s.loading then Spinner
    else if s.user.None? then ToLogin
    else if !s.inTrial && !s.subscriptionActive && s.path != RouteGuard.SubscriptionPath then ToExpired
    else if s.user.value.role == RouteGuard.Attendant && (s.path == "/relatorios" || s.path == "/assinatura") then ToDashboard
    else Layout
  }

  /** The layout renders exactly when all checks pass. */
  lemma {:induction false} LayoutIffChecksPass(s: Session)
    ensures Guard(s) == Layout <==>
              && !s.loading && s.user.Some?
              && (s.inTrial || s.subscriptionActive || s.path == RouteGuard.SubscriptionPath)
              && !(s.user.value.role == RouteGuard.Attendant && RouteGuard.AdminOnly(s.path))
  {}

  /** The two guards order their last two checks differently: an
      attendant whose trial and subscription have lapsed, on the reports
      page, is sent to "/expired" here and to the dashboard by the newer
      guard. */
  lemma {:induction false} GuardsDisagreeOnExpiredAttendant()
    ensures Guard(Session(false, Some(User("atendente")), false, false, "/relatorios")) == ToExpired
    ensures RouteGuard.Guard(RouteGuard.Session(false, Some(RouteGuard.User(true)), Some(RouteGuard.Profile("atendente")),
                                                Some(false), Some(false), "/relatorios")) == RouteGuard.ToDashboard
  {}
}
