/** The route guard wrapped around pages: an ordered chain of early returns. */
module ProtectedRoute {

  /** What the guard renders. */
  datatype Outcome = Loading | ToLogin | NotFound | ToVerifyProfile | Children

  /** The authentication context the guard reads. */
  datatype Session = Session(isAuthenticated: bool, loading: bool, isAdmin: bool, isVerified: bool)

  /** The guard, checks in source order; `adminOnly` and `requireVerification` default to false. */
  function Guard(s: Session, adminOnly: bool, requireVerification: bool): (o: Outcome)
    ensures s.loading ==> o == Loading
    ensures !s.loading && !s.isAuthenticated ==> o == ToLogin
    ensures o == Children <==>
      !s.loading && s.isAuthenticated && (adminOnly ==> s.isAdmin) && (requireVerification ==> s.isVerified)
  {
    if s.loading then Loading
    else if !s.isAuthenticated then ToLogin
    else if adminOnly && !s.isAdmin then NotFound
    else if requireVerification && !s.isVerified then ToVerifyProfile
    else Children
  }

  /** With the default flags only authentication is required. */
  lemma DefaultsNeedOnlyAuthentication(s: Session)
    ensures Guard(s, false, false) == Children <==> !s.loading && s.isAuthenticated
    ensures !s.loading && !s.isAuthenticated ==> Guard(s, false, false) == ToLogin
  {
  }

  /**
   * The admin check comes first: an unverified non-admin on a route that
   * asks for both sees NotFound, never the verification redirect.
   */
  lemma AdminCheckBeforeVerification(s: Session, requireVerification: bool)
    requires !s.loading && s.isAuthenticated && !s.isAdmin
    ensures Guard(s, true, requireVerification) == NotFound
  {
  }

  /** The verification redirect fires only for a signed-in, unverified user who passed the admin check. */
  lemma VerificationRedirect(s: Session, adminOnly: bool, requireVerification: bool)
    ensures Guard(s, adminOnly, requireVerification) == ToVerifyProfile <==>
      !s.loading && s.isAuthenticated && (adminOnly ==> s.isAdmin) && requireVerification && !s.isVerified
  {
  }
}
