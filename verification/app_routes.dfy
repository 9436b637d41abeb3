/**
 * The two route guards of src/App.tsx. `ProtectedRoute` keeps signed-out visitors away from
 * the app; `AuthRoute` keeps signed-in users away from the sign-in page.
 */
module AppRoutes {
  /** What a guard renders. */
  datatype View =
    | LoadingPlaceholder   // the "Loading..." screen
    | Nothing              // `null`
    | Redirect(to: string) // `<Navigate replace />`
    | Children             // the guarded page

  function ProtectedRoute(signedIn: bool, loading: bool): (v: View)
    ensures loading <==> v == LoadingPlaceholder
    ensures !loading && !signedIn <==> v == Redirect("/auth")
    ensures !loading && signedIn <==> v == Children
  {
    if loading then LoadingPlaceholder
    else if !signedIn then Redirect("/auth")
    else Children
  }

  function AuthRoute(signedIn: bool, loading: bool): (v: View)
    ensures loading <==> v == Nothing
    ensures !loading && signedIn <==> v == Redirect("/")
    ensures !loading && !signedIn <==> v == Children
  {
    if loading then Nothing
    else if signedIn then Redirect("/")
    else Children
  }

  /** Once the session is known, exactly one of the two guards lets its page through. */
  lemma ExactlyOneGuardOpens(signedIn: bool)
    ensures (ProtectedRoute(signedIn, false) == Children) != (AuthRoute(signedIn, false) == Children)
  {
  }

  /** While the session is loading, neither guard lets its page through. */
  lemma NoGuardOpensWhileLoading(signedIn: bool)
    ensures ProtectedRoute(signedIn, true) != Children && AuthRoute(signedIn, true) != Children
  {
  }

  /** Each guard sends a visitor it turns away to the other guard's page, which lets them in. */
  lemma RedirectsLandOnOpenGuard(signedIn: bool)
    ensures ProtectedRoute(signedIn, false) == Redirect("/auth") ==> AuthRoute(signedIn, false) == Children
    ensures AuthRoute(signedIn, false) == Redirect("/") ==> ProtectedRoute(signedIn, false) == Children
  {
  }
}
