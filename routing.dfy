/** The two route decisions: the `RequireAuth` guard around "/" and the
    `LoginPage` at "/login". Each is a function of the provider's `loading`
    flag and of whether it holds a user. */
module Routing {
  import opened Common
  import opened Storage

  const HomePath := "/"
  const LoginPath := "/login"

  /** What a route renders: nothing, a `<Navigate to replace />`, or its content. */
  datatype View = Blank | Navigate(to: string, replace: bool) | Content

  /** `RequireAuth`: nothing while loading, a replacing redirect to "/login"
      without a user, the children otherwise. */
  function RequireAuthView(loading: bool, user: Option<User>): (v: View)
    ensures v == Blank <==> loading
    ensures v.Navigate? <==> !loading && user.None?
    ensures v.Navigate? ==> v == Navigate(LoginPath, true)
  {
    if loading then Blank
    else if user.None? then Navigate(LoginPath, true)
    else Content
  }

  /** `LoginPage`: nothing while loading, a replacing redirect to "/" with a
      user, the login form otherwise. */
  function LoginPageView(loading: bool, user: Option<User>): (v: View)
    ensures v == Blank <==> loading
    ensures v.Navigate? <==> !loading && user.Some?
    ensures v.Navigate? ==> v == Navigate(HomePath, true)
  {
    if loading then Blank
    else if user.Some? then Navigate(HomePath, true)
    else Content
  }

  /** The view the router shows at a path ("*" is guarded like "/"): after
      loading, "/login" renders exactly when signed out and every other path
      exactly when signed in; every redirect replaces the history entry. */
  function ViewAt(path: string, loading: bool, user: Option<User>): (v: View)
    ensures v == Blank <==> loading
    ensures v == Content <==> !loading && (path == LoginPath <==> user.None?)
    ensures v.Navigate? ==> v.replace && v.to == (if path == LoginPath then HomePath else LoginPath)
  {
    if path == LoginPath then LoginPageView(loading, user) else RequireAuthView(loading, user)
  }

  /** Both decisions look only at `loading` and at whether there is a user. */
  lemma DependsOnlyOnPresence(loading: bool, u1: Option<User>, u2: Option<User>)
    requires u1.Some? <==> u2.Some?
    ensures RequireAuthView(loading, u1) == RequireAuthView(loading, u2)
    ensures LoginPageView(loading, u1) == LoginPageView(loading, u2)
  {
  }

  /** Once loading is over, exactly one of "/" and "/login" renders content
      and the other redirects to it, so there is no redirect cycle. */
  lemma NoRedirectCycle(user: Option<User>)
    ensures user.None? ==> RequireAuthView(false, user) == Navigate(LoginPath, true) && LoginPageView(false, user) == Content
    ensures user.Some? ==> LoginPageView(false, user) == Navigate(HomePath, true) && RequireAuthView(false, user) == Content
  {
  }

  /** From any path, following at most one redirect reaches a view that is not a redirect. */
  lemma OneRedirectSettles(path: string, loading: bool, user: Option<User>)
    ensures var v := ViewAt(path, loading, user);
            v.Navigate? ==> ViewAt(v.to, loading, user) == Content
  {
  }
}
