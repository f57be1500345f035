/**
 The edge guard: the request filter that runs before any admin page. Its
 decision depends only on the request's pathname, on the session's user (if
 any) and on the `data` of the profile lookup for that user; the cookie
 plumbing that carries the session is not part of this model.
 */
module Middleware {
  import opened Backend

  const AdminPrefix: string := "/admin"
  const LoginPath: string := "/admin/login"
  const AdminRoot: string := "/admin"
  const UnauthorizedSearch: string := "?error=unauthorized"

  /** What the filter answers: pass the request on unchanged (`NextResponse.next`)
      or redirect to a URL given by its pathname and its query string. */
  datatype Decision = Pass | Redirect(pathname: string, search: string)

  predicate StartsWith(s: string, prefix: string)
  {
    |prefix| <= |s| && s[..|prefix|] == prefix
  }

  /** An admin path other than the login page itself. */
  predicate IsProtected(path: string)
  {
    StartsWith(path, AdminPrefix) && path != LoginPath
  }

  /** The actor is signed in and the lookup found a profile whose role is `admin`. */
  predicate IsAdminActor(user: Option<User>, profile: Option<RoleRow>)
  {
    user.Some? && IsAdminRow(profile)
  }

  /** The decision of `middleware` for one request. `profile` is the row the
      store returns for the user's id; it is consulted only when there is a user. */
  function Decide(path: string, user: Option<User>, profile: Option<RoleRow>): (d: Decision)
    ensures d.Redirect? ==> d.pathname == LoginPath || d.pathname == AdminRoot
    ensures d.Redirect? ==> StartsWith(path, AdminPrefix)
    ensures IsProtected(path) ==> (d.Pass? <==> IsAdminActor(user, profile))
    ensures path == LoginPath ==> (d.Pass? <==> !IsAdminActor(user, profile))
  {
    if StartsWith(path, AdminPrefix) && path != LoginPath && user.None? then
      Redirect(LoginPath, "")
    else if StartsWith(path, AdminPrefix) && path != LoginPath && user.Some? && !IsAdminRow(profile) then
      Redirect(LoginPath, UnauthorizedSearch)
    else if path == LoginPath && user.Some? && IsAdminRow(profile) then
      Redirect(AdminRoot, "")
    else
      Pass
  }

  /** A protected path with no user goes to the login page, whatever the store holds. */
  lemma ProtectedWithoutUser(path: string, profile: Option<RoleRow>)
    requires IsProtected(path)
    ensures Decide(path, None, profile) == Redirect(LoginPath, "")
  {
  }

  /** A protected path with a user but no admin profile goes to the login page
      with the `unauthorized` indicator. */
  lemma ProtectedWithoutAdminProfile(path: string, user: User, profile: Option<RoleRow>)
    requires IsProtected(path)
    requires profile.None? || profile.value.role != AdminRole
    ensures Decide(path, Some(user), profile) == Redirect(LoginPath, UnauthorizedSearch)
  {
  }

  /** A protected path with an admin profile passes through unmodified. */
  lemma ProtectedForAdmin(path: string, user: User)
    requires IsProtected(path)
    ensures Decide(path, Some(user), Some(RoleRow(AdminRole))) == Pass
  {
  }

  /** The login page sends a signed-in admin to the dashboard and shows itself to
      everybody else. */
  lemma LoginPage(user: Option<User>, profile: Option<RoleRow>)
    ensures Decide(LoginPath, user, profile) ==
            if IsAdminActor(user, profile) then Redirect(AdminRoot, "") else Pass
  {
  }

  /** Outside the admin prefix nothing is redirected. */
  lemma OutsideAdminPasses(path: string, user: Option<User>, profile: Option<RoleRow>)
    requires !StartsWith(path, AdminPrefix)
    ensures Decide(path, user, profile) == Pass
  {
  }

  /** Fail closed: whoever is not an admin actor is never let through to a
      protected path, and whoever is passes on every admin path but the login page. */
  lemma FailClosed(path: string, user: Option<User>, profile: Option<RoleRow>)
    requires StartsWith(path, AdminPrefix)
    ensures Decide(path, user, profile).Pass? <==>
            (if path == LoginPath then !IsAdminActor(user, profile) else IsAdminActor(user, profile))
  {
  }

  /** No redirect loop: following a redirect with the same session and the same
      profile row ends in a pass-through after one hop. */
  lemma NoRedirectLoop(path: string, user: Option<User>, profile: Option<RoleRow>)
    ensures var d := Decide(path, user, profile);
            d.Redirect? ==> Decide(d.pathname, user, profile) == Pass
  {
  }

  /** The route matcher `/admin/:path*`: `/admin` followed by zero or more
      path segments. */
  predicate Matches(path: string)
  {
    path == AdminRoot || StartsWith(path, AdminRoot + "/")
  }

  /** The filter as registered: requests outside the matcher never reach
      `middleware` and go on unchanged. */
  function Handle(path: string, user: Option<User>, profile: Option<RoleRow>): (d: Decision)
    ensures !Matches(path) ==> d == Pass
    ensures Matches(path) ==> d == Decide(path, user, profile)
  {
    if Matches(path) then Decide(path, user, profile) else Pass
  }

  /** Everything the matcher sends to `middleware` is under the admin prefix, so
      registration narrows the filter, never widens it: outside the prefix the
      registered filter passes too. */
  lemma {:induction false} MatcherWithinAdminPrefix(path: string, user: Option<User>, profile: Option<RoleRow>)
    ensures Matches(path) ==> StartsWith(path, AdminPrefix)
    ensures !StartsWith(path, AdminPrefix) ==> Handle(path, user, profile) == Pass
  {
    if StartsWith(path, AdminRoot + "/") {
      assert path[..|AdminPrefix|] == (AdminRoot + "/")[..|AdminPrefix|];
    }
  }

  /** The matcher covers every path whose redirects the guard issues, so the
      registered filter keeps the guard's fail-closed verdict on every protected
      path it matches and never loops. */
  lemma {:induction false} HandleNoRedirectLoop(path: string, user: Option<User>, profile: Option<RoleRow>)
    ensures var d := Handle(path, user, profile);
            d.Redirect? ==> Matches(d.pathname) && Handle(d.pathname, user, profile) == Pass
  {
    var d := Handle(path, user, profile);
    if d.Redirect? {
      NoRedirectLoop(path, user, profile);
      assert (AdminRoot + "/")[..|AdminRoot + "/"|] == AdminRoot + "/";
      assert LoginPath[..|AdminRoot + "/"|] == AdminRoot + "/";
    }
  }
}
