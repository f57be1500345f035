/**
 The client guard `AdminProtected`: three state flags updated by the initial
 `checkAuth` and by the session-change listener, a subscription held from
 mount to teardown, and a render verdict. Each handler runs as one atomic
 step; `roleUser` and `lookup` are the outcomes the nested
 `checkAdminRole()` sees (its own `auth.getUser()` and the role lookup), and
 its verdict is `Actions.CheckAdminRole` of them. Navigation is recorded as
 the list of targets passed to `router.push`.
 */
module AdminProtected {
  import opened Backend
  import Actions

  const LoginUrl: string := "/admin/login"
  const UnauthorizedUrl: string := "/admin/login?error=unauthorized"

  /** The events `onAuthStateChange` reports. */
  datatype AuthEvent = InitialSession | SignedIn | SignedOut | TokenRefreshed | UserUpdated | PasswordRecovery

  /** A session as the listener receives it; `user` may be absent. */
  datatype Session = Session(user: Option<User>)

  /** What the guard renders: the caller's fallback or the spinner while
      loading, the "Access Denied" view, or the protected children. */
  datatype View = Fallback | Spinner | AccessDenied | Children

  class Guard {
    var isAuthenticated: bool
    var isAdmin: bool
    var loading: bool
    /** The session-change subscription is held. */
    var subscribed: bool
    /** Every target passed to `router.push`, in order. */
    var navigations: seq<string>

    /** The admin flag is only ever raised together with the authenticated flag. */
    ghost predicate Valid()
      reads this
    {
      isAdmin ==> isAuthenticated
    }

    /** First render: loading, neither flag set, nothing subscribed yet. */
    constructor ()
      ensures Valid()
      ensures loading && !isAuthenticated && !isAdmin
      ensures !subscribed && navigations == []
    {
      isAuthenticated, isAdmin, loading := false, false, true;
      subscribed := false;
      navigations := [];
    }

    /** The render verdict. Children appear only once loading is over and both
        flags are set; while loading only the fallback or the spinner shows. */
    function Render(hasFallback: bool): (v: View)
      reads this
      ensures v == Children <==> !loading && isAuthenticated && isAdmin
      ensures loading ==> v == (if hasFallback then Fallback else Spinner)
      ensures v == AccessDenied <==> !loading && !(isAuthenticated && isAdmin)
    {
      if loading then (if hasFallback then Fallback else Spinner)
      else if !isAuthenticated || !isAdmin then AccessDenied
      else Children
    }

    /** The synchronous part of the mount effect: `checkAuth()` is started
        (it completes in `CheckAuth`) and the listener is subscribed. */
    method Mount()
      requires Valid()
      modifies this`subscribed
      ensures Valid() && subscribed
    {
      subscribed := true;
    }

    /** Completion of `checkAuth`. `user` is the outcome of `auth.getUser()`. */
    method CheckAuth(user: Call<Option<User>>, roleUser: Call<Option<User>>, lookup: Call<Reply<RoleRow>>)
      requires Valid()
      modifies this`isAuthenticated, this`isAdmin, this`loading, this`navigations
      ensures Valid()
      // the `finally`: loading ends false on every path
      ensures !loading
      // getUser threw: no flag was touched, and the catch went to the login page
      ensures user.Threw? ==>
                isAuthenticated == old(isAuthenticated) && isAdmin == old(isAdmin) &&
                navigations == old(navigations) + [LoginUrl]
      // no user: both flags cleared, go to the login page
      ensures user == Returned(None) ==>
                !isAuthenticated && !isAdmin && navigations == old(navigations) + [LoginUrl]
      // a user: authenticated, admin exactly when the role check says so, and
      // sent away as unauthorized otherwise
      ensures user.Returned? && user.value.Some? ==>
                var adminCheck := Actions.CheckAdminRole(roleUser, lookup);
                isAuthenticated && isAdmin == adminCheck &&
                navigations == old(navigations) + (if adminCheck then [] else [UnauthorizedUrl])
    {
      match user {
        case Threw =>
          navigations := navigations + [LoginUrl];
        case Returned(u) =>
          if u.None? {
            isAuthenticated := false;
            isAdmin := false;
            navigations := navigations + [LoginUrl];
          } else {
            isAuthenticated := true;
            var adminCheck := Actions.CheckAdminRole(roleUser, lookup);
            isAdmin := adminCheck;
            if !adminCheck {
              navigations := navigations + [UnauthorizedUrl];
            }
          }
      }
      loading := false;
    }

    /** The `onAuthStateChange` callback. Once the subscription is released the
        provider no longer calls it, so nothing changes. */
    method OnAuthStateChange(
      event: AuthEvent, session: Option<Session>, roleUser: Call<Option<User>>, lookup: Call<Reply<RoleRow>>)
      requires Valid()
      modifies this`isAuthenticated, this`isAdmin, this`navigations
      ensures Valid()
      ensures loading == old(loading) && subscribed == old(subscribed)
      ensures !subscribed ==>
                isAuthenticated == old(isAuthenticated) && isAdmin == old(isAdmin) &&
                navigations == old(navigations)
      // signed out, or no session: both flags cleared, go to the login page
      ensures subscribed && (event == SignedOut || session.None?) ==>
                !isAuthenticated && !isAdmin && navigations == old(navigations) + [LoginUrl]
      // a session with a user: re-run the admin check into `isAdmin`
      ensures subscribed && event != SignedOut && session.Some? && session.value.user.Some? ==>
                var adminCheck := Actions.CheckAdminRole(roleUser, lookup);
                isAuthenticated && isAdmin == adminCheck &&
                navigations == old(navigations) + (if adminCheck then [] else [UnauthorizedUrl])
      // a session without a user: nothing happens
      ensures subscribed && event != SignedOut && session.Some? && session.value.user.None? ==>
                isAuthenticated == old(isAuthenticated) && isAdmin == old(isAdmin) &&
                navigations == old(navigations)
    {
      if !subscribed {
        return;
      }
      if event == SignedOut || session.None? {
        isAuthenticated := false;
        isAdmin := false;
        navigations := navigations + [LoginUrl];
      } else if session.value.user.Some? {
        isAuthenticated := true;
        var adminCheck := Actions.CheckAdminRole(roleUser, lookup);
        isAdmin := adminCheck;
        if !adminCheck {
          navigations := navigations + [UnauthorizedUrl];
        }
      }
    }

    /** The "Go to Login" button of the Access Denied view. */
    method GoToLogin()
      requires Valid() && !loading && !(isAuthenticated && isAdmin)
      modifies this`navigations
      ensures Valid()
      ensures navigations == old(navigations) + [LoginUrl]
    {
      navigations := navigations + [LoginUrl];
    }

    /** The effect's cleanup on teardown: the subscription is released. */
    method Unmount()
      requires Valid()
      modifies this`subscribed
      ensures Valid() && !subscribed
    {
      subscribed := false;
    }
  }

  /** An admin viewing a protected page who then signs out: the page shows its
      children after the initial check, and the Access Denied view with a
      navigation to the login page after the sign-out event. */
  method SignOutWhileViewing(admin: User) returns (before: View, after: View, pushed: seq<string>)
    ensures before == Children
    ensures after == AccessDenied
    ensures pushed == [LoginUrl]
  {
    var g := new Guard();
    g.Mount();
    assert g.Render(false) == Spinner;
    g.CheckAuth(Returned(Some(admin)), Returned(Some(admin)), Returned(Reply(Some(RoleRow(AdminRole)), None)));
    before := g.Render(false);
    g.OnAuthStateChange(SignedOut, None, Returned(None), Returned(Reply(None, None)));
    after := g.Render(false);
    pushed := g.navigations;
    g.Unmount();
  }

  /** A signed-in customer: after the initial check the guard is authenticated
      but not admin, shows Access Denied, and has gone to the login page with the
      unauthorized indicator; protected content was never rendered. */
  method CustomerIsTurnedAway(customer: User, hasFallback: bool) returns (views: seq<View>, pushed: seq<string>)
    ensures Children !in views
    ensures views == [if hasFallback then Fallback else Spinner, AccessDenied]
    ensures pushed == [UnauthorizedUrl]
  {
    var g := new Guard();
    g.Mount();
    views := [g.Render(hasFallback)];
    g.CheckAuth(Returned(Some(customer)), Returned(Some(customer)), Returned(Reply(Some(RoleRow(CustomerRole)), None)));
    views := views + [g.Render(hasFallback)];
    pushed := g.navigations;
  }

  /** After teardown, session events no longer change what the guard shows. */
  method NoUpdatesAfterUnmount(
    admin: User, event: AuthEvent, session: Option<Session>, roleUser: Call<Option<User>>, lookup: Call<Reply<RoleRow>>)
    returns (before: View, after: View)
    ensures before == Children && after == Children
  {
    var g := new Guard();
    g.Mount();
    g.CheckAuth(Returned(Some(admin)), Returned(Some(admin)), Returned(Reply(Some(RoleRow(AdminRole)), None)));
    before := g.Render(false);
    g.Unmount();
    g.OnAuthStateChange(event, session, roleUser, lookup);
    after := g.Render(false);
  }

  /** After the initial check the protected children show exactly when the role
      check found a user whose profile row says `admin`; any other outcome of
      the two calls leaves the Access Denied view. */
  method ChildrenOnlyForAdminRow(
    user: User, roleUser: Call<Option<User>>, lookup: Call<Reply<RoleRow>>, hasFallback: bool)
    returns (v: View)
    ensures v == Children <==>
              roleUser.Returned? && roleUser.value.Some? && lookup == Returned(Reply(Some(RoleRow(AdminRole)), None))
    ensures v != Children ==> v == AccessDenied
  {
    var g := new Guard();
    g.Mount();
    g.CheckAuth(Returned(Some(user)), roleUser, lookup);
    v := g.Render(hasFallback);
  }
}
