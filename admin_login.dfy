/**
 The admin login page `AdminLogin`: form fields, `loading`, `error` and the
 `isRegistering` mode, changed by the `error` query-parameter effect, by
 `handleLogin`, `handleRegister` and by the mode toggle. The sign-in and
 sign-up actions are the functions of `Actions`, applied to the backend
 outcomes each handler receives as parameters. Navigation and sign-out calls
 are recorded; the success alert is not.
 */
module AdminLogin {
  import opened Backend
  import Actions

  const PrivilegesError: string := "You do not have admin privileges to access this area."
  const LoginFailed: string := "Login failed"
  const RegistrationFailed: string := "Registration failed"
  const DashboardUrl: string := "/admin"

  class LoginPage {
    var email: string
    var password: string
    var firstName: string
    var lastName: string
    var phone: string
    var loading: bool
    var error: string
    var isRegistering: bool
    /** Every target passed to `router.push`, in order. */
    var navigations: seq<string>
    /** How many times `auth.signOut()` was called. */
    var signOuts: nat
    /** Every profile write the sign-up action made, in order. */
    var profileWrites: seq<Actions.ProfileWrite>

    /** This page registers admins only: every profile it has written asks for
        the `admin` role. */
    ghost predicate Valid()
      reads this
    {
      forall w :: w in profileWrites ==> w.fields.role == AdminRole
    }

    constructor ()
      ensures Valid()
      ensures email == "" && password == "" && firstName == "" && lastName == "" && phone == ""
      ensures !loading && error == "" && !isRegistering
      ensures navigations == [] && signOuts == 0 && profileWrites == []
    {
      email, password, firstName, lastName, phone := "", "", "", "", "";
      loading, error, isRegistering := false, "", false;
      navigations, signOuts, profileWrites := [], 0, [];
    }

    /** The effect on the `error` search parameter: only `unauthorized` sets
        the privileges message; anything else leaves the page as it is. */
    method ApplyErrorParam(errorParam: Option<string>)
      requires Valid()
      modifies this`error
      ensures Valid()
      ensures error == if errorParam == Some("unauthorized") then PrivilegesError else old(error)
    {
      if errorParam == Some("unauthorized") {
        error := PrivilegesError;
      }
    }

    /** `handleLogin`. `auth`, `getUser` and `lookup` are the outcomes
        `signInUser` sees; `signOutThrew` says whether `auth.signOut()` threw. */
    method HandleLogin(auth: Call<AuthReply>, getUser: Call<Option<User>>, lookup: Call<Reply<RoleRow>>, signOutThrew: bool)
      requires Valid()
      modifies this`loading, this`error, this`navigations, this`signOuts
      ensures Valid()
      ensures !loading
      ensures var result := Actions.SignInUser(old(email), old(password), auth, getUser, lookup);
              // failed sign-in: its message (or the default), no navigation, no sign-out
              && (!result.success ==>
                    error == OptionOrElse(result.error, LoginFailed) &&
                    navigations == old(navigations) && signOuts == old(signOuts))
              // a signed-in non-admin: the privileges message, signed out again, no navigation
              && (result.success && result.isAdmin != Some(true) ==>
                    error == (if signOutThrew then Actions.UnexpectedError else PrivilegesError) &&
                    navigations == old(navigations) && signOuts == old(signOuts) + 1)
              // a signed-in admin: on to the dashboard
              && (result.success && result.isAdmin == Some(true) ==>
                    error == "" && navigations == old(navigations) + [DashboardUrl] &&
                    signOuts == old(signOuts))
    {
      loading := true;
      error := "";
      var result := Actions.SignInUser(email, password, auth, getUser, lookup);
      if !result.success {
        error := OptionOrElse(result.error, LoginFailed);
        loading := false;
        return;
      }
      if result.isAdmin != Some(true) {
        error := PrivilegesError;
        signOuts := signOuts + 1;
        if signOutThrew {
          error := Actions.UnexpectedError;
        }
        loading := false;
        return;
      }
      navigations := navigations + [DashboardUrl];
      loading := false;
    }

    /** `handleRegister`. `auth`, `now` and `upsert` are the outcomes
        `signUpUser` sees. The role requested is always `admin`. */
    method HandleRegister(auth: Call<AuthReply>, now: string, upsert: Call<Reply<UserProfile>>)
      requires Valid()
      modifies this`loading, this`error, this`isRegistering, this`profileWrites
      ensures Valid()
      ensures !loading
      ensures var r := Actions.SignUpUser(old(email), old(password), old(firstName), old(lastName), old(phone),
                                          Admin, auth, now, upsert);
              && profileWrites == old(profileWrites) + (if r.write.Some? then [r.write.value] else [])
              // failure: its message (or the default), still in register mode
              && (!r.result.success ==>
                    error == OptionOrElse(r.result.error, RegistrationFailed) &&
                    isRegistering == old(isRegistering))
              // success: error cleared, back to login mode
              && (r.result.success ==> error == "" && !isRegistering)
    {
      loading := true;
      error := "";
      var r := Actions.SignUpUser(email, password, firstName, lastName, phone, Admin, auth, now, upsert);
      if r.write.Some? {
        assert r.write.value.fields.role == RoleName(Admin);
        profileWrites := profileWrites + [r.write.value];
      }
      if !r.result.success {
        error := OptionOrElse(r.result.error, RegistrationFailed);
        loading := false;
        return;
      }
      error := "";
      isRegistering := false;
      loading := false;
    }

    /** The form's submit: `handleRegister` in register mode, `handleLogin`
        otherwise, each with the outcome that handler states. Login never
        writes a profile nor leaves login mode; registering never navigates
        nor signs out. */
    method Submit(
      auth: Call<AuthReply>, getUser: Call<Option<User>>, lookup: Call<Reply<RoleRow>>, signOutThrew: bool,
      now: string, upsert: Call<Reply<UserProfile>>)
      requires Valid()
      modifies this`loading, this`error, this`isRegistering, this`navigations, this`signOuts, this`profileWrites
      ensures Valid()
      ensures !loading
      // register mode: the outcome of `handleRegister`
      ensures old(isRegistering) ==>
                var r := Actions.SignUpUser(old(email), old(password), old(firstName), old(lastName), old(phone),
                                            Admin, auth, now, upsert);
                && navigations == old(navigations) && signOuts == old(signOuts)
                && profileWrites == old(profileWrites) + (if r.write.Some? then [r.write.value] else [])
                && (!r.result.success ==>
                      error == OptionOrElse(r.result.error, RegistrationFailed) && isRegistering)
                && (r.result.success ==> error == "" && !isRegistering)
      // login mode: the outcome of `handleLogin`
      ensures !old(isRegistering) ==>
                var result := Actions.SignInUser(old(email), old(password), auth, getUser, lookup);
                && !isRegistering && profileWrites == old(profileWrites)
                && (!result.success ==>
                      error == OptionOrElse(result.error, LoginFailed) &&
                      navigations == old(navigations) && signOuts == old(signOuts))
                && (result.success && result.isAdmin != Some(true) ==>
                      error == (if signOutThrew then Actions.UnexpectedError else PrivilegesError) &&
                      navigations == old(navigations) && signOuts == old(signOuts) + 1)
                && (result.success && result.isAdmin == Some(true) ==>
                      error == "" && navigations == old(navigations) + [DashboardUrl] &&
                      signOuts == old(signOuts))
    {
      if isRegistering {
        HandleRegister(auth, now, upsert);
      } else {
        HandleLogin(auth, getUser, lookup, signOutThrew);
      }
    }

    /** The "Register" / "Sign in" link: flips the mode and clears the error. */
    method ToggleMode()
      requires Valid()
      modifies this`isRegistering, this`error
      ensures Valid()
      ensures isRegistering == !old(isRegistering) && error == ""
    {
      isRegistering := !isRegistering;
      error := "";
    }
  }

  /** A non-admin who signs in on the admin page ends signed out, with the
      privileges message and without any navigation. */
  method NonAdminSignInIsRefused(user: User, getUser: Call<Option<User>>, row: RoleRow)
    returns (error: string, pushed: seq<string>, signOuts: nat)
    requires row.role != AdminRole
    ensures error == PrivilegesError && pushed == [] && signOuts == 1
  {
    var page := new LoginPage();
    page.HandleLogin(Returned(AuthReply(Some(user), None)), getUser, Returned(Reply(Some(row), None)), false);
    error, pushed, signOuts := page.error, page.navigations, page.signOuts;
  }

  /** An unauthorized redirect lands on the page with the privileges message; a
      successful registration then returns the page to login mode with the
      message cleared, having written one admin profile for the new user. */
  method UnauthorizedThenRegister(user: User, now: string, row: UserProfile)
    returns (shown: string, error: string, registering: bool, writes: seq<Actions.ProfileWrite>)
    ensures shown == PrivilegesError
    ensures error == "" && !registering
    ensures |writes| == 1 && writes[0].fields.role == AdminRole && writes[0].fields.userId == user.id
  {
    var page := new LoginPage();
    page.ApplyErrorParam(Some("unauthorized"));
    shown := page.error;
    page.ToggleMode();
    page.HandleRegister(Returned(AuthReply(Some(user), None)), now, Returned(Reply(Some(row), None)));
    error, registering, writes := page.error, page.isRegistering, page.profileWrites;
  }
}
