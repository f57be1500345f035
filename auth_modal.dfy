/**
 The storefront's sign-in / create-account dialog `AuthModal`: nine state
 fields changed by `handleSubmit`, `handleClose` and the mode toggle. The
 `onSuccess` and `onClose` callbacks are counted; navigation is recorded.
 */
module AuthModal {
  import opened Backend
  import Actions

  const PasswordMismatch: string := "Passwords do not match"
  const LoginFailed: string := "Login failed"
  const RegistrationFailed: string := "Registration failed"
  const DashboardUrl: string := "/admin"
  const AccountUrl: string := "/account"

  class Modal {
    var isLogin: bool
    var email: string
    var password: string
    var confirmPassword: string
    var firstName: string
    var lastName: string
    var phone: string
    var loading: bool
    var error: string
    /** Every target passed to `router.push`, in order. */
    var navigations: seq<string>
    /** How many times `onSuccess` and `onClose` were invoked. */
    var successCalls: nat
    var closeCalls: nat
    /** Every profile write the sign-up action made, in order. */
    var profileWrites: seq<Actions.ProfileWrite>

    /** The storefront dialog registers customers only. */
    ghost predicate Valid()
      reads this
    {
      forall w :: w in profileWrites ==> w.fields.role == CustomerRole
    }

    constructor ()
      ensures Valid()
      ensures isLogin && email == "" && password == "" && confirmPassword == ""
      ensures firstName == "" && lastName == "" && phone == ""
      ensures !loading && error == ""
      ensures navigations == [] && successCalls == 0 && closeCalls == 0 && profileWrites == []
    {
      isLogin := true;
      email, password, confirmPassword := "", "", "";
      firstName, lastName, phone := "", "", "";
      loading, error := false, "";
      navigations, successCalls, closeCalls, profileWrites := [], 0, 0, [];
    }

    /** `handleSubmit`. In login mode `auth`, `getUser` and `lookup` are what
        `signInUser` sees; in register mode `signUp`, `now` and `upsert` are what
        `signUpUser` sees. */
    method HandleSubmit(
      auth: Call<AuthReply>, getUser: Call<Option<User>>, lookup: Call<Reply<RoleRow>>,
      signUp: Call<AuthReply>, now: string, upsert: Call<Reply<UserProfile>>)
      requires Valid()
      modifies this`loading, this`error, this`isLogin, this`navigations, this`successCalls, this`profileWrites
      ensures Valid()
      ensures !loading
      // register mode with a mismatched confirmation: no sign-up call at all
      ensures !old(isLogin) && old(password) != old(confirmPassword) ==>
                error == PasswordMismatch && !isLogin &&
                navigations == old(navigations) && successCalls == old(successCalls) &&
                profileWrites == old(profileWrites)
      // login mode
      ensures old(isLogin) ==>
                var result := Actions.SignInUser(old(email), old(password), auth, getUser, lookup);
                && isLogin && profileWrites == old(profileWrites)
                && (!result.success ==>
                      error == OptionOrElse(result.error, LoginFailed) &&
                      navigations == old(navigations) && successCalls == old(successCalls))
                && (result.success ==>
                      error == "" && successCalls == old(successCalls) + 1 &&
                      navigations == old(navigations) +
                                     [if result.isAdmin == Some(true) then DashboardUrl else AccountUrl])
      // register mode with matching passwords: a customer sign-up
      ensures !old(isLogin) && old(password) == old(confirmPassword) ==>
                var r := Actions.SignUpUser(old(email), old(password), old(firstName), old(lastName), old(phone),
                                            Customer, signUp, now, upsert);
                && navigations == old(navigations)
                && profileWrites == old(profileWrites) + (if r.write.Some? then [r.write.value] else [])
                && (!r.result.success ==>
                      error == OptionOrElse(r.result.error, RegistrationFailed) &&
                      !isLogin && successCalls == old(successCalls))
                && (r.result.success ==> error == "" && isLogin && successCalls == old(successCalls) + 1)
    {
      loading := true;
      error := "";
      if !isLogin && password != confirmPassword {
        error := PasswordMismatch;
        loading := false;
        return;
      }
      if isLogin {
        var result := Actions.SignInUser(email, password, auth, getUser, lookup);
        if !result.success {
          error := OptionOrElse(result.error, LoginFailed);
          loading := false;
          return;
        }
        if result.isAdmin == Some(true) {
          navigations := navigations + [DashboardUrl];
        } else {
          navigations := navigations + [AccountUrl];
        }
      } else {
        var r := Actions.SignUpUser(email, password, firstName, lastName, phone, Customer, signUp, now, upsert);
        if r.write.Some? {
          assert r.write.value.fields.role == RoleName(Customer);
          profileWrites := profileWrites + [r.write.value];
        }
        if !r.result.success {
          error := OptionOrElse(r.result.error, RegistrationFailed);
          loading := false;
          return;
        }
        error := "";
        isLogin := true;
      }
      successCalls := successCalls + 1;
      loading := false;
    }

    /** `handleClose`: every field back to empty, error cleared, login mode,
        then `onClose`. */
    method HandleClose()
      requires Valid()
      modifies this`email, this`password, this`confirmPassword, this`firstName, this`lastName,
               this`phone, this`error, this`isLogin, this`closeCalls
      ensures Valid()
      ensures email == "" && password == "" && confirmPassword == ""
      ensures firstName == "" && lastName == "" && phone == ""
      ensures error == "" && isLogin
      ensures closeCalls == old(closeCalls) + 1
    {
      email, password, confirmPassword := "", "", "";
      firstName, lastName, phone := "", "", "";
      error := "";
      isLogin := true;
      closeCalls := closeCalls + 1;
    }

    /** The "Create one" / "Sign in" link: flips the mode and clears the error. */
    method ToggleMode()
      requires Valid()
      modifies this`isLogin, this`error
      ensures Valid()
      ensures isLogin == !old(isLogin) && error == ""
    {
      isLogin := !isLogin;
      error := "";
    }
  }

  /** Signing in from the storefront: admins go to the dashboard, everyone
      else to their account, and `onSuccess` runs once. */
  method SignInRoutes(user: User, row: RoleRow, getUser: User)
    returns (pushed: seq<string>, successes: nat)
    ensures pushed == [if row.role == AdminRole then DashboardUrl else AccountUrl]
    ensures successes == 1
  {
    var m := new Modal();
    m.HandleSubmit(Returned(AuthReply(Some(user), None)), Returned(Some(getUser)), Returned(Reply(Some(row), None)),
                   Threw, "", Threw);
    pushed, successes := m.navigations, m.successCalls;
  }

  /** Switching to register mode with an unconfirmed password: the dialog shows
      the mismatch message and neither signs up nor reports success; closing it
      afterwards resets it to an empty login form. */
  method MismatchThenClose(signUp: Call<AuthReply>, now: string, upsert: Call<Reply<UserProfile>>)
    returns (shown: string, writes: seq<Actions.ProfileWrite>, successes: nat, loginAfterClose: bool, errorAfterClose: string)
    ensures shown == PasswordMismatch && writes == [] && successes == 0
    ensures loginAfterClose && errorAfterClose == ""
  {
    var m := new Modal();
    m.ToggleMode();
    m.password := "secret";
    m.HandleSubmit(Threw, Threw, Threw, signUp, now, upsert);
    shown, writes, successes := m.error, m.profileWrites, m.successCalls;
    m.HandleClose();
    loginAfterClose, errorAfterClose := m.isLogin, m.error;
  }
}
