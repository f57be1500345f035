/**
 The role resolver and the auth actions: `checkAdminRole`, `getUserProfile`,
 `upsertUserProfile`, `signUpUser` and `signInUser`. Each is a chain of early
 returns over awaited SDK results; here each is a function of those results.
 Every failure, including a thrown exception, becomes `false`, `None` or a
 result whose `success` is false: none of them throws to its caller.
 */
module Actions {
  import opened Backend
  import Middleware

  const UnexpectedError: string := "An unexpected error occurred"
  const ProfileCreationFailed: string := "Failed to create user profile"
  const SignInFailed: string := "Sign in failed"

  /** `{ success: boolean; isAdmin?: boolean; error?: string }` */
  datatype AuthResult = AuthResult(success: bool, isAdmin: Option<bool>, error: Option<string>)

  function Failure(message: string): AuthResult
  {
    AuthResult(false, None, Some(message))
  }

  /** The profile fields `signUpUser` hands to `upsertUserProfile`. */
  datatype ProfileFields = ProfileFields(
    userId: string,
    email: string,
    role: string,
    firstName: string,
    lastName: string,
    phone: string)

  /** What `upsertUserProfile` sends to the store: the fields it was given and
      `updated_at` set to the current time. */
  datatype ProfileWrite = ProfileWrite(fields: ProfileFields, updatedAt: string)

  /** What `upsertUserProfile` sent, and the row (or null) it resolves with. */
  datatype Upsert = Upsert(sent: ProfileWrite, row: Option<UserProfile>)

  /** What `signUpUser` resolves with, and the profile write it made, if any. */
  datatype SignUp = SignUp(result: AuthResult, write: Option<ProfileWrite>)

  /** `checkAdminRole()`. `getUser` is the outcome of `auth.getUser()`; `lookup`
      the outcome of selecting the role of that user's profile row. The verdict
      is true on exactly one shape of outcome: a user, and a lookup that resolved
      without error with a row whose role is `admin`. */
  function CheckAdminRole(getUser: Call<Option<User>>, lookup: Call<Reply<RoleRow>>): (isAdmin: bool)
    ensures isAdmin ==> getUser.Returned? && getUser.value.Some?
    ensures isAdmin <==> (getUser.Returned? && getUser.value.Some? &&
                          lookup == Returned(Reply(Some(RoleRow(AdminRole)), None)))
  {
    match getUser
    case Threw => false
    case Returned(user) =>
      if user.None? then false
      else
        match lookup
        case Threw => false
        case Returned(Reply(userProfile, error)) =>
          if error.Some? || userProfile.None? then false
          else userProfile.value.role == AdminRole
  }

  /** No user: false, whatever the store would have answered. */
  lemma CheckAdminRoleWithoutUser(lookup: Call<Reply<RoleRow>>)
    ensures !CheckAdminRole(Returned(None), lookup)
  {
  }

  /** A lookup that errs, finds no row or throws gives false, never an error. */
  lemma CheckAdminRoleLookupFailure(user: User, lookup: Call<Reply<RoleRow>>)
    requires lookup.Threw? || lookup.value.error.Some? || lookup.value.data.None?
    ensures !CheckAdminRole(Returned(Some(user)), lookup)
  {
  }

  /** With a user and a row, the verdict is exactly "the role equals `admin`". */
  lemma CheckAdminRoleOnRow(user: User, row: RoleRow)
    ensures CheckAdminRole(Returned(Some(user)), Returned(Reply(Some(row), None))) <==> row.role == AdminRole
  {
  }

  /** The client-side resolver is never laxer than the edge guard: when it says
      admin, the edge guard (which reads only the reply's `data`) lets the same
      actor through every protected path. When the reply carries no error the two
      agree exactly. */
  lemma {:induction false} ResolverAgreesWithEdgeGuard(user: User, reply: Reply<RoleRow>, path: string)
    requires Middleware.IsProtected(path)
    ensures CheckAdminRole(Returned(Some(user)), Returned(reply)) ==>
            Middleware.Decide(path, Some(user), reply.data) == Middleware.Pass
    ensures reply.error.None? ==>
            (CheckAdminRole(Returned(Some(user)), Returned(reply)) <==>
             Middleware.Decide(path, Some(user), reply.data) == Middleware.Pass)
  {
    assert Middleware.IsAdminActor(Some(user), reply.data) <==> IsAdminRow(reply.data);
  }

  /** `getUserProfile(userId)`, given the outcome of the lookup by that id: the
      row when the query resolved without error and found one, null otherwise. */
  function GetUserProfile(lookup: Call<Reply<UserProfile>>): (profile: Option<UserProfile>)
    ensures profile.Some? ==> lookup == Returned(Reply(profile, None))
    ensures lookup.Returned? && lookup.value.error.None? ==> profile == lookup.value.data
    ensures lookup.Threw? || lookup.value.error.Some? ==> profile.None?
  {
    match lookup
    case Threw => None
    case Returned(Reply(userProfile, error)) =>
      if error.Some? || userProfile.None? then None else userProfile
  }

  /** `upsertUserProfile(profile)` at time `now`, given the store's reply: it
      sends the fields with `updated_at` set to `now`, and resolves with the
      returned row, or null on an error, a missing row or an exception. */
  function UpsertUserProfile(profile: ProfileFields, now: string, reply: Call<Reply<UserProfile>>): (r: Upsert)
    ensures r.sent.fields == profile && r.sent.updatedAt == now
    ensures r.row.Some? ==> reply == Returned(Reply(r.row, None))
    ensures reply.Returned? && reply.value.error.None? ==> r.row == reply.value.data
  {
    var row :=
      match reply
      case Threw => None
      case Returned(Reply(userProfile, error)) =>
        if error.Some? || userProfile.None? then None else userProfile;
    Upsert(ProfileWrite(profile, now), row)
  }

  /** `signUpUser(email, password, firstName, lastName, phone, role)`. `auth` is
      the outcome of `auth.signUp`; `now` and `upsert` are the time and the
      store's reply for the profile write, used only when a user was created. */
  function SignUpUser(
    email: string, password: string, firstName: string, lastName: string, phone: string,
    role: Role, auth: Call<AuthReply>, now: string, upsert: Call<Reply<UserProfile>>): (r: SignUp)
    // an exception from the auth service: a generic failure and no write
    ensures auth.Threw? ==> r == SignUp(Failure(UnexpectedError), None)
    // an auth error: its message, and no profile write
    ensures auth.Returned? && auth.value.error.Some? ==>
              r == SignUp(Failure(auth.value.error.value), None)
    // a write happens only for a newly created user, and carries that user's
    // id and email, the requested role and the given names and phone
    ensures r.write.Some? <==> auth.Returned? && auth.value.error.None? && auth.value.user.Some?
    ensures r.write.Some? ==>
              var u := auth.value.user.value;
              r.write.value == ProfileWrite(ProfileFields(u.id, u.email, RoleName(role), firstName, lastName, phone), now)
    // with a write, success is exactly "the upsert resolved with a row"
    ensures r.write.Some? ==>
              (r.result.success <==> upsert.Returned? && upsert.value.error.None? && upsert.value.data.Some?)
    ensures r.write.Some? && !r.result.success ==> r.result == Failure(ProfileCreationFailed)
    // no error and no user (e.g. confirmation pending): success without a write
    ensures auth.Returned? && auth.value.error.None? && auth.value.user.None? ==>
              r == SignUp(AuthResult(true, None, None), None)
    ensures r.result.success ==> r.result == AuthResult(true, None, None)
    ensures !r.result.success ==> r.result.error.Some? && r.result.isAdmin.None?
  {
    match auth
    case Threw => SignUp(Failure(UnexpectedError), None)
    case Returned(AuthReply(user, error)) =>
      if error.Some? then SignUp(Failure(error.value), None)
      else if user.Some? then
        var profileResult := UpsertUserProfile(
          ProfileFields(user.value.id, user.value.email, RoleName(role), firstName, lastName, phone), now, upsert);
        if profileResult.row.None? then SignUp(Failure(ProfileCreationFailed), Some(profileResult.sent))
        else SignUp(AuthResult(true, None, None), Some(profileResult.sent))
      else SignUp(AuthResult(true, None, None), None)
  }

  /** `signInUser(email, password)`. `auth` is the outcome of
      `auth.signInWithPassword`; `getUser` and `lookup` are what the nested
      `checkAdminRole()` sees. */
  function SignInUser(
    email: string, password: string, auth: Call<AuthReply>,
    getUser: Call<Option<User>>, lookup: Call<Reply<RoleRow>>): (r: AuthResult)
    ensures auth.Threw? ==> r == Failure(UnexpectedError)
    ensures auth.Returned? && auth.value.error.Some? ==> r == Failure(auth.value.error.value)
    ensures auth.Returned? && auth.value.error.None? && auth.value.user.None? ==> r == Failure(SignInFailed)
    ensures r.success <==> auth.Returned? && auth.value.error.None? && auth.value.user.Some?
    ensures r.success ==> r.error.None? && r.isAdmin == Some(CheckAdminRole(getUser, lookup))
    ensures !r.success ==> r.error.Some? && r.isAdmin.None?
  {
    match auth
    case Threw => Failure(UnexpectedError)
    case Returned(AuthReply(user, error)) =>
      if error.Some? then Failure(error.value)
      else if user.Some? then AuthResult(true, Some(CheckAdminRole(getUser, lookup)), None)
      else Failure(SignInFailed)
  }

  /** A customer sign-up creates a profile that no later admin check accepts:
      whatever the store returns for the written role, the verdict is false. */
  lemma {:induction false} CustomerSignUpIsNeverAdmin(
    email: string, password: string, firstName: string, lastName: string, phone: string,
    auth: Call<AuthReply>, now: string, upsert: Call<Reply<UserProfile>>,
    user: User, error: Option<string>)
    requires SignUpUser(email, password, firstName, lastName, phone, Customer, auth, now, upsert).write.Some?
    ensures var w := SignUpUser(email, password, firstName, lastName, phone, Customer, auth, now, upsert).write.value;
            w.fields.role == CustomerRole &&
            !CheckAdminRole(Returned(Some(user)), Returned(Reply(Some(RoleRow(w.fields.role)), error)))
  {
    var w := SignUpUser(email, password, firstName, lastName, phone, Customer, auth, now, upsert).write.value;
    assert w.fields.role == RoleName(Customer);
  }

  /** An admin sign-up followed by a sign-in of the same user, with the store
      returning the role that was written, signs in as an admin. */
  lemma {:induction false} AdminSignUpThenSignIn(
    email: string, password: string, firstName: string, lastName: string, phone: string,
    user: User, now: string, row: UserProfile)
    ensures var up := SignUpUser(email, password, firstName, lastName, phone, Admin,
                                 Returned(AuthReply(Some(user), None)), now, Returned(Reply(Some(row), None)));
            up.result.success && up.write.Some? &&
            SignInUser(email, password, Returned(AuthReply(Some(user), None)), Returned(Some(user)),
                       Returned(Reply(Some(RoleRow(up.write.value.fields.role)), None)))
              == AuthResult(true, Some(true), None)
  {
    var up := SignUpUser(email, password, firstName, lastName, phone, Admin,
                         Returned(AuthReply(Some(user), None)), now, Returned(Reply(Some(row), None)));
    assert up.write.value.fields.role == RoleName(Admin);
  }
}
