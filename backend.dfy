/**
 The hosted authentication service and profile store, seen only through what
 their calls return. Every SDK call of the storefront is replaced by one of the
 values below, so the modules that model its logic are functions of these
 outcomes (or methods that take them as parameters).
 */
module Backend {

  datatype Option<+T> = None | Some(value: T)

  /** An awaited SDK call: it either resolved with a value or threw. */
  datatype Call<+T> = Returned(value: T) | Threw

  /** The `{ data, error }` pair a `.single()` query resolves with. */
  datatype Reply<+T> = Reply(data: Option<T>, error: Option<string>)

  /** An identity of the session provider (`user.id`, `user.email`). */
  datatype User = User(id: string, email: string)

  /** The `{ data: { user }, error }` pair of `signUp` and `signInWithPassword`;
      `error` holds the error's message. */
  datatype AuthReply = AuthReply(user: Option<User>, error: Option<string>)

  /** A row of `user_profiles` selected with `.select('role')`. */
  datatype RoleRow = RoleRow(role: string)

  /** A full row of `user_profiles`. */
  datatype UserProfile = UserProfile(
    id: string,
    userId: string,
    email: string,
    firstName: string,
    lastName: string,
    phone: Option<string>,
    role: string,
    createdAt: string,
    updatedAt: string)

  /** The two roles a caller may request at sign-up. */
  datatype Role = Admin | Customer

  const AdminRole: string := "admin"
  const CustomerRole: string := "customer"

  function RoleName(r: Role): (s: string)
    ensures s == AdminRole <==> r == Admin
  {
    match r
    case Admin => AdminRole
    case Customer => CustomerRole
  }

  /** The one role test every guard applies to the looked-up row:
      a row exists and its role is exactly `admin`. A missing row is a
      non-admin, never an error. */
  predicate IsAdminRow(row: Option<RoleRow>)
  {
    row.Some? && row.value.role == AdminRole
  }

  /** JavaScript's `a || b` on a string: an empty string is falsy. */
  function OrElse(s: string, fallback: string): (r: string)
    ensures r == s || r == fallback
    ensures r == fallback <==> s == "" || s == fallback
  {
    if s != "" then s else fallback
  }

  /** `x || b` where `x` is an optional string (undefined, null and `''` are falsy). */
  function OptionOrElse(s: Option<string>, fallback: string): (r: string)
    ensures s.Some? && s.value != "" ==> r == s.value
    ensures s.None? || s.value == "" ==> r == fallback
  {
    match s
    case Some(v) => OrElse(v, fallback)
    case None => fallback
  }

  /** A string field shown only when non-empty (`x && <div>…</div>`). */
  function Shown(s: Option<string>): (r: Option<string>)
    ensures r.Some? <==> s.Some? && s.value != ""
    ensures r.Some? ==> r == s
  {
    if s.Some? && s.value != "" then s else None
  }
}
