# Admin access control and admin views of a small shop

This project models, in Dafny, the core of a small web shop built on Next.js
and Supabase: the part that decides who may reach the admin area and what the
admin screens do with their data. It has four pieces.

- **Edge guard** (`Middleware`). The filter that runs before every admin page.
  It redirects unauthenticated and non-admin actors to the login page, and a
  signed-in admin away from it.
- **Auth actions** (`Actions`). `checkAdminRole`, `getUserProfile`,
  `upsertUserProfile`, `signUpUser` and `signInUser`. Every call into the
  identity service or the database is an input of the model. A `Call` either
  returns or throws. A `Reply` carries the `data` and `error` halves of a
  client answer.
- **Client-side state** (`AdminProtected`, `AdminLogin`, `AuthModal`,
  `ProductForm`). The client guard, the admin login page, the storefront
  sign-in dialog and the product editor. Each is a class whose fields are the
  component's state. Each handler is a method that changes those fields in one
  atomic step. Navigation, profile writes, sign-outs and callback invocations
  are recorded in fields.
- **Admin tables** (`CustomOrdersTable`, `OrdersTable`). One pure function per
  display rule: status options, badge colours, option labels, shortened ids,
  the image preview, the product-name fallback and the empty state.

`Backend` holds the shared value types: users, profile rows, role names and
the outcome wrappers. `Text` holds the string operations of the JavaScript
runtime that the components use: `trim`, `replace` with a one-character
pattern together with `indexOf`, the first-occurrence search that `replace`
performs, `toUpperCase` on one character, and `slice`.

Two behaviours of the code worth noting:

- The edge guard redirects a signed-in actor away from the login page only when
  their profile role is `admin` (`src/middleware.ts:54-65`). A non-admin sees
  the login page.
- On a sign-out event the client guard clears both flags and navigates to the
  login page. It does not go back to its loading state
  (`src/components/admin/AdminProtected.tsx:51-54`).

## Model

| member | source | states |
|---|---|---|
| Backend.RoleName | src/lib/actions.ts:91 | the role written is the string `admin` exactly for the admin role |
| Backend.OrElse | src/components/admin/OrdersTable.tsx:90 | the string when it is non-empty and the fallback otherwise, as the product-name cell does |
| Backend.OptionOrElse | src/app/admin/login/page.tsx:36 | the error message or a default: the message when one is present and non-empty, the default otherwise |
| Text.TrimStart | src/components/admin/ProductForm.tsx:75 | the result is a suffix of the input, everything removed is whitespace, and it does not start with whitespace |
| Text.TrimEnd | src/components/admin/ProductForm.tsx:75 | the result is a prefix of the input, everything removed is whitespace, and it does not end with whitespace |
| Text.Trim | src/components/admin/ProductForm.tsx:75 | `trim()`: the input with its leading and trailing whitespace removed: it occurs in the input at some position with only whitespace before and after it (`WhitespacePadded`); a non-empty result neither starts nor ends with whitespace |
| Text.TrimEmptyIff | src/components/admin/ProductForm.tsx:75 | a trimmed string is empty exactly when the whole input is whitespace |
| Text.TrimIdempotent | src/components/admin/ProductForm.tsx:75-78 | trimming a trimmed URL changes nothing |
| Text.IndexOf | src/components/admin/CustomOrdersTable.tsx:121 | -1 exactly when the character is absent, otherwise the position of its first occurrence |
| Text.IndexOfAt | src/components/admin/CustomOrdersTable.tsx:121 | a character present at `k` and absent before it is first found at `k` |
| Text.ReplaceFirst | src/components/admin/CustomOrdersTable.tsx:121 | `replace('_', ' ')`: the space is spliced in at the first `_` and the rest stays; without a `_` nothing changes |
| Text.ToUpper | src/components/admin/OrdersTable.tsx:111 | lower-case ASCII letters map to upper case; every other character is unchanged |
| Text.Capitalize | src/components/admin/OrdersTable.tsx:111 | `charAt(0).toUpperCase() + slice(1)`: same length, first character upper-cased, rest unchanged |
| Text.Prefix | src/components/admin/CustomOrdersTable.tsx:132 | `slice(0, n)`: the first `min(n, length)` elements |
| Text.TruncatedId | src/components/admin/CustomOrdersTable.tsx:82 | the id's first 8 characters (all of a shorter id) followed by `...` |
| Middleware.Decide | src/middleware.ts:28-67 | redirects only under `/admin`, and only to the login page or the dashboard; a protected path (`IsProtected`: under `/admin` and not the login page) passes exactly for an admin actor (a user whose profile row satisfies `IsAdminRow`); the login page passes exactly for a non-admin actor |
| Middleware.ProtectedWithoutUser | src/middleware.ts:31-36 | a protected path without a user goes to `/admin/login` |
| Middleware.ProtectedWithoutAdminProfile | src/middleware.ts:38-51 | a user without an admin profile goes to `/admin/login?error=unauthorized` |
| Middleware.ProtectedForAdmin | src/middleware.ts:38-51 | an admin reaches every protected path unchanged |
| Middleware.LoginPage | src/middleware.ts:53-65 | the login page sends an admin to `/admin` and serves itself to everybody else |
| Middleware.OutsideAdminPasses | src/middleware.ts:32-67 | paths outside `/admin` are never redirected |
| Middleware.FailClosed | src/middleware.ts:28-67 | under `/admin`, passing is equivalent to being an admin actor (or, on the login page, to not being one) |
| Middleware.NoRedirectLoop | src/middleware.ts:28-67 | following any redirect with the same session passes after one hop |
| Middleware.Handle | src/middleware.ts:70-72 | requests outside the matcher (`Matches`) pass untouched; matched requests get the guard's decision |
| Middleware.MatcherWithinAdminPrefix | src/middleware.ts:70-72 | everything the matcher admits lies under `/admin`, so registration never widens the filter |
| Middleware.HandleNoRedirectLoop | src/middleware.ts:35-72 | every redirect target is matched and passes, so the registered filter never loops |
| Actions.CheckAdminRole | src/lib/actions.ts:9-32 | true exactly when there is a user and the role lookup returned, without error, a row whose role is `admin` (the row test `IsAdminRow` the edge guard also uses); every failure and exception gives false |
| Actions.CheckAdminRoleWithoutUser | src/lib/actions.ts:13-15 | no user gives false, whatever the store holds |
| Actions.CheckAdminRoleLookupFailure | src/lib/actions.ts:23-31 | a failing, empty or throwing lookup gives false |
| Actions.CheckAdminRoleOnRow | src/lib/actions.ts:27 | with a user and a row, the verdict is exactly "role equals `admin`" |
| Actions.ResolverAgreesWithEdgeGuard | src/lib/actions.ts:9-32 | the client resolver is never laxer than the edge guard, and they agree whenever the reply carries no error |
| Actions.GetUserProfile | src/lib/actions.ts:37-54 | the row when the lookup succeeded, null on an error, a missing row or an exception |
| Actions.UpsertUserProfile | src/lib/actions.ts:59-80 | sends the fields with `updated_at` set to the current time; the returned row, or null on any failure |
| Actions.SignUpUser | src/lib/actions.ts:85-123 | an exception or an auth error fails with its message and writes nothing; a profile is written exactly when a user was created, with that user's id and email, the requested role and the given fields; success then means the upsert returned a row; with no error and no user it succeeds without a write |
| Actions.SignInUser | src/lib/actions.ts:129-149 | success exactly when the auth call returned a user and no error, with `isAdmin` from the admin check; each failure carries its own message |
| Actions.CustomerSignUpIsNeverAdmin | src/lib/actions.ts:85-123 | a customer sign-up writes the `customer` role, which no admin check accepts |
| Actions.AdminSignUpThenSignIn | src/lib/actions.ts:85-149 | an admin sign-up followed by a sign-in of the same user signs in as an admin |
| AdminProtected.Guard.constructor | src/components/admin/AdminProtected.tsx:14-16 | the guard starts loading, unauthenticated and not admin |
| AdminProtected.Guard.Render | src/components/admin/AdminProtected.tsx:69-96 | children exactly when loaded, authenticated and admin; while loading, the fallback or the spinner; otherwise Access Denied |
| AdminProtected.Guard.Mount | src/components/admin/AdminProtected.tsx:48-64 | the session listener is subscribed |
| AdminProtected.Guard.CheckAuth | src/components/admin/AdminProtected.tsx:20-46 | loading always ends; without a user or on an exception it goes to login; with a user it is authenticated, admin exactly as the role check of the nested user and lookup outcomes says, and goes to the unauthorized login URL otherwise |
| AdminProtected.Guard.OnAuthStateChange | src/components/admin/AdminProtected.tsx:50-64 | sign-out or no session clears both flags and goes to login; a session with a user sets the admin flag to the role check of the nested user and lookup outcomes; once unsubscribed nothing changes |
| AdminProtected.Guard.GoToLogin | src/components/admin/AdminProtected.tsx:85-90 | the Access Denied button goes to `/admin/login` |
| AdminProtected.Guard.Unmount | src/components/admin/AdminProtected.tsx:66 | the listener is released |
| AdminProtected.SignOutWhileViewing | src/components/admin/AdminProtected.tsx:20-96 | an admin sees the children, then after signing out sees Access Denied and is sent to login |
| AdminProtected.CustomerIsTurnedAway | src/components/admin/AdminProtected.tsx:20-96 | a customer never sees the children and is sent to the unauthorized login URL |
| AdminProtected.NoUpdatesAfterUnmount | src/components/admin/AdminProtected.tsx:50-66 | after teardown, session events no longer change the view |
| AdminProtected.ChildrenOnlyForAdminRow | src/components/admin/AdminProtected.tsx:20-96 | after the initial check the children show exactly when the role check found a user whose profile row says `admin`; otherwise Access Denied shows |
| AdminLogin.LoginPage.constructor | src/app/admin/login/page.tsx:9-16 | an empty form in login mode, with no error |
| AdminLogin.LoginPage.ApplyErrorParam | src/app/admin/login/page.tsx:20-25 | only `error=unauthorized` sets the privileges message |
| AdminLogin.LoginPage.HandleLogin | src/app/admin/login/page.tsx:27-54 | a failed sign-in shows its message; a non-admin is signed out and shown the privileges message; an admin goes to `/admin` |
| AdminLogin.LoginPage.HandleRegister | src/app/admin/login/page.tsx:56-78 | registers with the `admin` role; a failure shows its message and stays in register mode; success returns to login mode |
| AdminLogin.LoginPage.Submit | src/app/admin/login/page.tsx:27-94 | in register mode, the outcome of the registration handler and no navigation or sign-out; in login mode, the outcome of the login handler, no profile write, and the page stays in login mode |
| AdminLogin.LoginPage.ToggleMode | src/app/admin/login/page.tsx:163-167 | flips the mode and clears the error |
| AdminLogin.NonAdminSignInIsRefused | src/app/admin/login/page.tsx:27-54 | a non-admin ends signed out with the privileges message and no navigation |
| AdminLogin.UnauthorizedThenRegister | src/app/admin/login/page.tsx:20-78 | after an unauthorized redirect and a registration, the page is back in login mode and one admin profile was written |
| AuthModal.Modal.constructor | src/components/AuthModal.tsx:14-22 | an empty form in login mode |
| AuthModal.Modal.HandleSubmit | src/components/AuthModal.tsx:25-69 | a password mismatch stops before any call; a sign-in routes admins to `/admin` and others to `/account`; a sign-up registers a customer; `onSuccess` runs exactly on success |
| AuthModal.Modal.HandleClose | src/components/AuthModal.tsx:71-81 | every field is cleared, login mode is restored, then `onClose` runs |
| AuthModal.Modal.ToggleMode | src/components/AuthModal.tsx:181-184 | flips the mode and clears the error |
| AuthModal.SignInRoutes | src/components/AuthModal.tsx:37-49 | a sign-in routes by role and calls `onSuccess` once |
| AuthModal.MismatchThenClose | src/components/AuthModal.tsx:30-34 | a mismatched confirmation writes nothing and reports no success; closing resets the dialog |
| ProductForm.OrEmpty | src/components/admin/ProductForm.tsx:27-29 | a null field loads as the empty string |
| ProductForm.NullIfEmpty | src/components/admin/ProductForm.tsx:42-44 | an empty field saves as null |
| ProductForm.FormOf | src/components/admin/ProductForm.tsx:24-32 | loading copies every field, with null text fields as `''` and null images as `[]` |
| ProductForm.ToProductData | src/components/admin/ProductForm.tsx:40-46 | saving stores empty text fields and an empty image list as null, and everything else as it stands |
| ProductForm.WriteFor | src/components/admin/ProductForm.tsx:48-63 | an existing product is updated by its id; otherwise a new one is inserted |
| ProductForm.LoadThenSaveIsIdentity | src/components/admin/ProductForm.tsx:24-46 | opening a stored product and saving it unedited writes back its own fields |
| ProductForm.SaveThenLoadIsIdentity | src/components/admin/ProductForm.tsx:24-46 | saving a form and reopening the saved product gives back the same form |
| ProductForm.FilterOutIndex | src/components/admin/ProductForm.tsx:87 | the filter drops exactly the element at the index, when it is in range |
| ProductForm.RemoveImage | src/components/admin/ProductForm.tsx:84-89 | exactly the element at the index goes and the rest keep their order; an out-of-range index changes nothing |
| ProductForm.AddImage | src/components/admin/ProductForm.tsx:74-82 | a non-blank URL is appended trimmed; a blank one adds nothing |
| ProductForm.RemoveUndoesAdd | src/components/admin/ProductForm.tsx:74-89 | removing the image just added restores the list |
| ProductForm.Form.constructor | src/components/admin/ProductForm.tsx:12-21 | an empty form, not loading, nothing written |
| ProductForm.Form.LoadProduct | src/components/admin/ProductForm.tsx:23-33 | an existing product replaces the form; none leaves it as it was |
| ProductForm.Form.HandleAddImage | src/components/admin/ProductForm.tsx:74-82 | a non-blank URL is appended trimmed and the input cleared; a blank one changes nothing |
| ProductForm.Form.HandleRemoveImage | src/components/admin/ProductForm.tsx:84-89 | only the image list changes, by `RemoveImage` |
| ProductForm.Form.HandleSubmit | src/components/admin/ProductForm.tsx:35-72 | one store write per submit; `onClose` on success, the error alert on failure; loading ends false |
| CustomOrdersTable.StatusColor | src/components/admin/CustomOrdersTable.tsx:19-30 | completed is green, in_progress is blue, cancelled is red, every other status is gray |
| CustomOrdersTable.OptionColoursDistinct | src/components/admin/CustomOrdersTable.tsx:17-30 | the four options have four different colours |
| CustomOrdersTable.OptionLabel | src/components/admin/CustomOrdersTable.tsx:121 | same length as the status; the first `_` becomes a space, then the first character is upper-cased; a status without `_` is only capitalised |
| CustomOrdersTable.Options | src/components/admin/CustomOrdersTable.tsx:119-123 | one option per status, in order, valued by the status and labelled by `OptionLabel` |
| CustomOrdersTable.LabelOfSnakeCase | src/components/admin/CustomOrdersTable.tsx:121 | for a status `a_b` whose first word `a` has no underscore, the label is `a b` capitalised: only that first underscore becomes a space |
| CustomOrdersTable.InProgressLabel | src/components/admin/CustomOrdersTable.tsx:121 | `in_progress` is shown as `In progress` |
| CustomOrdersTable.OptionLabels | src/components/admin/CustomOrdersTable.tsx:17 | the dropdown offers pending, in_progress, completed and cancelled, in that order, labelled Pending, In progress, Completed and Cancelled |
| CustomOrdersTable.ImagePreview | src/components/admin/CustomOrdersTable.tsx:130-152 | null or no images shows "No images"; otherwise at most the first two, and a `+k` badge exactly when there are more than two, with k the rest |
| CustomOrdersTable.PreviewCountsEveryImage | src/components/admin/CustomOrdersTable.tsx:132-147 | the thumbnails and the badge together count every image |
| Backend.Shown | src/components/admin/CustomOrdersTable.tsx:92-105 | the phone and note lines appear exactly when non-empty |
| CustomOrdersTable.RowOf | src/components/admin/CustomOrdersTable.tsx:78-187 | a row shows the shortened id and reports status changes and deletions under the full id |
| CustomOrdersTable.ShortIdsMayCoincide | src/components/admin/CustomOrdersTable.tsx:82-116 | two ids that share 8 leading characters show the same text but report under different ids |
| CustomOrdersTable.RowsOf | src/components/admin/CustomOrdersTable.tsx:78 | one row per order, in order |
| CustomOrdersTable.Render | src/components/admin/CustomOrdersTable.tsx:32-46 | an empty list renders only the empty state; otherwise one row per order, with the fixed options |
| OrdersTable.StatusColor | src/components/admin/OrdersTable.tsx:14-25 | completed is green, processing is yellow, cancelled is red, every other status is gray |
| OrdersTable.OptionColoursDistinct | src/components/admin/OrdersTable.tsx:12-25 | the four options have four different colours |
| OrdersTable.OptionLabel | src/components/admin/OrdersTable.tsx:111 | the first character is upper-cased and the rest is unchanged |
| OrdersTable.Options | src/components/admin/OrdersTable.tsx:109-113 | one option per status, in order, valued by the status and labelled by `OptionLabel` |
| OrdersTable.LabelOfLowerCase | src/components/admin/OrdersTable.tsx:111 | a status starting with a lower-case letter is shown with that letter in upper case |
| OrdersTable.OptionLabels | src/components/admin/OrdersTable.tsx:12 | the dropdown offers pending, processing, completed and cancelled, in that order, labelled Pending, Processing, Completed and Cancelled |
| OrdersTable.ProductName | src/components/admin/OrdersTable.tsx:90 | the product's name, or `Unknown Product` when there is no product or its name is empty |
| OrdersTable.RowOf | src/components/admin/OrdersTable.tsx:73-131 | a row shows the shortened id and the product fallback, and reports status changes under the full id |
| OrdersTable.ShortIdsMayCoincide | src/components/admin/OrdersTable.tsx:77-106 | two ids that share 8 leading characters show the same text but report under different ids |
| OrdersTable.RowsOf | src/components/admin/OrdersTable.tsx:73 | one row per order, in order |
| OrdersTable.Render | src/components/admin/OrdersTable.tsx:27-41 | an empty list renders only the empty state; otherwise one row per order, with the fixed options |

## Left out

- Session transport is not modelled: cookies, the server client and the environment keys (`src/middleware.ts:6-26`). The edge guard sees only the user and the profile row.
- Exceptions raised inside the edge guard are not modelled. The source has no handler for them.
- Asynchrony is not modelled. Each handler runs as one atomic step. Interleavings of `checkAuth` with session events, and checks that complete after teardown, are out of scope.
- Strings are sequences of Unicode characters, while `slice`, `charAt` and the search inside `replace` count UTF-16 code units. The two agree on the ids and the fixed status names the views handle; text outside the Basic Multilingual Plane is not modelled.
- The user's email is taken as always present (`data.user.email!`, `src/lib/actions.ts:107`).
- `Partial<UserProfile>` is modelled only as the fields `signUpUser` sends.
- Logging (`console.error`) and the `alert` dialogs are not modelled, except in `ProductForm.Form.HandleSubmit`, which counts the error alert.
- `ProductForm` keeps the price as text. `toString` and `parseFloat` are floating-point conversions and are left out.
- The order totals and custom-order budgets (`toFixed`) and the locale dates (`toLocaleDateString`) are not modelled.
- The View Details alert text is not modelled (`src/components/admin/CustomOrdersTable.tsx:157-174`).
- Text.ToUpper: maps ASCII letters only, while `toUpperCase` also maps other scripts and can change a string's length.
- Middleware.Handle: models the matcher `/admin/:path*` as "exactly `/admin`, or `/admin/` followed by anything". It does not model the full path-matching grammar.
- The `onChange` setters of the input fields are not modelled. Scenario methods assign the fields directly.
- The modal's `isOpen` early return is not modelled.
- The dropdown's options are kept once per table, not once per row. They are the same list on every row.
- The order type is not part of this model (`src/lib/types.ts` holds only `Product`). `OrdersTable.Order` holds the fields the table reads. The orders page selects the joined rows under `products` (`src/app/admin/orders/page.tsx:16-23`), while the table reads `order.product`. The model follows the table.
