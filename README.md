# Request gate and body schemas of the library-management API

This project models, in Dafny, the two pieces of the library-management backend that hold decision
logic:

- **The request gate** (`middleware.ts`). It runs once per request, before any route handler. In a
  fixed order it applies a public-route bypass, checks that an `auth-token` cookie is present and
  not blank, asks the token verifier for the user, and checks that the user has a truthy `id`, a
  truthy `role`, and a role among `ADMIN`, `MANAGER`, `CLIENT` and `DELIVERY`. It then copies the
  request headers and sets `x-user-id`, `x-user-role` and (when `user.library` is truthy)
  `x-user-library-id` on them. On `/api/users/...` it applies a self-access rule and, for the
  `me` alias, sets `x-requested-user-id`. Finally it looks (role, path, method) up in a static
  permission table (`hasPermission`). Every request ends in exactly one outcome: a bypass of a
  public route (`NextResponse.next()` with no header map), a pass-through
  (`NextResponse.next({ headers })` with the enriched header map), 401, or 403.
- **The body schemas** (`lib/validator.ts`). These are the field constraints and cross-field
  refinements of the user, library, manager-assignment, book-creation and book-update bodies.

Layout, one module per file:

| file | module | models |
|---|---|---|
| `wrappers.dfy` | `Wrappers` | `Option`, `Result` |
| `text.dfy` | `Text` | `trim`, `startsWith`, `split('/')`, integer `toString` |
| `roles.dfy` | `Roles` | the `UserRole` values |
| `permissions.dfy` | `Permissions` | the permission table and `hasPermission` |
| `auth.dfy` | `Auth` | the shape of `verifyToken`'s result, over an abstract JWT oracle |
| `gate.dfy` | `Gate` | `middleware`: the decision function `Decide`, the imperative `Middleware` over a mutable `HeaderMap`, and their properties |
| `validator.dfy` | `Validator` | the five schemas |

`Gate.Middleware` follows the source statement by statement: early returns, and a `HeaderMap`
object updated in place with `Set`. It is proved equal to the stage-by-stage function
`Gate.Decide`. The lemmas about `Decide` state the properties of the gate.

Token verification is an oracle `verify: string -> Option<Payload>`. `Auth.VerifyTokenOracle`
builds it from an abstract `jwtVerify`, in the way `verifyToken` builds its result.

## What the code does, where the design intent differs

The model follows the code. The points below are where the code departs from the intended design.
Each is proved about the model.

- **Exact path matching.** `hasPermission` compares paths with `===`. A table entry such as
  `/api/users/[id]` or `/api/libraries/[library]` is a literal string, not a one-segment
  wildcard. As a result, no request for `/api/users/<seg>` passes unless `seg` is `me` or
  literally `[id]` (`Gate.UserRecordNeverPasses`). This holds even for a caller naming their own
  id, who clears the self-access rule and is then refused by the table. Likewise no request at or
  below `/api/libraries/<seg>` passes unless `seg` is literally `[library]`
  (`Gate.LibraryRecordNeverPasses`).
- **Self-access before the table.** The self-access rule runs before the permission check, and
  its 403 does not depend on the table (`Gate.SelfAccessDenied`).
- **No library-scope rule.** The gate has no library-scope check of any kind. A manager is never
  admitted to a concrete library path, whatever library its claim names.
- **The library header is never set from a real token.** The gate reads `user.library`, but
  `verifyToken` returns `libraryId`. With the real verifier the gate therefore never sets
  `x-user-library-id` (`Gate.RealTokenNeverSetsLibraryHeader`).
- **Client headers are kept.** The header map the gate hands to `NextResponse.next` starts as a
  copy of the client's headers, and the gate never removes anything. A client-supplied
  `x-user-library-id` therefore stays in that map whenever the claim has no truthy `library`.
  A client-supplied `x-requested-user-id` stays in it whenever the `me` alias is not used
  (`Gate.ForwardedHeaders`).
- **The `me` alias is not rewritten in the path.** The path itself is unchanged. The caller's id
  appears only as `x-requested-user-id` in the header map (`Gate.MeAliasResolvesToCaller`).
- **Error tags.** The 401 tags are: no usable token (`AuthRequired`); null verification, falsy
  id or falsy role (`InvalidUser`, message "Utilisateur invalide"); and a role outside `UserRole`
  (`InvalidToken`, message "Token invalide ou erreur serveur") (`Gate.ValidateUser`). Expired
  and tampered tokens are not told apart: `verifyToken` returns null whenever `jwtVerify` fails
  (`Auth.VerifyToken`).

## Model

| member | source | states |
|---|---|---|
| `Text.TrimStart` | middleware.ts:24 | the leading part `trim()` removes: the result is a suffix, everything cut off is whitespace, and it does not start with whitespace |
| `Text.TrimEnd` | middleware.ts:24 | the trailing part `trim()` removes: the result is a prefix, everything cut off is whitespace, and it does not end with whitespace |
| `Text.Trim` | middleware.ts:24 | `token.trim()`: both ends stripped of ECMAScript whitespace and line terminators (no contract of its own; see `Text.TrimEmptyIffBlank`) |
| `Text.TrimEmptyIffBlank` | middleware.ts:24 | `token.trim() === ''` holds exactly when every character of the token is ECMAScript whitespace or a line terminator |
| `Text.StartsWith` | middleware.ts:52 | `path.startsWith(prefix)`: the path is at least as long as the prefix and begins with it (a definition; see `Gate.SelfAccessDenied` and `Gate.MeAliasResolvesToCaller`) |
| `Text.Split` | middleware.ts:53 | `path.split('/')` yields one more piece than the path has slashes, and no piece contains a slash |
| `Text.JoinSplit` | middleware.ts:53 | joining the pieces of `split('/')` with `/` gives back the path |
| `Text.LastSegment` | middleware.ts:53-54 | `segments[segments.length - 1]` for `segments = path.split('/')` (a definition; see `Text.LastSegmentIsTail`) |
| `Text.LastSegmentIsTail` | middleware.ts:53-54 | `segments[segments.length - 1]` is the slash-free tail of the path, preceded by a slash unless it is the whole path |
| `Text.IntToString` | middleware.ts:62 | `Number#toString()` on an integer id: optional `-`, then decimal digits without leading zeros (no contract of its own; see `Text.IntToStringInjective` and `Text.IntToStringShape`) |
| `Text.IntToStringInjective` | middleware.ts:62 | two integer ids have the same `toString()` exactly when they are equal, so `userIdInPath === user.id.toString()` identifies exactly the caller's id |
| `Text.IntToStringShape` | middleware.ts:60-62 | a rendered id is non-empty and slash-free, and it is never `me` or a bracketed placeholder |
| `Permissions.PERMISSIONS` | middleware.ts:109-162 | the role-to-rules table, one entry per `UserRole` (a constant; see `Permissions.PermittedRequestIsListed` and `Permissions.AdminDominates`) |
| `Permissions.ADMIN_RULES` | middleware.ts:110-129 | the ADMIN rules, entry for entry (a constant; see `Permissions.AdminDominates`) |
| `Permissions.MANAGER_RULES` | middleware.ts:130-146 | the MANAGER rules, entry for entry (a constant; see `Permissions.AdminDominates`) |
| `Permissions.CLIENT_RULES` | middleware.ts:147-156 | the CLIENT rules, entry for entry (a constant; see `Permissions.AdminDominates`) |
| `Permissions.DELIVERY_RULES` | middleware.ts:157-161 | the DELIVERY rules, entry for entry (a constant; see `Permissions.DeliveryPermissions`) |
| `Permissions.RuleMatches` | middleware.ts:165-168 | the `.some` callback: the path is equal to the rule's, and the rule has no method list or one that includes the method (a definition; see `Permissions.SomeRuleMatches`) |
| `Permissions.SomeRuleMatches` | middleware.ts:164-169 | `rules.some(...)` is true iff some rule in the list has exactly this path and either no method list or one that contains the method |
| `Permissions.HasPermission` | middleware.ts:108-170 | true iff the role is one of the four `UserRole` values and one of its rules matches; any other role (missing from the table) is refused |
| `Permissions.PermittedRequestIsListed` | middleware.ts:109-162 | whatever the role, an admitted path is one written in the table and an admitted method is GET, POST, PATCH or DELETE |
| `Permissions.DeliveryPermissions` | middleware.ts:157-161 | DELIVERY is admitted exactly to GET/PATCH `/api/sales`, GET `/api/users/me` and GET `/api/public`; so GET `/api/books` is refused |
| `Permissions.AdminDominates` | middleware.ts:109-162 | whatever any role is admitted to, ADMIN is admitted to as well |
| `Permissions.UserRecordPathDenied` | middleware.ts:110-166 | `/api/users/<seg>` is refused to every role unless `seg` is `me` or the literal `[id]` |
| `Permissions.LibraryRecordPathDenied` | middleware.ts:110-166 | `/api/libraries/<seg>` and every path below it are refused to every role unless `seg` is the literal `[library]` |
| `Auth.VerifyToken` | lib/auth.ts:26-46 | verification yields a user exactly when the JWT verifies, and that user never has a `library` field |
| `Auth.VerifyTokenOracle` | lib/auth.ts:26-46 | the verifier as the gate calls it: `verifyToken` with the abstract `jwtVerify` fixed (a definition; see `Gate.RealTokenNeverSetsLibraryHeader`) |
| `Gate.PUBLIC_ROUTES` | middleware.ts:18 | the three public routes: login, register and logout (a constant; see `Gate.PublicRouteBypass`) |
| `Gate.TokenMissing` | middleware.ts:24 | no `auth-token` cookie, or one whose trimmed value is empty (a definition; see `Gate.BlankTokenRejected` and `Text.TrimEmptyIffBlank`) |
| `Gate.ClaimAccepted` | middleware.ts:33-39 | a non-null claim with a truthy id and a role among the four `UserRole` values (a definition; see `Gate.ValidateUser`) |
| `Gate.SelfAccess` | middleware.ts:60-63 | the `isSelfAccess` test: the segment is `me` or the caller's id as a string, or the caller is ADMIN (a definition; see `Gate.SelfAccessDenied` and `Gate.OtherUserRecordRefused`) |
| `Gate.Decide` | middleware.ts:12-105 | the gate's decision, stage by stage: public routes, token presence, claim checks, then `Authorize` (a definition; see `Gate.PassThroughIff`, `Gate.UnauthorizedIff` and `Gate.Middleware`) |
| `Gate.Authorize` | middleware.ts:44-94 | after an accepted claim: enrichment, the self-access 403 on users paths, the `me` header, then the table's 403 or pass-through (a definition; see `Gate.Authorized`) |
| `Gate.EnrichedHeaders` | middleware.ts:44-49 | the copied headers with `x-user-id`, `x-user-role` and, for a truthy `library`, `x-user-library-id` (a definition; see `Gate.EnrichedHeadersShape`) |
| `Gate.ValidateUser` | middleware.ts:32-41 | the claim is accepted iff it is non-null with a truthy id and a role in `UserRole`; it fails with `InvalidUser` exactly when it is null or its id or role is falsy, and with `InvalidToken` exactly when those hold but the role is outside `UserRole` |
| `Gate.HeaderMap.constructor` | middleware.ts:44 | `new Headers(request.headers)` starts as a copy of the incoming headers |
| `Gate.HeaderMap.Set` | middleware.ts:45-48 | `headers.set(name, value)` binds the name and leaves every other header as it was |
| `Gate.Middleware` | middleware.ts:12-105 | the imperative gate returns exactly the decision of `Decide`, and it consults the token oracle iff the path is not public and the token is present and not blank |
| `Gate.Authorized` | middleware.ts:44-94 | the enrichment, self-access and permission stages, with the headers updated in place, produce exactly the staged decision for an accepted claim |
| `Gate.PublicRouteBypass` | middleware.ts:18-21 | login, register and logout get the bare `NextResponse.next()` (`Bypass`), whatever the token and the oracle |
| `Gate.BlankTokenRejected` | middleware.ts:24-29 | on a non-public path a whitespace-only token gives 401 `AuthRequired` |
| `Gate.UnauthorizedIff` | middleware.ts:24-41 | on a non-public path the answer is 401 iff the token is missing or blank, or the oracle's claim is null, has a falsy id (0 included), has no role, or has a role outside `UserRole` |
| `Gate.SelfAccessDenied` | middleware.ts:52-73 | on `/api/users/...`, a non-ADMIN caller whose last segment is neither `me` nor their id gets 403 `ForbiddenOwnData`, whatever the table says |
| `Gate.PassThroughIff` | middleware.ts:18-94 | a request is bypassed iff its route is public; otherwise it passes with a header map iff its token is present, its claim is accepted, it clears the self-access rule on users paths, and the table admits it |
| `Gate.EnrichedHeadersShape` | middleware.ts:44-49 | enrichment sets `x-user-id` and `x-user-role`, sets `x-user-library-id` only for a truthy `library`, and leaves every other header alone |
| `Gate.ForwardedHeaders` | middleware.ts:44-94 | a non-public pass-through hands on the incoming headers with `x-user-id` = id and `x-user-role` = role; `x-user-library-id` is set only when `library` is truthy; `x-requested-user-id` = id is set only for the `me` alias; nothing else changes |
| `Gate.RealTokenNeverSetsLibraryHeader` | middleware.ts:47-48 | with the real `verifyToken`, a passed request carries `x-user-library-id` exactly as the client sent it, if at all |
| `Gate.MeAliasResolvesToCaller` | middleware.ts:76-78 | on a users path ending in `me`, an accepted caller passes iff the table admits it, and then `x-requested-user-id` is the caller's id |
| `Gate.EveryRoleMayReadMe` | middleware.ts:110-161 | each of the four roles may GET `/api/users/me` |
| `Gate.OtherUserRecordRefused` | middleware.ts:60-73 | a non-ADMIN caller asking for `/api/users/<n>` with `n` not their own id is refused with 403 `ForbiddenOwnData` (for example, client 42 asking for `/api/users/43`) |
| `Gate.UserRecordNeverPasses` | middleware.ts:52-90 | no request for `/api/users/<seg>` passes unless `seg` is `me` or the literal `[id]` |
| `Gate.LibraryRecordNeverPasses` | middleware.ts:82-90 | no request at or below `/api/libraries/<seg>` passes unless `seg` is the literal `[library]`, whatever the role and the claim's library |
| `Gate.DeliveryConfined` | middleware.ts:82-90 | on a non-public path, a delivery agent passes only for GET/PATCH `/api/sales`, GET `/api/users/me` and GET `/api/public`; for example GET `/api/books` never passes |
| `Validator.UserUpdateValid` | lib/validator.ts:4-15 | the user-update schema: per-field minimum lengths, the e-mail format, a `UserRole` role, and at least one field present (a definition; see the two lemmas below) |
| `Validator.EmptyUserUpdateRejected` | lib/validator.ts:12-15 | a user update in which every field is absent is refused |
| `Validator.AcceptedUserUpdate` | lib/validator.ts:4-15 | an accepted user update carries a field, a role in `UserRole` if any, and a password of at least 6 characters if any |
| `Validator.LibraryUpdateValid` | lib/validator.ts:17-23 | the library-update schema: minimum lengths 3, 10 and 6, and at least one known key (a definition; see `Validator.EmptyLibraryUpdateRejected`) |
| `Validator.EmptyLibraryUpdateRejected` | lib/validator.ts:17-23 | a library update with no known field is refused |
| `Validator.ParseAssignManager` | lib/validator.ts:25-27 | only a present, integral, positive `userId` is accepted, and the parsed id equals it |
| `Validator.ParseStatus` | lib/validator.ts:37 | `z.nativeEnum(BookStatus)` on a string: refused exactly when the string names no member; otherwise the member whose name it is |
| `Validator.ParseStatusName` | lib/validator.ts:37 | every member of `BookStatus` is parsed back from its own name |
| `Validator.ParseBookCreate` | lib/validator.ts:29-38 | a book is created iff title and author have at least 2 characters, `categoryId` is a positive integer, an `isbn` has at least 10 characters, `pages` is a positive integer, `coverUrl` is a URL and `status` names a `BookStatus` member when present; the created book keeps the fields, and its status is named by the body's status or is AVAILABLE if none |
| `Validator.BookCreateStatusDefault` | lib/validator.ts:37 | a created book whose body names no status is AVAILABLE |
| `Validator.BookCreateUnknownStatusRejected` | lib/validator.ts:37 | a body whose status is a string naming no `BookStatus` member creates no book |
| `Validator.DigitRunIff` | lib/validator.ts:59 | the anchored pattern `\d{n}` matches exactly the strings of n ASCII digits |
| `Validator.IsbnPatternIff` | lib/validator.ts:58-60 | the ISBN pattern accepts exactly the strings of 10 or of 13 digits |
| `Validator.BookUpdateFieldsValid` | lib/validator.ts:41-100 | the per-field constraints of the book update: title 2-100 characters, summary at most 1000, URL, `BookStatus` member, ISBN pattern, date not after the module-load time, pages 1-5000, 2-letter language, positive integer ids, price in [0, 1000] (a definition; see `Validator.AcceptedBookUpdateBounds`) |
| `Validator.BookUpdateValid` | lib/validator.ts:41-115 | the book-update schema: the field constraints plus the price-when-sellable and SOLD-only-if-sellable refinements (a definition; see the lemmas below) |
| `Validator.BookUpdateUnknownStatusRejected` | lib/validator.ts:55-56 | an update whose status is a string naming no `BookStatus` member is refused |
| `Validator.PriceGivenIfSellable` | lib/validator.ts:103-105 | the first object refinement: not `isSellable: true`, or a price is given (a definition; see `Validator.SellableNeedsPrice`) |
| `Validator.SoldOnlyIfSellable` | lib/validator.ts:106-115 | the second object refinement: a status of `"SOLD"` requires `isSellable` to be exactly true (a definition; see `Validator.SoldNeedsSellableAndPrice`) |
| `Validator.SellableNeedsPrice` | lib/validator.ts:103-105 | an update with `isSellable: true` and no price is refused |
| `Validator.SoldNeedsSellableAndPrice` | lib/validator.ts:103-115 | an update with status SOLD is accepted iff its fields are valid, `isSellable` is exactly true and a price is given; the price is then in [0, 1000] |
| `Validator.AcceptedBookUpdateBounds` | lib/validator.ts:41-89 | an accepted update has a 10- or 13-digit ISBN, an integer page count in [1, 5000], positive integer author, category and library ids, a title of 2 to 100 characters, a summary of at most 1000, a 2-character language and a status naming a `BookStatus` member, each when present |
| `Validator.EmptyBookUpdateAccepted` | lib/validator.ts:41-115 | an empty book update is accepted, unlike an empty user or library update |

## Left out

- JWT signing and verification (the `jose` library, the `JWT_SECRET` environment secret, expiry)
  are not modelled. They are the oracle `jwtVerify`. Token issuance (`generateToken`) is left out.
- The `config.matcher` route filter (middleware.ts:173-175) is left out. It is routing
  configuration of the hosting framework. The model applies the gate to every path it is given.
- Response construction is left out: the JSON bodies, the French messages and the
  `Content-Type` header. Only the error tag and its status are kept.
- `Gate.Decide`: `Bypass` is the bare `NextResponse.next()` of a public route. `Next(h)` is
  `NextResponse.next({ headers: h })`. What the hosting framework then makes of `h`, as response
  headers or as the route handler's request headers, is not modelled.
- `Permissions.HasPermission`: a role outside the table yields false. In the source, a role
  string naming an `Object.prototype` member (`toString`, `constructor`, `__proto__`) would make
  `permissions[role]?.some` throw instead. The gate validates the role before the lookup, so this
  case never arises from the gate.
- Header names are compared case-sensitively. The `Headers` object folds case, but every name the
  gate sets is lower-case, and incoming names are taken as already normalised.
- Ids and library ids are integers. Their `toString()` is the plain decimal rendering. Fractional
  numbers, NaN, exponent notation from 1e21 up, and claims whose `id` or `role` has another
  JavaScript type are not modelled.
- The `email` claim is carried but never read by the gate.
- E-mail and URL formats (lib/validator.ts:7, 36, 51-53) are the predicates `isEmail` and `isUrl`.
  They stand for the schema library's checks.
- The price refinement `val % 0.01 === 0` (lib/validator.ts:98-100) is left out. It is a
  floating-point check, and prices are exact `real`s here.
- JSON numbers are exact `real`s, with no NaN, infinities or rounding. Strings are sequences of
  Unicode scalar values, so a length counts a character outside the Basic Multilingual Plane once.
  JavaScript counts it twice.
- `publishedDate` is a time in milliseconds. `now` stands for the `new Date()` at
  lib/validator.ts:63, which runs once when the schema module loads, not at each parse. A book
  published after the server started is therefore refused. Date coercion of arbitrary input is
  left out.
- Type errors are left out: a field of the wrong JSON type, and a key explicitly set to
  `undefined` (which JSON cannot carry). Unknown keys are stripped and do not appear in the
  records. The list of validation issues and their messages is left out; only acceptance is
  modelled.
- The members of `BookStatus` other than AVAILABLE and SOLD come from a generated enumeration
  that is not part of this model. Their names are the parameter `otherStatuses`.
- The route handlers (`app/api/**/route.ts`), login, registration and the logger are left out.
  They are database queries, password hashing, cookies and logging.
