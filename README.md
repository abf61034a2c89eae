# agrotech user accounts and listing pages, modelled in Dafny

This project models the account workflow of the agrotech server and the two client pages that
feed it or read from it:

- **The user record** (`Server/models/user.js`). The schema is a `datatype User` with the
  schema's defaults (`role` "farmer", `isVerified` false, `registrationDate` now) and its
  `required` and `unique` constraints.
- **The user controller** (`Server/controllers/userController.js`). `UserStore` is a class over a
  mutable `map<UserId, User>`, with the mail relay's log as a second field. Its methods are
  `createUser`, `verifyEmail`, `resendVerificationEmail`, `loginUser`, `getUser`, `getUsers`,
  `updateUser` and `deleteUser`. Each reply's status, message and body is stated per case, along
  with the new store.
- **The bearer gate** (`Server/middleware/validateTokenHandler.js`). It covers the header lookup,
  the `"Bearer "` prefix test, the `split(' ')[1]` extraction and the three-way decision. It also
  covers the `req.user` write and the `next` call on a request object.
- **The registration page** (`Client/src/pages/Register.jsx`). It covers the e-mail pattern, the
  mobile digit count, the ordered step-1 check, the wizard's step counter, `handleChange` and the
  cleaned payload `handleSubmit` posts.
- **The listing page** (`Client/src/pages/Products.jsx`). It covers the grouping `reduce`, the
  case-insensitive location filter, the capitalised category search, the "load more categories"
  window and the filter handlers, on a class holding the page's state.
- **JavaScript primitives the code relies on**, restricted to ASCII: `trim`, `toLowerCase`,
  `includes`, `indexOf`, `split`, `parseInt` and truthiness.

The foreign calls are parameters. `crypto.randomBytes(32)` becomes the byte sequence it returns,
and `bcrypt.hashSync` a function `hasher`. `bcrypt.compareSync` becomes `passwordMatches`, and
`jwt.sign` / `jwt.verify` become `sign` / `verify`. Whether the mail relay succeeds is a
boolean input. `Date.now()` is a natural number `now` of milliseconds.

### Behaviour as written, where it departs from the design

- Registration as written cannot succeed:
  - `createUser` hands `User.create` a document with `firstname` and `lastname`. The schema has
    no such paths and requires `name`, so every create fails validation; see Findings.
  - The page posts `name` and no `firstname`/`lastname`, so the controller answers 400 "Please
    fill all fields" to every form (`Integration.ClientRegistrationRejected`).
  - The page also posts to `/api/user/signup`, which `Server/routes/user.js` does not route.
- E-mail lookups compare the stored string exactly, with no case folding. Only the client lower-cases
  what it sends.
- `createUser` checks only for a duplicate e-mail, not a duplicate mobile. It does not check age,
  mobile or password length either.
- `updateUser` passes `isVerified`, `role`, `registrationDate` and the token fields through. A
  verified user can therefore be set back to unverified, can change their own role and can
  rewrite their registration date.
- The registration mail greets `firstname lastname` and the resend mail greets `name`. The model
  uses the corrected record, where both agree.
- `forgotPassword` is imported by the routes but not defined by the controller. No reset logic
  exists to model.
- The listing page groups into a plain object `{}`. A machine whose category names an inherited
  `Object.prototype` property, such as "toString" or "constructor", makes `push` throw. The fetch
  then falls into its `catch`, and nothing is stored (`Products.GroupByCategory`).

## Model

| member | source | states |
|---|---|---|
| Js.Trim | Client/src/pages/Register.jsx:46-49 | the result is the input with whitespace removed at both ends and nowhere else, and neither starts nor ends with whitespace |
| Js.ToLowerCase | Client/src/pages/Register.jsx:103 | same length, each character mapped to lower case |
| Js.Split | Server/middleware/validateTokenHandler.js:11 | there is always at least one field and no field contains the separator |
| Js.JoinSplit | Server/middleware/validateTokenHandler.js:11 | rejoining the fields with the separator gives back the header: split drops nothing but separators |
| Js.Includes | Client/src/pages/Products.jsx:54 | `includes` finds the empty string and a string in itself, and never a longer string |
| Js.DigitPrefix | Client/src/pages/Register.jsx:50 | `parseInt` reads the longest run of digits at the front, and only digits |
| Js.ParseInt | Client/src/pages/Register.jsx:50 | `parseInt` gives a number only when the input holds a digit, and a negative number only when it holds a `-` |
| Js.ParseIntDecimal | Client/src/pages/Register.jsx:50 | `parseInt` of a decimal numeral gives back its value |
| Seqs.FilterMembership | Client/src/pages/Products.jsx:52-56 | an element survives `filter` iff it occurs in the input and satisfies the test |
| Seqs.FilterIsSubsequence | Client/src/pages/Products.jsx:52-56 | `filter` keeps the relative order of what it keeps |
| EmailRegex.Test | Client/src/pages/Register.jsx:35-38 | `/^[^\s@]+@[^\s@]+\.[^\s@]+$/` accepts exactly the strings with one `@`, no whitespace, a non-empty local part and a dot inside the domain |
| EmailRegex.DecidedAtFirstAt | Client/src/pages/Register.jsx:36 | a matching string splits at its first `@`, so the pattern can be decided there |
| EmailRegex.LowerCaseKeepsMatch | Client/src/pages/Register.jsx:103 | lower-casing an accepted address keeps it accepted |
| UserModel.Create | Server/models/user.js:3-22 | a created record gets role "farmer" when none is given, `isVerified` false unless set, `registrationDate` now, and no reset token |
| UserModel.Validates | Server/models/user.js:4-6 | a record missing `name` or `password`, or with any of `name`, `email`, `password` empty, fails the required validators |
| UserModel.EmailsUnique | Server/models/user.js:5 | a store of at most one record is unique, and in a unique store distinct ids hold distinct e-mails |
| UserModel.OptionalFieldsMayRepeatOrBeAbsent | Server/models/user.js:7-21 | a store of valid records may hold two users with the same mobile and none of the token fields |
| UserController.Hex | Server/controllers/userController.js:104 | the token is two lower-case hex digits per random byte, the high nibble first, in byte order |
| UserController.HexInjective | Server/controllers/userController.js:104 | distinct random bytes give distinct tokens: the hex text determines the bytes |
| UserController.RegistrationError | Server/controllers/userController.js:88-96 | 400 "Please fill all fields" iff one of firstname, lastname, email, password, role is missing or empty; otherwise 400 on a bad e-mail; no error iff all present and the pattern matches |
| UserController.AsWrittenRecordFailsSchema | Server/controllers/userController.js:115-128 | the document as written, with no `name`, fails the schema's required validators |
| UserController.NewRecord | Server/controllers/userController.js:104-124 | the stored record is unverified, holds the fresh token with expiry now + 86,400,000 ms, and stores the hash, never the plaintext |
| UserController.NewRecordValidates | Server/controllers/userController.js:115-128 | with `name` filled in, the record passes the schema's validators |
| UserController.Redeem | Server/controllers/userController.js:197-199 | a redeemed record is verified and both verification fields are cleared, identity kept |
| UserController.Reissue | Server/controllers/userController.js:233-237 | a resend stores the new token with expiry now + 24 h and keeps `isVerified`, e-mail, password and name |
| UserController.ApplyPatch | Server/controllers/userController.js:259-264 | an update never changes `email` or `password`; every other path the body gives, `registrationDate`, `isVerified`, `role` and the token fields included, is written; a body of only credentials changes nothing |
| UserController.OmittedPathsKept | Server/controllers/userController.js:259-264 | every path the body omits keeps its stored value |
| UserController.ApplyPatchIdempotent | Server/controllers/userController.js:259-264 | sending the same update twice stores what sending it once does |
| UserController.TokenMatches | Server/controllers/userController.js:184-187 | a record without a token or without an expiry never matches; a match holds exactly the given token and an expiry after now |
| UserController.ExpiredTokenRejected | Server/controllers/userController.js:184-187 | a token whose expiry is not strictly after now is refused |
| UserController.IssuedTokenRedeemable | Server/controllers/userController.js:104-105 | a new record is redeemed by exactly its issued token, and only for 24 h |
| UserController.SecondRedemptionFails | Server/controllers/userController.js:197-204 | after redemption the same token redeems nothing, at any later time |
| UserController.ReissueRevokesOldToken | Server/controllers/userController.js:233-237 | after a resend the previous token no longer redeems; the new one does for 24 h |
| UserController.UserStore.constructor | Server/models/user.js:24 | the collection starts empty, with no mail sent |
| UserController.UserStore.FindOne | Server/controllers/userController.js:98 | `findOne` returns a record satisfying the query, or none when none does |
| UserController.UserStore.CreateUser | Server/controllers/userController.js:84-166 | validation errors and a taken e-mail answer 400 and change nothing; otherwise one new record under a fresh id, one mail attempted, and 201 whether or not the mail went out |
| UserController.UserStore.VerifyEmail | Server/controllers/userController.js:171-210 | no token: 400; no record with that token unexpired: 400, store unchanged; otherwise exactly that record is redeemed and 200 |
| UserController.UserStore.ResendVerificationEmail | Server/controllers/userController.js:215-247 | missing e-mail 400, unknown 404, verified 400, all unchanged; otherwise the token pair is overwritten before the mail, and a failed mail answers 500 but keeps the write |
| UserController.UserStore.LoginUser | Server/controllers/userController.js:31-70 | 400 on missing fields; the same 401 for unknown e-mail and wrong password; the "verify" 401 for any unverified user; on success claims {id, name, email, role}, 24 h, no password in the body |
| UserController.UserStore.GetUser | Server/controllers/userController.js:19-26 | the caller's record without password, or 404 |
| UserController.UserStore.GetUsers | Server/controllers/userController.js:11-14 | every record, each without its password |
| UserController.UserStore.UpdateUser | Server/controllers/userController.js:252-267 | the caller's record patched as `ApplyPatch` says, or 404 and nothing changes |
| UserController.UserStore.DeleteUser | Server/controllers/userController.js:272-280 | the caller's record removed and returned without password, or 404 and nothing changes |
| TokenGate.AuthHeader | Server/middleware/validateTokenHandler.js:5 | a non-empty `authorization` header wins over `Authorization` |
| TokenGate.BearerToken | Server/middleware/validateTokenHandler.js:11 | the token is the text after `"Bearer "` up to the next space: it has no space and may be empty |
| TokenGate.FirstField | Server/middleware/validateTokenHandler.js:11 | the first split field is the text before the first separator |
| TokenGate.BearerRoundTrip | Server/middleware/validateTokenHandler.js:7-11 | `"Bearer " + t` passes the prefix test and extracts `t` for any space-free `t` |
| TokenGate.Decide | Server/middleware/validateTokenHandler.js:4-20 | rejected as missing iff the header is falsy or lacks the prefix; admitted iff the extracted token is non-empty and verifies, with the decoded claims; otherwise "Invalid token" |
| TokenGate.LowerCaseHeaderWins | Server/middleware/validateTokenHandler.js:5 | with `authorization` present, `Authorization` makes no difference |
| TokenGate.AdmitsVerifiedBearer | Server/middleware/validateTokenHandler.js:11-16 | a bearer header whose token verifies admits exactly the verified claims |
| TokenGate.ValidateToken | Server/middleware/validateTokenHandler.js:4-20 | on admission `req.user` is set and `next` called once, the response left unchanged; otherwise a 401 with the matching message, `req.user` untouched and `next` not called |
| Register.ValidateMobile | Client/src/pages/Register.jsx:40-43 | accepted iff the input holds 10 to 15 digits |
| Register.AgeOk | Client/src/pages/Register.jsx:50-67 | an age with no digit is refused, and every numeral from 1 to 120 is accepted |
| Register.AgeNumeralsAccepted | Client/src/pages/Register.jsx:50-67 | `parseInt` of each numeral from 1 to 120 lies in 1..120 |
| Register.MobileJudgedOnDigits | Client/src/pages/Register.jsx:40-43 | separators and other non-digits make no difference |
| Register.ValidateStep1 | Client/src/pages/Register.jsx:45-78 | no error iff every check passes; an error names a failing check all of whose predecessors (required → email → mobile → age → password) pass |
| Register.ChecksAsWritten | Client/src/pages/Register.jsx:52-75 | each condition as written decides the matching check (trimmed fields, `parseInt` age in 1..120, trimmed password of 6 or more) |
| Register.TrimmedOrAbsent | Client/src/pages/Register.jsx:107-109 | `value.trim() \|\| undefined` is absent iff nothing but whitespace was typed |
| Register.CleanPayload | Client/src/pages/Register.jsx:101-112 | role "farmer", each optional field absent iff empty after trimming |
| Register.PayloadEmailNormalized | Client/src/pages/Register.jsx:103 | the posted e-mail has no upper-case letter and no surrounding whitespace |
| Register.ValidFormGivesValidPayload | Client/src/pages/Register.jsx:45-112 | a form passing step 1 posts an e-mail the pattern accepts, a valid mobile, an age in 1..120, a password of 6 or more and a name |
| Register.RegistrationWizard.constructor | Client/src/pages/Register.jsx:6-21 | the wizard starts at step 1 with an empty form |
| Register.RegistrationWizard.HandleChange | Client/src/pages/Register.jsx:26-32 | writes the named field only |
| Register.RegistrationWizard.NextStep | Client/src/pages/Register.jsx:52-88 | leaves step 1 only when every step-1 check passes, showing the failing check's toast otherwise, and advances from any other step; from steps 1 and 2 it stays within 1..3 |
| Register.RegistrationWizard.PrevStep | Client/src/pages/Register.jsx:90-92 | goes back exactly one step |
| Products.AbsentCategoryIsEmpty | Client/src/pages/Products.jsx:69-71 | a category with no machine has no group |
| Products.GroupingSnoc | Client/src/pages/Products.jsx:68-74 | one more machine is pushed onto its own category's list, created when missing, and nothing else changes |
| Products.GroupByCategory | Client/src/pages/Products.jsx:68-84 | the `reduce` builds exactly the grouping when no category names an inherited `Object.prototype` property, and fails (throws) iff one does |
| Products.AddToGroup | Client/src/pages/Products.jsx:69-72 | one reduce step pushes the machine onto its category's list, creating it when missing |
| Products.MachineInItsOwnGroup | Client/src/pages/Products.jsx:68-74 | a machine is in the group keyed `c` iff it was fetched and its category is `c` |
| Products.GroupKeepsOrder | Client/src/pages/Products.jsx:72 | each group keeps the fetched order |
| Products.GroupSizesSum | Client/src/pages/Products.jsx:68-74 | the group sizes add up to the number of machines |
| Products.EmptyLocationQueryKeepsAll | Client/src/pages/Products.jsx:51-54 | with no location query the filter returns its input unchanged |
| Products.LocationMatches | Client/src/pages/Products.jsx:53-54 | an empty query passes every machine; a machine without a location passes only the empty query; a location equal to the query passes |
| Products.FilteredMachines | Client/src/pages/Products.jsx:51-57 | a machine is kept iff it is in the input and passes the location test, in the original order |
| Products.LocationFilterKeeps | Client/src/pages/Products.jsx:51-57 | with a query, a machine is kept iff its location contains the query ignoring case; machines without a location are dropped; order is kept |
| Products.LocationQueryCaseInsensitive | Client/src/pages/Products.jsx:53-54 | the query's case makes no difference |
| Products.Capitalize | Client/src/pages/Products.jsx:40 | same length, the first character replaced by its upper case (a–z to A–Z, anything else kept), the rest untouched, "" for "" |
| Products.CapitalizeIdempotent | Client/src/pages/Products.jsx:40 | capitalising twice is capitalising once |
| Products.ShownInCategory | Client/src/pages/Products.jsx:269-270 | with no selection or this category selected the grid shows exactly the location-filtered machines; with another category selected it shows nothing |
| Products.UnfilteredShowsWholeGroup | Client/src/pages/Products.jsx:269-270 | with no filter set a category shows all its machines |
| Products.EmptySearchHidesNoCategory | Client/src/pages/Products.jsx:39-42 | searching with an empty box selects "", which is falsy, so no category is hidden |
| Products.Window | Client/src/pages/Products.jsx:233-234 | the shown categories are the first `displayedCategories` entries |
| Products.LoadMoreShownIffSomeHidden | Client/src/pages/Products.jsx:288 | the load-more button shows iff some category is not shown |
| Products.LoadMoreExtendsWindow | Client/src/pages/Products.jsx:27-29 | loading more keeps the shown categories in place and adds at most four |
| Products.ProductsPage.constructor | Client/src/pages/Products.jsx:14-25 | the page starts loading, empty, unfiltered, with a window of 4 |
| Products.ProductsPage.FetchMachines | Client/src/pages/Products.jsx:59-88 | when the request succeeds and the grouping does not throw, stores the machines and their grouping; a failed request or a throwing grouping stores nothing; either way loading ends, and the grouping always matches the machines |
| Products.ProductsPage.HandleLoadMoreCategories | Client/src/pages/Products.jsx:27-29 | the window grows by exactly 4, nothing else changes |
| Products.ProductsPage.HandleSearchQueryChange | Client/src/pages/Products.jsx:31-33 | stores the search text only |
| Products.ProductsPage.HandleLocationQueryChange | Client/src/pages/Products.jsx:35-37 | stores the location text only |
| Products.ProductsPage.SetSortBy | Client/src/pages/Products.jsx:162 | stores the sort key only |
| Products.ProductsPage.HandleSearch | Client/src/pages/Products.jsx:39-42 | selects the capitalised query, nothing else changes |
| Products.ProductsPage.SelectCategory | Client/src/pages/Products.jsx:249-262 | "View All" selects a category and "Show Less" clears the selection |
| Products.ProductsPage.ClearFilters | Client/src/pages/Products.jsx:44-49 | both queries, the selection and the sort key reset; afterwards every category shows all of its machines |
| Integration.ServerView | Client/src/pages/Register.jsx:101-112 | the posted payload, as `createUser` reads it, has no firstname or lastname |
| Integration.ClientRegistrationRejected | Server/controllers/userController.js:88-90 | every payload the registration page posts is refused with 400 "Please fill all fields" |
| Integration.LoginTokenAdmitted | Server/middleware/validateTokenHandler.js:5-16 | the token a login signs, sent back as a bearer header, admits the request with exactly the signed claims |

## Left out

- `logoutUser` answers a constant 200 and touches no state; it is not part of the model.
- `avatar` and `bookings` in the schema (binary data and references to another collection) are not modelled.
- Database failures and the 500 replies they cause are not modelled. Neither is the unreachable
  "Invalid user data" branch of `createUser` (a rejected `create` throws rather than returning
  null).
- Concurrency between handlers is left out: each handler runs alone, and there are no races
  between resend and verify.
- Cryptography is left out: bcrypt, JWT signing and expiry checking, and `crypto.randomBytes`
  are parameters.
- The `Authorization` response header that login sets is not modelled.
- Mongoose casting is left out, and so is `runValidators` on update: `UpdateUser` stores the patched
  record without re-running the schema's validators, and body values are assumed to already
  have the schema's types.
- Request values are assumed to be strings. `req.query.token` and the body's `email` go straight
  into `findOne` filters, so an object such as `?token[$ne]=x` would act as a query operator.
  Query-operator objects are not modelled; `VerifyEmail`, `ResendVerificationEmail` and
  `LoginUser` take `Option<string>`.
- Unicode is left out: `\s`, `trim`, `toLowerCase` and `toUpperCase` are modelled on ASCII only.
- The `createUser` response's user object (`firstname`, `lastname`, …): `CreateUser` returns the
  stored record without its password instead.
- `Js.ParseInt` does not model JavaScript's loss of precision for integers beyond 2^53.
- `Register.RegistrationWizard.HandleChange` writes only the nine fields the form has; a
  foreign `name` attribute is not modelled.
- `Products.Window` takes the category order as a parameter. `Object.entries` order for
  integer-like keys is not modelled, so no claim of first-appearance order is made.
- `sortBy` is stored, but the page never sorts by it, so there is nothing more to model.
- The page's rendering, toasts, routing, `localStorage` and the `images`/`allCategoriesLoaded`
  state (never read) are not part of the model.
- `Server/utils/mailer.js` is not part of this model: a mail is a logged attempt with a
  success flag.
- `Server/routes/user.js` is not part of this model. The controller methods that the routes
  protect take the gate's claims as a parameter.
- `forgotPassword` does not exist in the controller and is not modelled.

## Findings

| source | as written | input that shows it | evidently intended | confidence | as-written member | corrected member |
|---|---|---|---|---|---|---|
| Server/controllers/userController.js:115-128 | the record passed to `User.create` carries `firstname` and `lastname`, which the schema does not have, and no `name`, which the schema requires | any body that passes lines 88-101, e.g. firstname "Ann", lastname "Lee", email "ann@x.com", password "secret1", role "farmer": the stored document has no `name` and fails validation | store `name` as `firstname + " " + lastname`, the full name the verification mail greets | not executed | UserController.AsWrittenRecordFailsSchema | UserController.NewRecordValidates |
