# A verified model of the dohkar classifieds back end

dohkar_back is the NestJS + Prisma server of a real-estate classifieds
site. Users sign in with a one-time SMS code, a phone and password, or an
OAuth provider (Google, Yandex, VK). They publish property listings, browse
and search the public catalogue, and keep favourites. Administrators see
site statistics and manage users and listings. Every response passes through
a global interceptor that wraps it as `{status, data}`. Every error passes
through a global filter that writes `{status: "error", statusCode, message}`.

This project models the service layer of that server in Dafny. It covers
the authentication, favourites, listings, administration and user-profile
services, and the response interceptor and exception filter.

- **Store** (`store.dfy`): the database is one `Database` object. It holds
  one sequence per table (users, phone codes, refresh tokens, listings,
  favourites) and a counter that hands out fresh ids. Its `Valid()`
  invariant holds the schema's unique constraints (ids, user phone and
  e-mail, (user, listing) favourite pairs). It also holds one invariant that
  no constraint enforces: a linked OAuth identity (provider, provider id)
  belongs to at most one user. The sign-in flow looks the identity up
  before linking or creating, and so keeps it. Every state-changing service
  method keeps `Valid()`. Each service is a class holding a
  reference to that database, as the NestJS services hold the Prisma client.
- **Errors** (`errors.dfy`): what a call fails with. Either one of the HTTP
  exceptions the services throw, or one of the two Prisma errors the code
  lets through: a missing record on `update`/`delete`, and a unique
  violation.
- **Auth** (`auth.dfy`):
  - the per-phone and per-address rate limit for SMS codes (a 10-minute
    window, 3 per phone, 10 per address);
  - six-digit codes that live 5 minutes, and single-use verification that
    deletes the code;
  - find-or-create of the phone's user;
  - rotating refresh tokens, each stored on issue and deleted on use;
  - logout, which revokes every session of the user;
  - phone + password registration and login;
  - OAuth identity linking.
- **Favorites**, **Properties**, **Admin**, **Users**: the remaining
  services.
  - The catalogue query is stated twice: as the `where` object the service
    builds, and as a reference predicate on the query itself. A lemma ties
    the two together.
  - The statistics' per-day fold is an imperative loop proved against a
    histogram.
- **TransformInterceptor**, **HttpExceptionFilter**: the two global
  wrappers, over a small JSON value type (`json.dfy`).
- **Seqs**, **Paging**, **Text**, **Wrappers**: shared helpers. These are
  filtering and counting, a stable sort by key, histograms, the
  `skip`/`take` page with `Math.ceil` page count, JavaScript `trim`, and
  decimal digits.

Time is an integer number of milliseconds supplied by the caller (`now`).

## Model

All source paths are in `src/`.

| member | source | states |
|---|---|---|
| `Auth.OtpCode` | src/auth/auth.service.ts:31 | the code is six decimal digits and reads back as 100000 plus the random draw |
| `Auth.RateLimitError` | src/auth/auth.service.ts:91-132 | no error iff fewer than 3 codes went to the phone, and (when an address is given) fewer than 10 came from the address, within the last 10 minutes; a phone over its limit gets the per-phone message, and otherwise an error is the per-address message; the error is a 429 |
| `Auth.StaleCodesIgnored` | src/auth/auth.service.ts:93-106 | codes created before the window starts never count against the phone |
| `Auth.IssuedCodeCounts` | src/auth/auth.service.ts:34-41 | a stored code counts exactly once against its phone while it is inside the window |
| `Auth.WithoutCode` | src/auth/auth.service.ts:83-86 | deleting a (phone, code) pair removes every row with that pair and keeps every other row |
| `Auth.WithoutCodeKeepsOthers` | src/auth/auth.service.ts:83-86 | when no row has the pair, the deletion leaves the table exactly as it was |
| `Auth.TokensNotOwnedBy` | src/auth/auth.service.ts:169-174 | logout keeps exactly the refresh tokens of other users |
| `Auth.LogoutIdempotent` | src/auth/auth.service.ts:169-174 | logging out twice leaves what logging out once left |
| `Auth.LogoutKeepsOtherSessions` | src/auth/auth.service.ts:169-174 | another user's sessions are untouched, in order |
| `Auth.RotatedTokenRejected` | src/auth/auth.service.ts:152-161 | after a refresh the presented token string is no longer live, so it cannot be used a second time |
| `Auth.Linked` | src/auth/auth.service.ts:261-268 | linking sets provider and provider id and the update time, and keeps every other column: id, phone, e-mail, password, name, avatar, role, premium flag and creation time |
| `Auth.AuthService.GenerateTokens` | src/auth/auth.service.ts:286-323 | returns the access and refresh tokens signed for the user and appends exactly one refresh row, expiring `refreshDays` days later |
| `Auth.AuthService.BuildAuthResponse` | src/auth/auth.service.ts:325-348 | issues and stores the tokens; returns them with the user's public payload, or Unauthorized "user not found" when the user is missing (the refresh row is stored either way) |
| `Auth.AuthService.SendPhoneCode` | src/auth/auth.service.ts:28-48 | a throttled request changes nothing and returns the rate-limit error; otherwise exactly one code row is appended, expiring 5 minutes later, and it stays stored even when the SMS fails |
| `Auth.AuthService.FindOrCreatePhoneUser` | src/auth/auth.service.ts:68-81 | returns the phone's existing user unchanged, or appends a new LOCAL user holding only that phone; either way the phone lookup afterwards finds that user |
| `Auth.AuthService.VerifyPhoneCode` | src/auth/auth.service.ts:50-89 | without an unexpired matching code: BadRequest and nothing changes; otherwise every row with the pair is deleted, the user is found or created, a session is issued for that user, and the code can never be accepted again |
| `Auth.AuthService.Refresh` | src/auth/auth.service.ts:134-167 | succeeds iff the token verifies and a stored, unexpired row with that token belongs to its subject; every failure is the same Unauthorized error and changes nothing; success replaces that row with the new refresh row |
| `Auth.AuthService.Logout` | src/auth/auth.service.ts:169-174 | deletes all and only the user's refresh tokens and returns the logout message |
| `Auth.AuthService.RegisterWithPhoneAndPassword` | src/auth/auth.service.ts:195-217 | a taken phone is BadRequest with nothing changed; otherwise one LOCAL user with the phone and the hashed password is appended, one refresh row is stored for it, and the response is the access and refresh tokens signed for the new id with that user's payload |
| `Auth.AuthService.ValidateLocalUser` | src/auth/auth.service.ts:219-235 | fails iff the phone is unknown, the user has no password hash or an empty one, or the password does not match; all three are the same Unauthorized error; success is the payload of the user the phone lookup finds |
| `Auth.AuthService.LoginWithPhoneAndPassword` | src/auth/auth.service.ts:237-239 | a rejected login issues no token and stores nothing; an accepted one returns the validated user with the access and refresh tokens signed for it, and the refresh token returned is the one stored in the single new row |
| `Auth.AuthService.LinkIdentity` | src/auth/auth.service.ts:254-270 | the user found by e-mail is re-linked to the provider and is then the one user holding that identity |
| `Auth.AuthService.CreateOAuthUser` | src/auth/auth.service.ts:272-279 | a taken e-mail is the unique-constraint error with nothing changed; otherwise one user holding the identity is appended |
| `Auth.AuthService.HandleOAuthLogin` | src/auth/auth.service.ts:241-280 | an already linked identity signs in with nothing changed; otherwise a user with the given non-empty e-mail is re-linked and returned; otherwise a user is created and returned, or the e-mail unique violation leaves everything unchanged; at most one row is added, and a success is the payload of the one user holding the identity afterwards |
| `Favorites.FindAll` | src/favorites/favorites.service.ts:12-33 | exactly the user's favourites, each as often as stored, newest first |
| `Favorites.AddThenRemoveRestores` | src/favorites/favorites.service.ts:35-105 | adding a new pair makes it findable at the end, and removing it again restores the table |
| `Favorites.FavoritesService.Add` | src/favorites/favorites.service.ts:35-79 | a missing listing is NotFound and an existing pair is Conflict, with nothing changed in either case; otherwise one favourite row is appended and the pair is then found |
| `Favorites.FavoritesService.Remove` | src/favorites/favorites.service.ts:81-105 | a missing pair is NotFound with nothing changed; otherwise that row is deleted and the pair is no longer found |
| `Properties.WhereMeansQuery` | src/properties/properties.service.ts:50-96 | a row matches the assembled `where` iff it is ACTIVE and meets every usable criterion of the query: a present type or non-empty region, non-negative price bounds and minimum area, a positive room count, and a non-blank trimmed text found in the title, description or location |
| `Properties.Matching` | src/properties/properties.service.ts:126 | the rows counted are exactly the table rows matching the `where` |
| `Properties.BuildWhere` | src/properties/properties.service.ts:50-96 | each criterion enters the `where` iff the query gives it in usable form (a type; a non-empty region; non-negative price bounds and minimum area; a positive room count; search text that is not blank once trimmed), with the query's own value, the search text trimmed |
| `Properties.SortKeyMeansOrder` | src/properties/properties.service.ts:98-107 | "price-asc" gives ascending price, "price-desc" descending price, and any other value newest first |
| `Properties.SortKey` | src/properties/properties.service.ts:98-107 | the key orders rows by ascending price for "price-asc", descending price for "price-desc", and newest first for every other value |
| `Properties.Ordered` | src/properties/properties.service.ts:98-107 | the ordered rows are a permutation of the matching rows, in the requested order |
| `Properties.Catalogue` | src/properties/properties.service.ts:109-127 | the whole ordered result set holds exactly the listings the query describes |
| `Properties.FindAll` | src/properties/properties.service.ts:36-136 | page defaults to 1 and limit to 12; total is the number of matching rows and totalPages is its ceiling over the limit; the page holds at most `limit` rows, each an ACTIVE listing of the table meeting the query, in the requested order |
| `Properties.EveryMatchIsListed` | src/properties/properties.service.ts:109-135 | every listing the query describes is on some page between 1 and totalPages |
| `Properties.PageIsSliceOfCatalogue` | src/properties/properties.service.ts:109-135 | the page number only chooses the slice: page `p` of a query is page `p` of the query's whole ordered result set |
| `Properties.TrimmedQueryEquivalent` | src/properties/properties.service.ts:86-95 | surrounding whitespace in the search text does not change the result |
| `Properties.NegativePriceBoundIgnored` | src/properties/properties.service.ts:65-71 | a negative price bound gives the same page as no bound |
| `Properties.TypeFilterNarrows` | src/properties/properties.service.ts:55-57 | adding a type filter never increases the total |
| `Properties.Search` | src/properties/properties.service.ts:138-166 | a missing or blank query finds nothing; otherwise the first 50 (or all, when fewer) ACTIVE listings containing the query as given, in table order, each row as often as it is stored; when fewer than 50 are returned, every such listing is among them |
| `Properties.ApplyPatch` | src/properties/properties.service.ts:213-215 | each field the update gives takes the update's value and each absent field keeps its own; the id, owner, view count and creation time never change |
| `Properties.PatchIdempotent` | src/properties/properties.service.ts:213-215 | applying the same update twice equals applying it once |
| `Properties.EmptyPatchIsIdentity` | src/properties/properties.service.ts:213-215 | an empty update leaves the listing as it was |
| `Properties.PropertiesService.NewListing` | src/properties/properties.service.ts:17-34 | a new listing belongs to its creator, has no views, the default status and the creation time, and carries every field of the draft; an absent currency takes the default currency and absent features the empty list |
| `Properties.PropertiesService.Create` | src/properties/properties.service.ts:17-34 | exactly one listing is appended under a fresh id, and looking that id up finds it |
| `Properties.PropertiesService.FindOne` | src/properties/properties.service.ts:168-194 | a missing id is NotFound with nothing changed; otherwise it returns the row as read, and that row's view counter goes up by one, no other modelled column changing |
| `Properties.PropertiesService.Update` | src/properties/properties.service.ts:196-227 | NotFound, then Forbidden for a non-owner, with nothing changed in either case; the owner's patch changes that row alone |
| `Properties.PropertiesService.Remove` | src/properties/properties.service.ts:229-247 | NotFound, then Forbidden for a non-owner, with nothing changed in either case; the owner's delete removes that row alone, and the id is then not found |
| `Admin.ListingsSince` | src/admin/admin.service.ts:50-57 | exactly the listings created at or after the cut-off |
| `Admin.WiderWindowHoldsMore` | src/admin/admin.service.ts:38-72 | the 7-day window holds no more listings than the 30-day one |
| `Admin.ViewsAggregate` | src/admin/admin.service.ts:22 | the sum aggregate is absent exactly when the table is empty |
| `Admin.TotalViews` | src/admin/admin.service.ts:89 | total views are the sum of all view counters, 0 for an empty table |
| `Admin.ViewAddsOneToTotal` | src/admin/admin.service.ts:89 | opening one listing raises the total views by exactly one |
| `Admin.DailyCounts` | src/admin/admin.service.ts:74-81 | the fold counts every creation time under its UTC day; every day present has a positive count equal to the number of listings created that day; the counts add up to the number of listings |
| `Admin.DayOf` | src/admin/admin.service.ts:76 | the UTC day key of a creation time: the day whose 24 hours contain it |
| `Admin.DailyKeysAreCreationDays` | src/admin/admin.service.ts:74-81 | every day in the daily statistics had a listing created on it |
| `Admin.ActivePlusPendingAtMostTotal` | src/admin/admin.service.ts:19-21 | active plus pending listings never exceed all listings |
| `Admin.MatchingUsers` | src/admin/admin.service.ts:112-119 | exactly the users whose e-mail or name contains the non-empty search text |
| `Admin.UserRows` | src/admin/admin.service.ts:111-143 | the matching users, each as often as stored, ordered newest first |
| `Admin.GetUsers` | src/admin/admin.service.ts:109-157 | page and limit are echoed; total counts the matching users and totalPages is its ceiling; the rows are exactly the `skip (page-1)*limit, take limit` slice of the matching users ordered newest first, each with their listing count |
| `Admin.EveryMatchingUserIsListed` | src/admin/admin.service.ts:109-157 | every matching user is on some page between 1 and totalPages |
| `Admin.UserPageIsSlice` | src/admin/admin.service.ts:109-157 | page `p` of the user list is the admin view of page `p` of the newest-first matching users, with the same page count |
| `Admin.MatchingListings` | src/admin/admin.service.ts:167-183 | exactly the listings meeting the search text (title or location), the status and the type |
| `Admin.ListingRows` | src/admin/admin.service.ts:167-200 | the matching listings, each as often as stored, ordered newest first |
| `Admin.GetProperties` | src/admin/admin.service.ts:159-212 | the result is exactly the `skip (page-1)*limit, take limit` page of the matching listings ordered newest first; total counts the matching listings; every row is a matching listing; newest first |
| `Admin.EveryMatchingListingIsListed` | src/admin/admin.service.ts:159-212 | every matching listing is on some page between 1 and totalPages |
| `Admin.AdminService.GetStatistics` | src/admin/admin.service.ts:9-107 | the counts are those of the current tables; the groupings by type and by region each add up to the number of listings; active + pending <= total; premium and new users <= all users; the daily statistics are the histogram of the last 7 days and add up to no more than the 30-day count |
| `Admin.AdminService.UpdateUserRole` | src/admin/admin.service.ts:214-225 | a missing user is the database's record-not-found error; otherwise only the role (and the update time) of that user changes |
| `Admin.AdminService.UpdatePropertyStatus` | src/admin/admin.service.ts:227-241 | a missing listing is record-not-found; otherwise only that listing's status changes among the modelled columns |
| `Admin.AdminService.DeleteUser` | src/admin/admin.service.ts:243-247 | a missing user is record-not-found; otherwise the row is removed and returned, and its id is no longer found |
| `Admin.AdminService.DeleteProperty` | src/admin/admin.service.ts:249-253 | a missing listing is record-not-found; otherwise the row is removed and returned, and its id is no longer found |
| `Users.ApplyProfilePatch` | src/users/users.service.ts:34-37 | only name, phone and avatar can change, each only when given; the update time is set |
| `Users.UsersService.GetCurrentUser` | src/users/users.service.ts:13-32 | NotFound iff no user has the id; otherwise the profile of that user, without the password hash |
| `Users.UsersService.GetUserById` | src/users/users.service.ts:52-69 | NotFound iff no user has the id; otherwise the public view of that user: its id, phone, e-mail, premium flag and creation time |
| `Users.UsersService.UpdateCurrentUser` | src/users/users.service.ts:34-50 | a missing user is record-not-found; a phone held by another user is the unique-constraint error; nothing changes in either case; otherwise only that row is patched, and the returned profile is what reading it afterwards gives |
| `TransformInterceptor.Transform` | src/common/interceptors/transform.interceptor.ts:21-46 | the result is always in the `{status, data or message}` shape; a value already in that shape passes unchanged; anything else becomes `{status: "success", data}` |
| `TransformInterceptor.TransformIdempotent` | src/common/interceptors/transform.interceptor.ts:29-43 | wrapping twice equals wrapping once |
| `TransformInterceptor.EntityWithStatusIsWrapped` | src/common/interceptors/transform.interceptor.ts:38-43 | an entity that has its own `status` field but neither `data` nor `message` is wrapped |
| `HttpExceptionFilter.Catch` | src/common/filters/http-exception.filter.ts:12-36 | the body's statusCode is the HTTP status; an HTTP exception keeps its status; anything else is a 500 with the internal-error message; a string response is the message; otherwise its truthy `message` field, else "Ошибка" |
| `HttpExceptionFilter.FailureReply` | src/common/filters/http-exception.filter.ts:17-30 | every service exception reaches the client with its own status and message; every database or SMS error as a 500 with the internal-error message |
| `Paging.Paginate` | src/properties/properties.service.ts:113-134 | page `p` of size `l` is the slice starting at `(p-1)*l`, at most `l` long; the total is the row count and totalPages is `ceil(total / l)` |
| `Paging.RowOnItsPage` | src/properties/properties.service.ts:113-134 | row `k` is on page `k / l + 1`, which is within totalPages |
| `Paging.EveryRowIsOnSomePage` | src/properties/properties.service.ts:113-134 | walking pages 1 to totalPages meets every row of the result set |
| `Paging.CeilDiv` | src/properties/properties.service.ts:134 | `Math.ceil(total / limit)`: the least page count whose pages hold every row |
| `Text.Trim` | src/properties/properties.service.ts:89 | JavaScript `trim`: the result has no leading or trailing whitespace and is a slice of the input |

## Left out

- The Prisma schema (`prisma/schema.prisma`) is not part of this model. The
  column defaults are assumed: role USER, not premium, no views, and
  features `[]`. A user's `updatedAt` is taken as `@updatedAt`: the user
  updates set it from their `now` parameter. The listing's default status and
  default currency are constructor parameters of `PropertiesService`.
  Foreign keys and cascading deletes are left out: deleting a user or a
  listing leaves their dependent rows in place.
- Auth.RotatedTokenRejected: needs the presented token string to be
  stored only once. Without the schema, the model assumes `token` is not
  `@unique`. Then two refresh tokens signed for the same user within the
  same second are identical strings, and the old one stays usable. If the
  column were unique, the second same-second row would fail with the
  unique violation instead, and `refreshToken`'s catch would turn that
  into Unauthorized; the model does not cover that case.
- Listings carry no `updatedAt` column (it appears only in
  `PropertyResponseDto`, src/properties/dto/property-response.dto.ts:54).
  Under `@updatedAt`, three listing updates would also set it to the
  clock: the view increment in `FindOne`, the owner's `Update`, and
  `UpdatePropertyStatus`. "Nothing else changes" in their contracts
  covers the modelled columns only.
- Foreign code is a parameter, not modelled:
  - JWT signing and verification, and argon2 verification, are functions
    fixed when `AuthService` is built;
  - the argon2 hash, the `Math.random` draw, the SMS outcome and the
    clock are call parameters;
  - the SMS-RU client's error text is not kept (`SmsGateway`).
- Concurrency is not modelled. The `Promise.all` reads run one after
  another, and concurrent requests (two code requests racing past the rate
  limit) are left out.
- Dates, floating point and JSON serialisation:
  - times are integer milliseconds and days are UTC day numbers, not
    ISO strings;
  - prices and areas are integers;
  - the statistics' groupings and daily counts are maps, not arrays of
    `{key, count}` in database or `Object.entries` order.
- Ties in `orderBy`: the model fixes one order among rows with equal
  keys. The database promises none.
- The `include`/`select` joins are not modelled: the owner attached to each
  listing and the listing attached to each favourite. Result rows are the
  table rows; only the user views model their selections.
- Admin.GetUsers: requires page and limit of at least 1. The controller
  passes numbers from the query string, and the source does not guard
  against zero.
- Admin.GetProperties: requires page and limit of at least 1, for the
  same reason.
- Properties.FindAll: requires the page and limit that request
  validation lets through (at least 1).
- HttpExceptionFilter.Catch: does not model the `timestamp` (clock) and
  `path` (request URL) fields of the error body.
- `loginFromOAuth` and `getUserPayload` (`src/auth/auth.service.ts:282-348`)
  are covered by `BuildAuthResponse`. The commented-out `getCurrentUser` is
  not code.
- Controllers, passport strategies, DTO validation, cookies, the seed
  script and configuration are outside the service layer.
- Search text matching is the database's case-insensitive `contains`, a
  function the `Database` is built with. Collation and Unicode case folding
  are not modelled.
