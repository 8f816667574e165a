# Item service of a lost & found registry, in Dafny

This project models the item service of a lost & found backend. Users report lost
or found items. Admins moderate the reports. Every route sits behind request
gates.

- **Gate** (`gate.dfy`, from `item-service/middleware/auth.js`).
  - `auth` answers 401 when the `x-auth-token` header is missing or empty.
  - Otherwise it asks the remote auth service to verify the token. Any failure answers 401.
  - On success it attaches the returned `{ id, role }` claim as `req.user` and passes the request on.
  - `admin` answers 403 unless that claim's role is exactly `"admin"`.
  - The admin routes chain the two as `[auth, admin]`.
  - The gates are pure decision functions (`Authenticate`, `Authorize`, `AuthThenAdmin`).
    A `Request` class mirrors the middleware that assigns `req.user` and sends responses.
- **Items** (`items.dfy`, from `item-service/index.js`).
  - An item record holds id, name, category, location, description, type, reporter id,
    status (Pending, Approved or Claimed), an optional image and a creation date.
  - The store (`ItemStore`) is a class holding a map from id to item. Its methods are
    `Report`, `Approve` and `Claim`.
  - A report by a caller whose role is `"admin"` is saved as Approved. Any other role gives Pending.
  - Approve and claim overwrite the status unconditionally. An unknown id changes nothing.
  - The three listings are pure functions over the collection:
    `ListApproved`, `ListOwn` and `ListPending`. Each filters the collection, then sorts it
    newest first (`Find`).
- **Routes** (`routes.dfy`, from `item-service/index.js`). Each route runs its gates and
  then its handler. Each one states its response and the new state of the store, with
  the status codes of RFC 9110:
  - 200 (section 15.3.1), 201 (section 15.3.2);
  - 401 (section 15.5.2), 403 (section 15.5.4), 404 (section 15.5.5).

The remote verification call is a parameter `verify: string -> VerifyResult`. The gate's
independence from that parameter is how the model says "`auth` does not call the
verifier without a token".

### Where the intended design and the code differ (the model follows the code)

- The design describes forward-only transitions: Pending to Approved, then Approved to
  Claimed. The code has no guard. Approve writes Approved and claim writes Claimed
  whatever the current status. Approving a Claimed item sends it back to Approved, and
  claiming a Pending item skips moderation (`Items.NoTransitionGuard`,
  `Items.WithStatusIgnoresPriorStatus`).
- The design asks for an atomic compare-and-set update. The code reads the item, assigns
  the status and saves it. The model does the same.
- The design makes the role a closed enum. The code compares a string with `"admin"`, so
  any other string, unknown values included, is a non-admin role.
- The design distinguishes a missing token, an invalid token and an unreachable identity
  service. The code answers 401 to all three. Only the message differs: "No token,
  authorization denied" for a missing token and "Token is not valid" otherwise.
- An empty `x-auth-token` header is falsy in JavaScript. The code therefore treats it like
  a missing header (`Gate.HasToken`).

## Model

| member | source | states |
|---|---|---|
| Gate.Authenticate | item-service/middleware/auth.js:6-25 | passes the request on iff a non-empty token is present and the verifier accepts it, with exactly the verifier's claim; a missing or empty token gives 401 "No token, authorization denied"; a failed verification gives 401 "Token is not valid" |
| Gate.AuthenticateIgnoresVerifierWithoutToken | item-service/middleware/auth.js:7-10 | without a usable token, the decision is the same for every verifier (the verifier is not consulted) and is a 401 rejection |
| Gate.AuthenticateConsultsOnlyTheToken | item-service/middleware/auth.js:12-20 | with a token, the decision depends on the verifier only through its answer for that token |
| Gate.Authorize | item-service/middleware/auth.js:28-33 | rejects with 403 "Access denied. Not an admin." iff the role is not exactly "admin"; otherwise passes on the same claim unchanged |
| Gate.AuthThenAdmin | item-service/middleware/auth.js:6-33 | under `[auth, admin]` the handler is reached iff a token is present, verification succeeded and the returned role is "admin"; every rejection is 401 or 403, and it is 403 exactly when verification succeeded with a non-admin role |
| Gate.Request.Auth | item-service/middleware/auth.js:6-25 | continues iff `Authenticate` does, then sets `req.user` to exactly the verified claim and sends nothing; otherwise sends the rejection and leaves `req.user` alone |
| Gate.Request.Admin | item-service/middleware/auth.js:28-33 | continues iff the attached role is "admin", sending nothing; otherwise sends the 403 rejection |
| Items.NewItem | item-service/index.js:57-78 | the saved item's status is Approved iff the reporter's role is "admin", and Pending otherwise; its user is the reporter's id; it has an image iff a file came with the report, and then the image is the file's path; the form's fields and the creation date are kept |
| Items.Filter | item-service/index.js:95-97 | keeps exactly the items matching the query, each as many times as it occurs |
| Items.SortByDateDesc | item-service/index.js:98 | the result is a permutation of the input with dates non-increasing |
| Items.Find | item-service/index.js:95-98 | `find(q).sort({ date: -1 })`: sorted newest first, and as a multiset exactly the matching items of the collection |
| Items.ListApproved | item-service/index.js:95-98 | exactly the Approved items, as a multiset, sorted newest first; never a Pending or Claimed item |
| Items.ListOwn | item-service/index.js:118-119 | exactly the items whose user is the caller's id, any status, as a multiset, sorted newest first |
| Items.ListPending | item-service/index.js:138-139 | exactly the Pending items, as a multiset, sorted newest first |
| Items.FilterAppend | item-service/index.js:95-97 | filtering a collection with one more saved item equals filtering the old collection, followed by that item when it matches |
| Items.ReportedItemListings | item-service/index.js:61-80 | a newly saved item adds exactly itself to the Approved listing when Approved, to the Pending listing when Pending, and always to its reporter's own listing; nothing else in those listings changes |
| Items.FilterByStatusPartition | item-service/index.js:95-97 | filtering by Approved, by Pending and by Claimed splits a collection: together the three parts are the collection, as a multiset |
| Items.StatusListingsPartition | item-service/index.js:93-147 | the Approved listing, the Pending listing and the Claimed items together are the whole collection, so every item is in exactly one status listing |
| Items.WithStatus | item-service/index.js:158-159 | the status overwrite keeps the set of ids, changes only the status of the item with that id, and leaves every other item as it was |
| Items.WithStatusIdempotent | item-service/index.js:176-177 | overwriting a status twice with the same value equals overwriting it once |
| Items.WithStatusIgnoresPriorStatus | item-service/index.js:158 | the result of an overwrite does not depend on the item's previous status |
| Items.NoTransitionGuard | item-service/index.js:152-183 | approve on a Claimed item yields Approved, and claim on a Pending item yields Claimed |
| Items.StatusOverwriteListings | item-service/index.js:152-183 | after an overwrite to a status, the item is in the Approved listing iff that status is Approved, in the Pending listing iff it is Pending, and always in its reporter's own listing |
| Items.ItemStore.Report | item-service/index.js:57-81 | saves exactly one new item, `NewItem` under a fresh id; every previously stored item is unchanged and the collection grows by that item at its end |
| Items.ItemStore.Overwrite | item-service/index.js:154-159 | an unknown id finds nothing and leaves the store unchanged; otherwise only that item's status changes, to the given one |
| Items.ItemStore.Approve | item-service/index.js:152-165 | an unknown id finds nothing and changes nothing; a known id gets status Approved whatever it was, with no other field or item changed |
| Items.ItemStore.Claim | item-service/index.js:170-183 | an unknown id finds nothing and changes nothing; a known id gets status Claimed whatever it was, with no other field or item changed |
| Routes.ReportItem | item-service/index.js:55-87 | a request `auth` stops gets its 401 and the store is untouched; otherwise 201 with the saved item, appended to the collection |
| Routes.AllItems | item-service/index.js:93-106 | 401 from `auth`, or 200 with the Approved listing |
| Routes.MyReports | item-service/index.js:116-126 | 401 from `auth`, or 200 with the caller's own listing, chosen by the verified claim's id |
| Routes.PendingItems | item-service/index.js:136-147 | 401 or 403 from `[auth, admin]`, or 200 with the Pending listing |
| Routes.ApproveItem | item-service/index.js:152-165 | 401 or 403 from `[auth, admin]` with the store untouched; otherwise 404 "Item not found" with the store unchanged, or 200 "Item approved successfully" with the item now Approved |
| Routes.ClaimItem | item-service/index.js:170-183 | 401 or 403 from `[auth, admin]` with the store untouched; otherwise 404 "Item not found" with the store unchanged, or 200 "Item marked as Claimed" with the item now Claimed |

## Left out

- The `catch` branches of every route, which answer 500 "Server Error": storage and runtime failures are not modelled. Every save and find succeeds.
- An id that is not a well-formed database id makes `findById` throw, which the route turns into 500. Here ids are already-parsed numbers, so an unknown id always gives 404.
- Database ids are generated by the database. The store hands out consecutive numbers (`nextId`) instead; only their freshness matters.
- `models/Item` and `models/User` are not part of this model. The `date` default comes from `models/Item`, so it is a creation-timestamp parameter `now`. Schema validation of the body fields, such as an enum for `itemType`, is not modelled; the fields are plain strings.
- `.populate('user', 'name email')` in the pending listing: a join against the users collection. The listed items carry the reporter's id only.
- Order among items with equal dates: the database leaves it open, so the contracts state only "sorted newest first" and "the same items". `SortByDateDesc` fixes one order.
- The file upload (multer and Cloudinary): an uploaded file is just its optional path string.
- The HTTP call to the auth service (axios): it is the parameter `verify`. Its body is taken to be a `{ id, role }` claim of strings, and network timeouts are not modelled.
- Gate.Request.Admin: requires an attached claim. In the source, `admin` would throw without `req.user`, but it only ever runs after `auth` has attached one.
- Express wiring, CORS and JSON middleware, the port, the database connection and console logging: framework and runtime setup.
- Concurrent requests: every route runs to completion before the next one starts. Races between approve and claim are not modelled, matching the code's plain read-then-write.
