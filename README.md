# Bookmark request handler, modelled in Dafny

This project models the request handler of a small bookmarks HTTP service.
The handler serves five operations on one resource: list, create (POST),
get by id, delete and partial update (PATCH). It validates the request
body, calls a bookmark store, serializes rows for output through a markup
sanitizer, and picks the status code and body of the reply.

The model has three modules:

- `JsValues` (`js_values.dfy`): the JavaScript values a parsed JSON body
  holds, property lookup (a missing property reads as `undefined`),
  JavaScript truthiness and `Number.isInteger`.
- `BookmarksRouter` (`bookmarks_router.dfy`): the entities (a store row
  `Bookmark`, its client form `Serialized`, the record POST builds, the
  update object PATCH builds), the store calls, the replies, and one
  function per route. A route function maps the request and the store's
  answers to a `Handled` value. That value holds the store calls issued, in
  order, the reply of the main path, and the 404 that a lookup's callback
  attempts when DELETE or PATCH discards the lookup's result. The
  required-field `for` loop with its early return is the method
  `FindMissing`, proved equal to the recursive search `FirstFalsy`. The two
  route callbacks that run that loop are the methods `Post` and `Patch`,
  each proved equal to its route function.
- `BookmarksRouterProperties` (`bookmarks_router_properties.dfy`): lemmas
  about the route functions.

The two libraries the handler calls are parameters of the functions that use
them: `isWebUri` is any `Value -> bool` and the sanitizer `xss` is any
`Option<string> -> string`. The store is not modelled. Its answers (the rows
listed, the row a lookup found or `None`) are inputs, and the calls made to
it are outputs.

Three quirks of the code are modelled as written:

- Required means JavaScript-truthy, so a rating of `0` is rejected as
  missing. The rating POST accepts is therefore an integer in [1, 5], not
  [0, 5].
- The Location of a created bookmark is
  `http://localhost:8000/api/bookmarks/undefined`, because the record it is
  built from has no `id`.
- PATCH updates `title`, `content` and `style`, not `title`, `url` and
  `rating`.

## Model

| member | source | states |
|---|---|---|
| `JsValues.FalsyValues` | src/bookmarks/bookmarks-router.js:31 | the values `!v` holds of are exactly undefined, null, false, "" and 0 |
| `BookmarksRouter.FirstFalsy` | src/bookmarks/bookmarks-router.js:30-35 | the index found names a falsy field and every earlier field is truthy; no index is found exactly when every field is truthy |
| `BookmarksRouter.FindMissing` | src/bookmarks/bookmarks-router.js:30-35 | the loop over the field list with its early return finds the first falsy field, or none |
| `BookmarksRouter.ValidateCreate` | src/bookmarks/bookmarks-router.js:30-49 | every rejection has status 400; an accepted record has a truthy title, a URL `isWebUri` accepts and an integer rating in [1, 5] |
| `BookmarksRouter.Post` | src/bookmarks/bookmarks-router.js:29-58 | the step-by-step POST callback issues the store calls and the reply of the POST route function |
| `BookmarksRouter.SerializeAll` | src/bookmarks/bookmarks-router.js:25 | `map` over the rows: same length, same order, element i is row i serialized |
| `BookmarksRouter.Patch` | src/bookmarks/bookmarks-router.js:105-128 | the step-by-step PATCH callback issues the store calls and the replies of the PATCH route function |
| `BookmarksRouterProperties.CreateRequiredChecksInOrder` | src/bookmarks/bookmarks-router.js:30-34 | POST checks title, url, rating in that order; the first falsy one gives 400 with `'<field>' is required` whatever the later fields hold |
| `BookmarksRouterProperties.RequiredFieldsInOrder` | src/bookmarks/bookmarks-router.js:30-35 | the required-field search on title, url, rating stops at the first falsy one with its message, and finds nothing exactly when all three are truthy |
| `BookmarksRouterProperties.ZeroRatingReportedMissing` | src/bookmarks/bookmarks-router.js:31-39 | a rating of 0 is rejected with `'rating' is required`, though the range test it never reaches would accept 0 |
| `BookmarksRouterProperties.RatingCheckedBeforeUrl` | src/bookmarks/bookmarks-router.js:39-44 | with the required fields present, a rating that is not an integer in [0, 5] gives 400 `'rating' must be a number between 0 and 5`, whatever the URL |
| `BookmarksRouterProperties.InvalidUrlRejected` | src/bookmarks/bookmarks-router.js:44-47 | once the earlier checks pass, a URL `isWebUri` refuses gives 400 `'url' must be a valid URL` |
| `BookmarksRouterProperties.CreateAcceptsExactly` | src/bookmarks/bookmarks-router.js:30-49 | POST accepts if and only if title and url are truthy, `isWebUri(url)` holds and rating is an integer in [1, 5]; the record is title, url, description and rating copied from the body |
| `BookmarksRouterProperties.CreateReplies` | src/bookmarks/bookmarks-router.js:33-58 | a rejection issues no store call and replies 400 with its message as text; an acceptance inserts the record, replies 201 with Location `.../bookmarks/undefined`, and echoes the record unsanitized |
| `BookmarksRouterProperties.CreateMessages` | src/bookmarks/bookmarks-router.js:33-46 | every POST rejection carries one of the five fixed messages |
| `BookmarksRouterProperties.ListSerializesEveryRow` | src/bookmarks/bookmarks-router.js:10-25 | the list reply is 200 after one list call and holds every row in order, id, url and rating unchanged, title and description sanitized |
| `BookmarksRouterProperties.ListTextIsSanitized` | src/bookmarks/bookmarks-router.js:10-25 | any property that holds of every sanitizer output holds of every title and description in the list reply |
| `BookmarksRouterProperties.GetMissingIsNotFound` | src/bookmarks/bookmarks-router.js:66-73 | GET of a missing row issues the lookup only and replies 404 with `{error: {message: "Bookmark Not Found"}}` |
| `BookmarksRouterProperties.GetAgreesWithList` | src/bookmarks/bookmarks-router.js:74-80 | GET of a row replies 200 with exactly the item the list reply shows for that row: the inline serializer agrees with `serializeBookmark` |
| `BookmarksRouterProperties.DeleteIgnoresLookup` | src/bookmarks/bookmarks-router.js:84-104 | for any two lookup results DELETE issues the same calls (the lookup, then the delete) and the same main reply; the attempted 404 is there exactly when no row was found |
| `BookmarksRouterProperties.PatchSharesCreateRequiredCheck` | src/bookmarks/bookmarks-router.js:117-122 | PATCH replies 400 exactly when POST would reject a body for a missing required field, and with the same message |
| `BookmarksRouterProperties.PatchUpdate` | src/bookmarks/bookmarks-router.js:105-128 | a rejected PATCH issues only the lookup; an accepted one issues the lookup and then an update of `title`, `content` and `style` from the body, and replies 204 |
| `BookmarksRouterProperties.PatchForwardsOnlyArticleFields` | src/bookmarks/bookmarks-router.js:123-126 | two accepted PATCH bodies that agree on title, content and style issue the same calls and the same main reply whatever their url, rating and lookup result: url and rating are never forwarded |
| `JsValues.Truthy` | src/bookmarks/bookmarks-router.js:31 | arrays, objects and non-integer numbers are always truthy; a string is truthy exactly when it is not empty, an integer exactly when it is not 0 |
| `JsValues.IsInteger` | src/bookmarks/bookmarks-router.js:39 | `Number.isInteger` is false of strings (even numeric ones), booleans, non-integer numbers, null and undefined |
| `BookmarksRouter.RatingInRange` | src/bookmarks/bookmarks-router.js:39 | the rating test passes exactly for the integers 0, 1, 2, 3, 4 and 5 |
| `BookmarksRouter.CreateHandled` | src/bookmarks/bookmarks-router.js:29-58 | POST replies 201 or 400 and never makes a lookup; it issues a store call exactly when it replies 201, and that call is the insert of the validated record, which the 201 echoes with the fixed Location |
| `BookmarksRouter.SerializeBookmark` | src/bookmarks/bookmarks-router.js:10-16 | id, url and rating pass through unchanged; title and description are the sanitizer's output |
| `BookmarksRouter.List` | src/bookmarks/bookmarks-router.js:22-28 | one list call, then 200 with one serialized item per row, in the store's order |
| `BookmarksRouter.SerializeForGet` | src/bookmarks/bookmarks-router.js:74-80 | the inline GET object equals `serializeBookmark`'s on a row with an integer rating |
| `BookmarksRouter.LookupReply` | src/bookmarks/bookmarks-router.js:88-95 | the lookup's callback attempts a reply exactly when no row was found, and that reply is 404 with `{error: {message: "Bookmark Not Found"}}` |
| `BookmarksRouter.GetBookmark` | src/bookmarks/bookmarks-router.js:64-83 | one lookup; 404 with the fixed error body when no row is found, otherwise 200 with the row serialized as `serializeBookmark` does |
| `BookmarksRouter.DeleteBookmark` | src/bookmarks/bookmarks-router.js:84-104 | the lookup and then the delete are always issued and the main reply is 204 with no body; a 404 is attempted besides exactly when no row was found |
| `BookmarksRouter.PatchHandled` | src/bookmarks/bookmarks-router.js:105-128 | the lookup is always issued first; the reply is 400 exactly when only the lookup is issued, and 204 exactly when an update of this id follows it; a 404 is attempted besides exactly when no row was found |

## Left out

- Express routing, `bodyParser` and the chained `res` calls: each reply is a
  returned `Response` value (status, optional Location, payload). A body that
  is a JSON array, not an object, is not modelled: the body is a map from
  property names to values.
- The bookmark store (`BookmarksService`) and the database: its answers are
  inputs and its calls are outputs. The store's own behaviour is not
  modelled, so the create-then-get-then-delete scenario is not stated.
- Store failures. The list call, the GET lookup and the delete pass a
  failure to the framework's error handler through `next`. The insert and
  the DELETE and PATCH lookups have no `.catch`, so their failures go
  unhandled. PATCH's `.catch(next)` can only fire after its 204 has been
  sent. None of these paths is modelled.
- Promise timing in DELETE. DELETE's second reply (`lookupReply`) and its
  204 both come from store callbacks, and which reaches the client first is
  timing, which is not modelled. In PATCH there is no race: the 400 or the
  204 is sent synchronously, so the lookup's 404 always comes later and
  fails because the reply was already sent. The model keeps that attempt in
  `lookupReply` but does not call it a reply the client sees.
- The eager `.then(console.log('Something'))` of the insert is modelled only
  in that the 201 does not wait for the insert. The eager
  `.then(res.status(204).end())` of the update is modelled: PATCH replies 204
  without waiting for the update.
- `logger` and `console` output: I/O only.
- The internals of `isWebUri` and `xss`: they are parameters about which
  nothing is assumed.
- `Number()` coercion: store rows have an integer rating, on which `Number`
  is the identity. Its coercion of strings, booleans and other values is not
  modelled. A non-integer number in a body is the flag `NonInteger`, without
  its value.
- The formatting of JSON and text bodies on the wire: a payload is a value,
  and a record property that is `undefined` is kept as `Undefined`, not
  dropped.
