# Places backend: request handling, modelled in Dafny

A model of the request-handling core of a REST backend for sharing places.
Users sign up and log in. A logged-in user creates places, each with an
uploaded image and a geocoded address, and can then edit or delete the
places they created. The database, the image store, the geocoding service,
password hashing and token signing are outside the model: each handler
takes their results as inputs.

The model is written as pure functions. A place handler maps
`(store, request, outcomes of outside calls)` to
`Outcome(store', reply, calls)`:

- `store'` holds the `Place` and `User` collections after the request.
- `reply` is what the handler did: it sent a body (`Sent`), passed an error
  to `next` (`Passed`), or threw outside any `try` (`Uncaught`).
- `calls` is the ordered trace of external calls: the upload middleware's
  storage call, the handler's image upload, geocoding and image destroy.

`Http.Deliver` feeds a reply through the global error handler, which gives
the status and body the client sees.

The central invariant is `Ledger.Ownership`. Every place's creator exists
and lists the place. Every listed place exists and names the listing user
as its creator. No user lists a place twice.

Files, one module each:

| file | module | models |
|---|---|---|
| options.dfy | Options | `null` / `undefined` |
| text.dfy | Text | how JavaScript and the validators measure a string's length |
| http.dfy | Http | error records, replies, the 404 fallback and the error handler of `index.js` |
| location.dfy | Location | `util/location.js` |
| file_upload.dfy | FileUpload | `middleware/file-upload.js` |
| user_model.dfy | UserModel | `models/user.js` |
| ledger.dfy | Ledger | the Place/User store, the ownership invariant, the transactional writes |
| places_routes.dfy | PlacesRoutes | `routes/places-routes.js` |
| public_id.dfy | PublicId | the image public-id extraction in `deletePlace` |
| places_controller.dfy | PlacesController | `controllers/places-controllers.js` |
| users_controller.dfy | UsersController | `controllers/users-controller.js` |
| places_api.dfy | PlacesApi | the POST pipeline, the not-found fallback, and properties that span several requests |

Four behaviours of the code shape the model, and a reader might expect
otherwise:

- `createPlace` uploads the image before it geocodes the address, so a
  geocoding failure comes after an upload has already happened.
- In `deletePlace` the image-store destroy sits in the same `try` as the
  commit. A destroy failure therefore answers 500, although the deletion is
  already committed. It is not swallowed.
- Editing or deleting someone else's place answers 401.
- On `POST /api/places` the upload middleware runs before the body
  validators, and its storage engine stores the file under `uploads/images`
  as it streams in. An invalid POST with an acceptable image therefore
  answers 422 with the image already stored. A successful POST uploads the
  image a second time, from the first copy's URL, into `places`.

## Model

| member | source | states |
|---|---|---|
| Http.HandleError | index.js:45-60 | `LIMIT_FILE_SIZE` answers 413 "File size too large!" and is checked before `res.headerSent`. A truthy `res.headerSent` forwards the error without a body. Otherwise the status is the error's code when it is truthy and 500 when not, and the message is the error's own when non-empty and "An unknown error occurred" when not. |
| Http.Deliver | index.js:55-59 | a body the handler sends reaches the client unchanged. An error passed to `next` always produces an error body, because `res.headerSent` is undefined and the handler never forwards. Only an uncaught throw produces no response from the application. |
| Http.HttpErrorRoundTrip | index.js:59 | an error built with a non-empty message and a non-zero status reaches the client with exactly that status and message |
| Http.UnmatchedRouteAnswers404 | index.js:39-60 | an unmatched route answers 404 "Could not find this route." |
| Http.UncodedErrorAnswers500 | index.js:59 | an error with no code, or with code 0, answers 500 |
| Location.GetCoordinates | util/location.js:12-42 | the result is a location exactly when the response is 2xx with a non-empty match list, and that location is the first match (`lat` from `lat`, `lng` from `lon`). A network error, a non-ok status, an unparsable or null body, or an empty list all give null. |
| Location.LimitLosesNothing | util/location.js:3-36 | cutting the match list to the one match the query asks for (`limit=1`) does not change the result |
| FileUpload.FileFilter | middleware/file-upload.js:24-27 | a file is accepted iff its MIME type is `image/png`, `image/jpeg` or `image/jpg`. A rejection, and only a rejection, carries the code-less error "Invalid mime type!". |
| FileUpload.SingleImage | middleware/file-upload.js:12-28 | `req.file` is unset iff the request carries no file. A file under another field is refused with multer's `LIMIT_UNEXPECTED_FILE` before anything else. A file is accepted iff it comes under `image`, its type passes the filter, its size is at most 5 MiB and storing it under folder `uploads/images`, format `png` and the drawn uuid succeeds; the accepted path is the URL that storage returns. A failing storage engine's error is passed on unchanged, an oversized file raises `LIMIT_FILE_SIZE`, and a wrong type raises "Invalid mime type!". |
| FileUpload.SizeLimitBoundary | middleware/file-upload.js:22 | a file of 5 * 1024 * 1024 bytes is accepted and one byte more is rejected |
| FileUpload.OversizedImageAnswers413 | index.js:51-53 | an oversized image reaches the client as 413 "File size too large!" |
| FileUpload.WrongTypeAnswers500 | middleware/file-upload.js:26 | a file of another type reaches the client as 500 "Invalid mime type!" |
| Text.Utf16Length | models/user.js:8 | JavaScript's `length` is at least the number of code points and at most twice it, and equals it iff no character lies above U+FFFF |
| Text.ValidatorLength | routes/places-routes.js:16 | the length `isLength` checks is at most the number of code points, and equals it iff the text holds no U+FE0E or U+FE0F |
| Text.EmojiLengths | models/user.js:8 | three emoji measure 6 for JavaScript's `length` and 3 for `isLength` |
| Text.SelectorLengths | routes/places-routes.js:16 | a heart with its emoji selector measures 2 for JavaScript's `length` and 1 for `isLength` |
| UserModel.PasswordLengthInCodeUnits | models/user.js:5-9 | with name, email and image present, the schema accepts a password iff it has at least six UTF-16 code units: three emoji pass, five letters fail |
| UserModel.AddingFreshEmailKeepsUnique | models/user.js:7 | adding a user whose email no one has keeps emails unique |
| Ledger.Pull | controllers/places-controllers.js:206 | `pull` keeps exactly the ids other than the pulled one, changes nothing when the id is absent, and keeps a duplicate-free list duplicate-free |
| Ledger.Attach | controllers/places-controllers.js:118-122 | the committed create stores the place under its id, appends the id to its creator's list, and changes no other user and no other field of the creator |
| Ledger.Detach | controllers/places-controllers.js:200-209 | the committed delete removes exactly that place, removes exactly its id from its creator's list, and changes no other place, no other user and no other field of the creator |
| Ledger.AttachKeepsOwnership | controllers/places-controllers.js:113-123 | saving a place under a fresh id and pushing the id onto an existing creator's list preserves the ownership invariant |
| Ledger.DetachKeepsOwnership | controllers/places-controllers.js:196-210 | removing a place and pulling its id from its creator's list preserves the ownership invariant |
| Ledger.PullAfterPush | controllers/places-controllers.js:206 | pulling an id just pushed onto a list that did not hold it returns the original list |
| Ledger.DetachUndoesAttach | controllers/places-controllers.js:118-207 | removing a place right after adding it restores the store exactly |
| PlacesRoutes.Dispatch | routes/places-routes.js:8-25 | each route is reached only by its own method and path shape, the literal `user` segment matching in any ASCII case as Express routers do by default, and a request falls through iff no route is registered for its shape |
| PlacesRoutes.UserSegmentIgnoresCase | routes/places-routes.js:8 | `GET /USER/:uid` and `GET /User/:uid` reach the public user route without a token, while `GET /users/:uid` meets the authentication middleware |
| PlacesRoutes.Admit | routes/places-routes.js:8-12 | a request is refused by authentication iff it is not one of the two public GET routes and carries no valid token, which includes unmatched paths. A handler behind the middleware receives the authenticated user. An authenticated request that matches nothing falls through to the 404 fallback. |
| PlacesRoutes.CreateRulesExtendUpdateRules | routes/places-routes.js:15-22 | POST input is valid iff PATCH input would be (title non-empty, description at least 5 long as `isLength` counts) and in addition the address is non-empty |
| PlacesRoutes.DescriptionLengthSkipsSelectors | routes/places-routes.js:20-23 | with a title present, PATCH input is valid iff `isLength` counts at least five in the description, so three letters and a heart with its emoji selector fail |
| PlacesRoutes.WritesNeedAuthentication | routes/places-routes.js:8-25 | without a token every non-GET request is refused; `GET /user/:uid` and `GET /:pid` reach their handlers |
| PublicId.AfterLast | controllers/places-controllers.js:194 | `split("/").pop()` is the suffix that holds no separator and is preceded by one, or is the whole text |
| PublicId.BeforeFirst | controllers/places-controllers.js:194 | `split(".")[0]` is the prefix that holds no separator and is followed by one, or is the whole text |
| PublicId.PublicIdOf | controllers/places-controllers.js:193-194 | the extracted public id holds neither `/` nor `.` |
| PublicId.AfterLastOfSuffix | controllers/places-controllers.js:194 | the text after a separator that does not occur again is what `split(..).pop()` returns |
| PublicId.BeforeFirstOfPrefix | controllers/places-controllers.js:194 | the text before a separator that has not occurred earlier is what `split(..)[0]` returns |
| PublicId.PublicIdOfDeliveryUrl | controllers/places-controllers.js:194 | for a URL ending in `/name.ext` the public id is `name` |
| PlacesController.CreatePlace | controllers/places-controllers.js:57-129 | Invalid input answers 422 and a missing file answers 400, both with no call by the handler and no write. The upload is the first call, and geocoding happens only after a successful upload. A failed upload answers 500 "Image upload failed. Please try again." after that one call. Missing coordinates answer 500 "Could not fetch coordinates for the provided address." and a failed user read 500 "Fetching user failed, please try again", both after the upload and the geocoding call. An unknown creator answers 404, and a failed commit or a taken id answers 500. None of these writes anything. The answer is 201 iff every step succeeds, and then the store is the old one with the place (title, description, address, geocoded location, upload URL, requester as creator) added and its id appended to the creator's list. |
| PlacesController.UpdatePlace | controllers/places-controllers.js:134-172 | invalid input answers 422, a failed read 500 "Fetching place failed, please try again later.", an unknown id 404, a requester who is not the creator 401, and a failed save 500 "Updating place failed, please try again later.", each leaving the store unchanged and making no call. Success comes iff every check passes and the save succeeds. Only the title and description of that one place change; address, location, image, creator, the other places and the users stay as they were. |
| PlacesController.DeletePlace | controllers/places-controllers.js:175-220 | A failed read answers 500, an unknown id 404, a non-creator 401, and a failed transaction 500, all removing nothing and making no call. A creator whose document is gone makes the handler throw with no response. The store changes iff the transaction commits, and then exactly by removing the place and pulling its id. The destroy call is made only after the commit, with the id taken from the image URL. The answer is 200 "Deleted place" iff the commit and the destroy both succeed; a failed destroy after the commit answers 500. |
| PlacesController.Populate | controllers/places-controllers.js:38 | populating a list of ids yields exactly the listed ids that name an existing place, each paired with that place |
| PlacesController.GetPlaceByIdAsWritten | controllers/places-controllers.js:10-29 | as written: an existing place is sent with 200; an unknown id passes an error without a code; a failed read passes a 500 error |
| PlacesController.GetPlaceByIdAsWrittenAnswers500 | controllers/places-controllers.js:23-27 | as written, an unknown place id reaches the client as 500 |
| PlacesController.GetPlaceById | controllers/places-controllers.js:10-29 | corrected: an unknown place id reaches the client as 404, a failed read as 500, an existing place is sent with 200 |
| PlacesController.GetPlacesByUserIdAsWritten | controllers/places-controllers.js:31-53 | as written: a failed read passes a 500 error; an unknown user, or one none of whose listed places exists, passes an error without a code; the answer is 200 iff the user exists and has an existing place, and it carries the populated list |
| PlacesController.GetPlacesByUserIdAsWrittenAnswers500 | controllers/places-controllers.js:47-50 | as written, a user with no places reaches the client as 500 |
| PlacesController.GetPlacesByUserId | controllers/places-controllers.js:31-53 | corrected: a failed read reaches the client as 500; an unknown user, or one with no existing places, as 404; the answer is 200 iff the user exists and has an existing place, and it carries the populated list |
| PlacesController.PlacesOfUserAreTheirs | controllers/places-controllers.js:38-52 | under the ownership invariant the populated list holds exactly the places whose creator is that user |
| UsersController.GetUsers | controllers/users-controller.js:7-20 | a failed read answers 500. Otherwise every user, and only those, is returned with name, email, image and places, and the password is left out. |
| UsersController.Signup | controllers/users-controller.js:22-82 | Failed validation answers 422, a failed lookup 500 and an email already present 422. A request without a file then throws at `req.file.path`, and a save the schema refuses, or that fails, answers 500. None of these changes the store. A failed signing after the save answers 500 with the user saved. The store gains exactly one user, and only when the save succeeds; that user has the hashed password, the uploaded file as image and no places. The answer is 201 iff the save and the signing succeed, with the new id, the email and a token signed over exactly `{userId, email}`. |
| UsersController.SignupKeepsInvariants | controllers/users-controller.js:51-60 | signup preserves the ownership invariant and the uniqueness of emails |
| UsersController.FindByEmail | controllers/users-controller.js:89 | `findOne({email})` finds nothing iff no user has the email, and otherwise finds a user holding it |
| UsersController.FindByEmailFindsOwner | controllers/users-controller.js:89 | with unique emails the lookup finds the one user holding the email |
| UsersController.Login | controllers/users-controller.js:84-119 | A failed lookup answers 500 and an unknown email 404. For the user holding the email, a verification that throws answers 500, a failed one 403 with no token, a failed signing 500, and otherwise the answer is 200 with that user's id, email and token. Any 200 answer belongs to the user holding the email, comes only after the password verifies against that user's stored digest, and carries a token signed over exactly that user's id and email. |
| UsersController.SignupThenLogin | controllers/users-controller.js:71-118 | logging in with the credentials of a successful signup answers 200 as the new user, given a verifier that accepts a password against its own hash |
| PlacesApi.StorageCallIsTheOneUploadUses | middleware/file-upload.js:12-28 | the storage call the trace records is the one `single('image')` depends on: an accepted file was stored under that asset (folder `uploads/images`, format `png`, the drawn uuid), the upload's result depends on the storage engine only through that asset, and when no call is recorded the engine does not matter |
| PlacesApi.PostPlace | routes/places-routes.js:12-18 | without authentication the request is refused with no call, and a file the upload middleware refuses never reaches the handler. An authenticated request whose upload is not refused reaches `createPlace`, which receives the authenticated user and the stored file's path; the middleware's storage call precedes the handler's own calls, so a file that reaches the handler has already been stored. |
| PlacesApi.PostWithoutFileAnswers400 | controllers/places-controllers.js:65-67 | a valid POST without a file answers 400 "No image uploaded!" with no call and no write |
| PlacesApi.InvalidPostKeepsStoredImage | routes/places-routes.js:14-18 | an invalid POST with an acceptable image answers 422, writes nothing, and leaves the image stored under `uploads/images` |
| PlacesApi.CreatedPostUploadsTwice | controllers/places-controllers.js:70-90 | a successful POST stores the image through the middleware and then uploads it again from that copy's URL, before geocoding |
| PlacesApi.Fallback | index.js:39-42 | the fallback turns exactly the requests the router lets through into an error with code 404 |
| PlacesApi.UnregisteredRequestAnswers404 | index.js:35-42 | an authenticated request under `/api/places` reaches the fallback iff no route is registered for its method and shape, and the client then gets 404 "Could not find this route." |
| PlacesApi.CreatePlaceKeepsOwnership | controllers/places-controllers.js:113-128 | every `createPlace` outcome preserves the ownership invariant |
| PlacesApi.UpdatePlaceKeepsOwnership | controllers/places-controllers.js:160-168 | every `updatePlace` outcome preserves the ownership invariant |
| PlacesApi.DeletePlaceKeepsOwnership | controllers/places-controllers.js:196-210 | every `deletePlace` outcome preserves the ownership invariant |
| PlacesApi.CreatedPlaceIsListed | controllers/places-controllers.js:113-128 | after a 201 the new place exists, names the requester as creator, and is on the requester's list |
| PlacesApi.DeleteNeverThrowsUnderOwnership | controllers/places-controllers.js:185-191 | under the ownership invariant `deletePlace` never throws outside its `try` |
| PlacesApi.DeleteTwice | controllers/places-controllers.js:178-187 | after a committed delete, deleting the same id again answers 404 and changes nothing |
| PlacesApi.DeletedPlaceIsNotFound | controllers/places-controllers.js:23-27 | after a committed delete, reading the place answers 404 (with the corrected read) |
| PlacesApi.CreateThenDeleteRestores | controllers/places-controllers.js:113-213 | creating a place and then deleting it as its creator, with every outside call succeeding, restores the store exactly, and the destroy call names the id taken from the upload URL |
| PlacesApi.UpdateIsIdempotent | controllers/places-controllers.js:160-165 | repeating an update leaves the store as the first update left it |

## Findings

| source | as written | input that shows it | evidently intended | confidence | as-written member | corrected member |
|---|---|---|---|---|---|---|
| controllers/places-controllers.js:25 | the not-found error is built as `new HttpError(message)` with no code, so the error handler answers 500 | `GET /api/places/<id no place has>` | 404 "Could not find a place for the provided id." | medium (relies on `HttpError` storing its second argument as `code`), not executed | PlacesController.GetPlaceByIdAsWrittenAnswers500 | PlacesController.GetPlaceById |
| controllers/places-controllers.js:49 | the no-places error is built with no code, so the error handler answers 500 | `GET /api/places/user/<id of a user with no places>` | 404 "Could not find  places for the provided user id." | medium (same reliance), not executed | PlacesController.GetPlacesByUserIdAsWrittenAnswers500 | PlacesController.GetPlacesByUserId |

The properties that span several requests use the corrected reads
(`PlacesApi.DeletedPlaceIsNotFound`).

## Left out

- The database engine: a read that throws is an input flag (`readFails`, `userReadFails`, `lookupFails`). This flag also covers a cast error on a malformed id. Fresh ids are inputs too, and an id that is already taken makes the save fail.
- Transactions are one all-or-nothing step with a success flag (`commitOk`). A failed `createPlace` or `deletePlace` transaction is never explicitly aborted and its session is never ended. The model treats it as committing nothing and leaves out the open session.
- The dead branch of `deletePlace` that checks for a missing creator after `deleteOne` is not modelled separately. A missing creator already throws at the ownership check, before the `try`.
- Image store: the upload in `createPlace` (folder `places`, 500x500 limit), the storage engine behind the upload middleware, and the destroy call are success/failure inputs. The model does not check whether the extracted public id names the uploaded asset; the upload used a folder, and the extraction drops it.
- Geocoding: `fetch`, the query URL, `encodeURIComponent` and the request headers are left out, and the response is an input. `parseFloat` is not modelled, so coordinates keep the provider's text.
- Password hashing, password verification and token signing are caller-supplied functions. The token's key and one-hour expiry live inside the signer.
- `models/place.js`, `models/http-error.js`, `middleware/check-auth.js` and `routes/users-routes.js` are not part of this model. `HttpError` is taken to carry `(message, code)`. Authentication is an optional user id, and its rejection response is not modelled. The signup validation rules are a pass/fail input.
- The upload middleware: several files in one request and the other multer limits. The messages "File too large" and "Unexpected field" are multer's own; the first never reaches the client because the error handler replaces it.
- What Express does with a non-numeric status such as `LIMIT_UNEXPECTED_FILE` once it is handed to `res.status` is not modelled. The model stops at the value handed over (`Verbatim`).
- Plumbing in `index.js`: CORS, the JSON body parser, static file serving, the `fs.unlink` of the temporary file, connecting to the database and listening.
- Document order: `getusers` returns a map from id to user, and the order of documents in the answer is not modelled.
- Concurrency between requests and transaction isolation.
- Http.HandleError: the forwarding branch is modelled for a truthy `res.headerSent`, but Express 4 and later do not define that property, so `Deliver` always passes `false`. Under an Express that did define it, a response already sent would forward the error to Express's default handler; the model does not describe that handler.
- `Uncaught` promises no response and nothing more. It arises in `signup` without a file (`req.file.path` at users-controller.js:54) and in `deletePlace` when the creator document is gone (`place.creator.id` at places-controllers.js:189). What follows depends on versions the code does not pin. Express 4 ignores the rejected promise, so the client waits until it times out. On Node 15 and later the unhandled rejection also ends the process. Express 5 would pass the TypeError to the error handler, which would answer 500 with the TypeError's message.
- The upload middleware's storage call is recorded as made once the file passes the field and type checks. The model does not say what becomes of a partly streamed file that then exceeds the size limit, nor whether multer removes it.
- UsersController.Login: its ensures states the per-user cases (500, 403, 500, 200) only under unique emails. The database's unique index keeps emails unique (`UserModel.UniqueEmails`, preserved by `UsersController.SignupKeepsInvariants`). With duplicate emails, which user `findOne` returns is left unspecified.
