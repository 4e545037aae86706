# Safe Courier parcel engine: a Dafny model

This project models the parcel-order engine of the Safe Courier API. That
engine is what remains of the Express handlers and Mongoose models once
HTTP and MongoDB are taken away. Every handler becomes one atomic operation
on an in-memory store (`Database.Store`). The store holds three
collections as maps: `orders`, `locations` and `users`. It also holds a
ghost `outbox` with every mail the handlers hand to the mailer, and an
identifier counter that stands for ObjectId generation. Each operation
returns the status the handler sends: 200, 201, 400, 401, 404, or `Crash`
when the handler throws.

Modules follow the source files:

- `Common` (common.dfy): identifiers, the decoded token payload (`Claims`), statuses, mail records, and the text of an id in a template string.
- `Joi` (joi.dfy): the part of the Joi library the validators use. A body key that the schema does not declare is an error, a Joi string must be a non-empty string, `min`/`max` bound its JavaScript length (UTF-16 code units, so a character above U+FFFF counts twice), `Joi.number()` admits only safe integers, and `null` fits no rule.
- `ParcelModel`, `LocationModel`, `UserModel`: the three Mongoose models.
- `Database`: the store and its invariant `Valid()`. Identifiers come from the counter. Every order's owner is a user. A pickup reference names a stored Location. Stored orders and locations have their required fields, and a stored destination keeps what its validator demanded (telephone length, safe coordinates). Users are constrained only by the unique indexes on `name` and `email`.
- `ParcelRoutes`, `UserRoutes`, `Signup`, `AuthMiddleware`: the handlers. The mutating handlers of routes/parcel.js and signup are methods with exact frames (`modifies db`orders`, …). Each one preserves `Valid()` and states the new value of every field it may change (collections, counter and outbox), case by case, in the order the early returns fire. The users routes only read, so they are functions of the store. The middleware chooses a token with a pure function and then sets `req.user` on a `Request` object.
- `Scenarios`: client methods whose results follow from the handlers' contracts alone. An admin's status update is read back and mailed. A canceled order can be canceled again, and its destination can still be changed.

Foreign calls are parameters:

- `isEmail` stands for Joi's email format check;
- `verify` stands for `jwt.verify` (`None` when it throws);
- `hash` and `salt` stand for bcrypt.

Where stricter behaviour might be expected, the model follows the code:

- Pickup assignment overwrites `pickUp` without conflict detection.
- `setStatus` stores any non-empty string and performs no transition check.
- `setDestination` is owner-only: an admin who is not the owner gets 401.
- A canceled order can be canceled again, and its destination can still be changed.
- `setDestination`, `setStatus` and `setPresentLocation` never check for a missing order. A missing order therefore makes them throw (`Crash`) instead of answering 404. For `setStatus` and `setPresentLocation`, an invalid body is still 400 before that happens.
- Role decisions use the token's `isAdmin`, not the stored user.

## Model

| member | source | states |
|---|---|---|
| `Common.IdText` | routes/parcel.js:577 | the id renders as a non-empty string of digits |
| `Common.IdTextInjective` | routes/parcel.js:654 | distinct ids render differently, so a mail subject names exactly one parcel |
| `Joi.Utf16Len` | models/users.js:41 | JavaScript's `value.length`, which every `min`/`max` bound measures: one unit per character up to U+FFFF, two (a surrogate pair) above; its bounds are stated by the two lemmas below |
| `Joi.Utf16LenBounds` | models/users.js:41 | a string's JavaScript length is at least its number of characters and at most twice that |
| `Joi.Utf16LenBmp` | models/users.js:45 | the JavaScript length equals the number of characters exactly when no character lies above U+FFFF |
| `Joi.SafeNumber` | models/parcel.js:75 | `Joi.number()` admits an integer only within plus or minus 2^53 - 1 |
| `Joi.Fits` | models/parcel.js:74-81 | whether one value passes its rule: a non-empty string within the JavaScript-length bounds and, for `.email()`, passing the email check; or a safe number |
| `Joi.Accepts` | models/parcel.js:83 | `schema.validate` reports no error exactly when every key is declared, every value fits and every required key is present |
| `Joi.AcceptedKey` | models/parcel.js:83 | an accepted body has each required key, and each present key's value fits its rule |
| `Joi.AdmitKey` | models/parcel.js:83 | adding a declared key whose value fits keeps every key of the body declared and fitting |
| `Joi.AdmissibleUnion` | models/parcel.js:83 | two bodies whose keys are declared and fit merge into one that is too |
| `Joi.StrAt` | routes/parcel.js:256 | the destructured string field: the body's string where one is present; "" stands for JavaScript's `undefined` and is read only for required keys that validation has already checked |
| `Joi.OptStrAt` | routes/parcel.js:484 | an optional string field: `Some` exactly when the body holds a string there, `None` for `undefined` |
| `Joi.NumAt` | routes/parcel.js:256 | the destructured number field: the body's number where one is present; 0 stands for `undefined` and is read only for the required, validated parcelWeight |
| `Joi.OptNumAt` | routes/parcel.js:334 | an optional number field (a coordinate): `Some` exactly when the body holds a number there, `None` for `undefined` |
| `ParcelModel.OrderValidation` | models/parcel.js:72-84 | acceptance implies: no undeclared key; parcelType, receiverName and destinationRegion are non-empty strings; parcelWeight is a safe number; receiverTel is a string of JavaScript length 10 to 13; a present receiverEmail passes the email check; present coordinates are safe numbers |
| `ParcelModel.OptionalOrderFields` | models/parcel.js:77-81 | receiverEmail, destinationLat and destinationLng are optional: a valid request stays valid without them |
| `ParcelModel.MinimalOrderAccepted` | models/parcel.js:73-81 | the five required fields alone, well typed and in bounds, pass whatever the email check says |
| `ParcelModel.OptionalFields` | models/parcel.js:77-81 | the optional part of a request carries only receiverEmail, destinationLat and destinationLng |
| `ParcelModel.OptionalFieldsFit` | models/parcel.js:77-81 | a checked email and safe coordinates fit their rules in any schema that gives those keys the creation rules |
| `ParcelModel.OptionalOrderKeysAccepted` | models/parcel.js:77-81 | a valid creation request stays valid when a checked receiverEmail and safe coordinates are added |
| `ParcelModel.IsOrderOwner` | models/parcel.js:64-70 | `isOrderOwner(id)` holds exactly when the order's owner is that id |
| `ParcelModel.SafeCoords` | models/parcel.js:38-41 | each coordinate, where set, is a number `Joi.number()` admits |
| `ParcelModel.WellFormedOrder` | models/parcel.js:14-56 | a stored order has non-empty parcelType, status, receiver name and region, a receiver telephone of JavaScript length 10 to 13, and safe destination coordinates |
| `ParcelModel.DestinationOf` | routes/parcel.js:484-496 | the destination a request describes: receiverName to recieverName, receiverEmail to reciverEmail, receiverTel to reciverTel, destinationRegion to region, destinationLat/Lng to coordinates |
| `ParcelModel.DestinationRoundTrip` | routes/parcel.js:484-496 | the request-to-destination renaming loses no field: it inverts the reverse renaming |
| `ParcelModel.NewOrder` | models/parcel.js:52-56 | a created order has the actor as owner, status "pending", no pickup (pickUp is optional), no present location, and the destination built from the request |
| `ParcelModel.NewOrderFromRequest` | routes/parcel.js:255-272 | a validated request yields a well-formed order whose parcel and destination fields are the request's values |
| `LocationModel.LocationValidation` | models/location.js:24-31 | acceptance implies a non-empty pickRegion string, optional pickLat/pickLng that are safe numbers, and no other key |
| `LocationModel.RegionAloneAccepted` | models/location.js:25-29 | a region alone passes, and so does a region with either or both coordinates when they are safe numbers |
| `LocationModel.NewLocation` | routes/parcel.js:334-343 | the new Location is recorded by the actor, with the request's region (non-empty) and its coordinates under `cordinates` |
| `UserModel.Public` | routes/users.js:109 | `select("-password")` keeps every field except the password |
| `UserModel.NewUser` | models/users.js:20-24 | a user built without isAdmin is not an admin, and keeps the given fields |
| `UserModel.EmailTaken` | auth/signup.js:50-53 | `findOne({email})` finds a stored user with that email |
| `UserModel.NameTaken` | models/users.js:6-10 | a stored user already has that name, so the unique index on `name` refuses another |
| `UserModel.InsertKeepsUnique` | models/users.js:6-15 | inserting a user whose email and name are both unused keeps both unique indexes, and the email lookup then finds it |
| `UserModel.UserValidation` | models/users.js:39-49 | acceptance implies a name of JavaScript length 3 to 250, a non-empty email passing the email check, a telephoneNumber of JavaScript length 10 to 13, a password of JavaScript length at least 8, and no other key |
| `UserModel.UserValidationComplete` | models/users.js:40-47 | the four fields within those bounds, counted in UTF-16 units, are enough to pass |
| `Database.Consistent` | models/parcel.js:4-56 | the store invariant over the collections' values: identifiers below the counter; owners stored and pickups stored, as the writes at routes/parcel.js:255-272 and routes/parcel.js:343-348 keep them; orders well formed; location regions non-empty, as models/location.js:9-12 requires; unique names and emails, the indexes of models/users.js:6-15 |
| `Database.ReplaceOrder` | routes/parcel.js:401 | replacing an order by a well-formed one with the same owner and pickup keeps the store consistent |
| `Database.Store.Valid` | models/parcel.js:4-62 | the store's collections are consistent |
| `ParcelRoutes.AdminOrOwner` | routes/parcel.js:200 | view, pick and cancel admit an admin or the order's owner |
| `ParcelRoutes.DestinationSchemaOfCreation` | routes/parcel.js:470-477 | the destination schema is the creation schema without parcelType and parcelWeight |
| `ParcelRoutes.DestinationValidation` | routes/parcel.js:470-478 | acceptance implies no undeclared key (parcel fields are refused); non-empty receiverName and destinationRegion; a receiverTel of JavaScript length 10 to 13; a present receiverEmail passes the email check; present coordinates are safe numbers |
| `ParcelRoutes.DestinationBodyAccepted` | routes/parcel.js:470-478 | every destination with non-empty name and region, a telephone of JavaScript length 10 to 13, a checked email if any and safe coordinates, written back as a request, passes the destination schema |
| `ParcelRoutes.StatusValidation` | routes/parcel.js:563-566 | the body is accepted exactly when it holds a non-empty string `status` and nothing else: no enum check |
| `ParcelRoutes.PresentLocationValidation` | routes/parcel.js:631-636 | acceptance implies a non-empty presentRegion, optional coordinates that are safe numbers, and no other key |
| `ParcelRoutes.PresentRegionAccepted` | routes/parcel.js:631-636 | a present region alone passes, and so does a region with either or both coordinates when they are safe numbers |
| `ParcelRoutes.ListActiveGate` | routes/parcel.js:135-145 | 401 exactly for a non-admin; an admin's request throws (`Crash`), because the un-awaited query handed to `res.json` cannot be serialised |
| `ParcelRoutes.ListAll` | routes/parcel.js:162-172 | an admin gets every order with 200; anyone else gets 401 |
| `ParcelRoutes.PickUpOf` | routes/parcel.js:197 | the populated pickup is the stored Location the order refers to, or none |
| `ParcelRoutes.ViewOrder` | routes/parcel.js:196-224 | 404 for a missing id, before any role check; then 200 exactly for an admin or the owner, otherwise 401; on 200 the view carries the order's fields and its owner's name, email and telephone |
| `ParcelRoutes.CreateOrder` | routes/parcel.js:247-274 | invalid input is 400 and adds nothing; a valid request from a stored user adds exactly one order with owner = actor, status "pending" and no pickup; an actor who is not stored makes the handler throw |
| `ParcelRoutes.AssignPickup` | routes/parcel.js:317-356 | 404, then 401 unless admin or owner, then 400 for invalid input, each with no change; otherwise one step that adds one Location recorded by the actor and sets only that order's pickUp to it, overwriting any earlier one |
| `ParcelRoutes.Cancel` | routes/parcel.js:382-409 | 404, then 401 unless admin or owner, then 400 with no change for a delivered order; otherwise the status becomes "canceled" (also when it already is) and no other field or order changes |
| `ParcelRoutes.SetDestination` | routes/parcel.js:462-503 | a missing order throws; 401 unless owner (admins included); 400 for a delivered order before validation; 400 for invalid input; otherwise only `destination` changes, to the request's fields renamed |
| `ParcelRoutes.SetStatus` | routes/parcel.js:548-581 | 401 for a non-admin before lookup or validation, with no change and no mail; 400 for an invalid body; a missing order throws; otherwise exactly the supplied string is stored whatever the current status, and exactly one mail goes from the actor to the owner with subject "Status Update for parcel <id>" and a text naming the owner and the new status |
| `ParcelRoutes.SetPresentLocation` | routes/parcel.js:624-658 | admin only (401 first); 400 for an invalid body; a missing order throws; otherwise, whatever the status, presentLocation becomes the request's region and coordinates, and one mail "Present Location Update for parcel <id>" names the region |
| `UserRoutes.OrdersOf` | routes/users.js:65 | exactly the orders whose owner is the given user, unchanged |
| `UserRoutes.SelfOrAdmin` | routes/users.js:58 | the users routes admit the user named in the path or an admin |
| `UserRoutes.UserParcels` | routes/users.js:56-79 | 401 unless self or admin; 400 for an unknown user; 404 exactly when the user owns no order; 200 whenever the user owns one, with exactly that user's orders; the store is only read |
| `UserRoutes.GetUser` | routes/users.js:107-123 | 401 unless self or admin; 400 for an unknown user; 200 with that user's fields otherwise, without the password |
| `UserRoutes.ListUsers` | routes/users.js:140-156 | admin only; 200 with exactly the users whose isAdmin is not true, without passwords |
| `Signup.Signup` | auth/signup.js:42-66 | invalid input is 400 and adds no user; a stored email is 400 with users unchanged; a stored name breaks the unique index, so the save throws; otherwise exactly one user is added with the given name and email, telephonNumber taken from telephoneNumber, password hash(password, salt), and isAdmin false; the unique indexes are kept |
| `AuthMiddleware.Split` | middleware/auth.js:8 | `split(" ")` gives at least one piece, none containing a space |
| `AuthMiddleware.JoinSplit` | middleware/auth.js:8 | joining the pieces with single spaces gives back the header |
| `AuthMiddleware.SplitAfterWord` | middleware/auth.js:8 | a space-free word in front of a space (or the end) is the first piece, and the rest is split on its own |
| `AuthMiddleware.SecondWord` | middleware/auth.js:7-9 | for "<scheme> <t>…", the second piece is t |
| `AuthMiddleware.Truthy` | middleware/auth.js:7 | a header value is truthy exactly when it is sent and non-empty |
| `AuthMiddleware.BearerPart` | middleware/auth.js:6-9 | the second piece of a non-empty authorization header, if there is one |
| `AuthMiddleware.SelectToken` | middleware/auth.js:5-21 | a non-empty x-auth-token is verified even when authorization is also sent; otherwise the second word of authorization if non-empty; no token exactly when neither is non-empty |
| `AuthMiddleware.BearerHeaderSelected` | middleware/auth.js:15-19 | with only "authorization: <scheme> <t>" sent, t is the token verified |
| `AuthMiddleware.SingleWordHeaderRejected` | middleware/auth.js:8-13 | an authorization header of one word yields no token, hence 401 |
| `AuthMiddleware.Request.Header` | middleware/auth.js:5-6 | `req.header(name)` is the sent value when the header is present and `undefined` (`None`) exactly when it is absent |
| `AuthMiddleware.Authenticate` | middleware/auth.js:3-28 | 401 without a token and 400 when verification fails, both leaving req.user unset; otherwise req.user is the decoded payload and the handler proceeds |
| `Scenarios.CreateThenSetStatus` | routes/parcel.js:548-581 | after creation and an admin's status update, the owner reads status "inprocess", and one mail about that parcel went to the owner |
| `Scenarios.CancelTwiceThenMove` | routes/parcel.js:393-401 | a second cancel answers 201 again, and a canceled order's destination can still be changed by its owner |

## Left out

- index.js, models/model.js and mail/mailer.js: app wiring, the MongoDB connection and the mail transport. A mail is recorded in the outbox; its delivery and delivery failures are not modelled.
- auth/login.js is not part of this model: apart from foreign calls, it is a lookup by email.
- Token issue (`generateAuthToken`) and the token header that signup sends back are not modelled. `jwt.verify` and bcrypt are parameters. A decoded payload is always a well-typed `Claims`, so payloads with missing fields are not modelled.
- Concurrency is not modelled: each handler is one atomic step. The source has no locking, does not await the Fawn transaction and does not await the mailer.
- Mongoose projections and ordering are not modelled: `populate` on list results, `sort("date")`, `timestamps` and the `Date.now()` defaults. The password projection and the pickup population in `GET /:id` are kept.
- `GET /` of routes/parcel.js hands an un-awaited query object to `res.json`. The query's structure refers back to itself, so serialising it throws: `ListActiveGate` answers `Crash` for an admin, and the query is never run.
- Identifiers are natural numbers drawn from a counter. Malformed ids in a path (a Mongoose cast error) are not modelled. `IdText` renders an id in decimal, where ObjectId's `toString` gives 24 hex digits.
- JavaScript numbers (weights, coordinates) are integers: fractional numbers are not modelled. `Joi.number()` admits safe integers only (`number.unsafe` beyond plus or minus 2^53 - 1). Joi's conversion of numeric strings to numbers is not modelled: only JSON numbers pass `Joi.number()`.
- Joi's email format is the parameter `isEmail`. Validation error messages and response bodies other than the data listed above are not modelled.
- A request body is a JSON object; an array or scalar body is not modelled. Header names are taken as already lower-cased.
- What the exception middleware sends for `Crash` is not modelled.
- The `console.log` calls (middleware/auth.js:10, routes/parcel.js:214, routes/users.js:57) are output only and are not modelled.
- `Database.Store.Valid` constrains users only by the unique indexes, because users may be stored by means other than signup (an administrator, for one).
