# EasyTechDBManager gateway, modelled in Dafny

EasyTechDBManager is an HTTP gateway. A tenant signs up with an e-mail address and gets an
API key. It then sends requests that name a MongoDB connection URI, a database and a
collection. The gateway provisions databases and collections, with a five-database cap for
tenants on the free tier. It also inserts, fetches, updates and deletes documents.

This project models the decision logic of that gateway over an abstract store. It proves
what each handler answers and how it changes the store and the tenant's record.

- `values.dfy` (module `Values`): JSON-like request values, documents and JavaScript truthiness.
- `text.dfy` (module `Text`): `toLowerCase` and `trim`, the mongoose `lowercase` and `trim` setters (`Normalize`), and `String.prototype.replace` with a string pattern.
- `payload_schema.dfy` (module `PayloadSchema`): the zod schemas as a table of field rules, and the validation service's `{isValid, validatedData | errors}` result.
- `user_model.dfy` (module `UserModel`): the user record, its defaults, and `findOne` lookups by e-mail and by API key.
- `auth_middleware.dfy` (module `AuthMiddleware`): the API-key check `validateApiKey`, as a decision over the user table.
- `auth_controller.dfy` (module `AuthController`): `createUser`, as a method of a `UserTable` class. The class keeps both unique indexes as an invariant.
- `store.dfy` (module `Store`): the document store, with operations written as functions. A store maps database names to collection names to document sequences. The module covers putting and dropping a collection, filtering, the `skip`/`limit` window, `updateMany` with `$set`, and `deleteMany`.
- `db_controller.dfy` (module `DbController`): the seven database handlers, as methods of a `Gateway` class. Its fields are the store (`cluster`) and the tenant attached to the request (`tenant`, which may be absent). It also holds the free-tier quota.

These parts of the environment are parameters of the model:
- The URL and e-mail format checks (`Formats`).
- The randomly generated API key.
- The creation time of a seed document.
- How the store reads a query object. For `fetchDocuments` this is a function `read` from a query object to a predicate on documents, and the empty query matches every document. For update and delete it is the predicate `matches` on documents.

## Model

| member | source | states |
|---|---|---|
| DbController.Gateway.CreateDatabase | src/controllers/db.controller.js:13-114 | An invalid payload gives 400 and an over-quota tenant gives 403; neither changes the store or the tenant. A collection that holds documents gives 200 and nothing changes. An empty or missing collection, in an existing or missing database, ends with exactly one seed document `{created_at, collection_name}` and the tenant charged. The message depends on which of the three cases applied. |
| DbController.Gateway.CreateCollection | src/controllers/db.controller.js:116-172 | An invalid payload gives 400 and over quota gives 403, with nothing changed. An existing collection gives 400 with nothing changed. Otherwise an empty collection is added (no seed), the tenant is charged and the answer is 201. |
| DbController.Gateway.DropCollection | src/controllers/db.controller.js:174-215 | An invalid payload gives 400. A request without a tenant gives 401 with the store unchanged. Otherwise the collection is removed and every other collection is unchanged. |
| DbController.Gateway.InsertDocument | src/controllers/db.controller.js:217-272 | An invalid payload gives 400 and a missing collection gives 404, both with nothing inserted. A truthy `_id` reaches the unimported `ObjectId` and gives 500, and nothing is inserted. A falsy, non-null `_id` that the collection already holds also gives 500 with nothing inserted. Otherwise the answer is 201 and the collection grows by exactly the given document. A null `_id` is dropped from the stored document, because the driver replaces it with a fresh identifier. |
| DbController.Gateway.FetchDocuments | src/controllers/db.controller.js:274-312 | The defaults are query `{}`, limit 10 and offset 0. An invalid payload gives 400 and a negative offset gives 500. Otherwise the answer is the run of documents matching the query, starting at position `offset`, at most `abs(limit)` long (unbounded for 0). Every returned document matches and belongs to the collection. A request with no query, limit or offset gets the collection's first ten documents. |
| DbController.Gateway.UpdateDocument | src/controllers/db.controller.js:314-351 | As written, every request gives 400 with an error naming `filter`, and the store is unchanged. |
| DbController.Gateway.DeleteDocument | src/controllers/db.controller.js:353-389 | As written, every request gives 400 with an error naming `filter`, and the store is unchanged. |
| DbController.Gateway.UpdateDocumentCorrected | src/controllers/db.controller.js:333-342 | With `query` validated as `filter`, a malformed request gives 400 with nothing changed. A well-formed request applies `$set` to exactly the matching documents. It reports the matched count and the changed count; both are 0 for a missing collection. |
| DbController.Gateway.DeleteDocumentCorrected | src/controllers/db.controller.js:371-379 | With `query` validated as `filter`, a malformed request gives 400 with nothing changed. A well-formed request removes exactly the matching documents and reports how many. Kept plus deleted equals the old size. |
| DbController.Gateway.ApplyUpdate | src/controllers/db.controller.js:325-342 | When the schema accepts the payload, `updateMany(query, {$set: update})` runs on the named collection. The matched count is the number of matching documents and the modified count is the number that changed. A missing collection stays missing. |
| DbController.Gateway.ApplyDelete | src/controllers/db.controller.js:363-379 | When the schema accepts the payload, `deleteMany(query)` keeps exactly the documents that do not match, and the deleted count is the number that matched. |
| DbController.Gateway.CreateCollectionStep | src/controllers/db.controller.js:74 | `createCollection` adds the named collection, empty, and leaves every other collection unchanged. |
| DbController.Gateway.InsertOne | src/controllers/db.controller.js:55-58 | `insertOne` appends one document to an existing collection. |
| DbController.Gateway.ChargeTenant | src/controllers/db.controller.js:60-62 | The `$inc` of `dbCount` applies only to a tenant on the free tier, and keeps the tenant within the limit once the quota check has passed. |
| DbController.ChargeOnlyFreeTier | src/controllers/db.controller.js:32 | A tenant is charged if and only if it is present and unpaid. The charge adds exactly 1 and changes nothing else. A tenant that passed the check stays within the limit of 5. |
| DbController.FreeTierCap | src/controllers/db.controller.js:32-37 | After any number n of charging requests, a free-tier tenant's `dbCount` is `min(count + n, 5)`. The charging requests are the seeding `createDatabase` requests and the `createCollection` requests. |
| DbController.PaidTierUncharged | src/controllers/db.controller.js:32 | A paying tenant is never refused and never charged. |
| DbController.ProvisionTwice | src/controllers/db.controller.js:50-71 | A second identical `createDatabase` changes nothing. It repeats a first "already present" answer. After a first 200 that created or seeded the collection, it answers "already present", or 403 exactly when the tenant is now over quota. That happens only when the first request charged a free-tier tenant up to 5. Any other first answer is repeated. |
| DbController.InsertNullIdTwice | src/controllers/db.controller.js:250-254 | Inserting the same document with a null `_id` twice into an existing collection succeeds both times (201), and the collection grows by two documents. |
| DbController.InsertThenFetch | src/controllers/db.controller.js:254 | A document inserted where nothing else matches a query is exactly what a default fetch with that query returns. |
| DbController.AsWrittenPayloadsRejected | src/controllers/db.controller.js:317-330 | The update and delete payloads as built are never accepted, and the errors include `filter`. |
| DbController.CorrectedPayloadsAccepted | src/utils/payloadSchema.js:108-121 | The corrected update payload is accepted if and only if the names and URL are well-formed and `query` and `update` are objects. The corrected delete payload is accepted if and only if the names and URL are well-formed and `query` is an object. |
| Store.PutCollection | src/controllers/db.controller.js:74-79 | Creating or overwriting one collection keeps the store well-formed, sets that collection, and leaves every other collection unchanged. A database exists afterwards exactly when it existed before or is the target. |
| Store.RemoveCollection | src/controllers/db.controller.js:202 | Dropping keeps the store well-formed and removes the collection. Every other collection is unchanged. A database left with no collection is gone. |
| Store.PutCollectionTwice | src/controllers/db.controller.js:74-79 | Creating a collection and then inserting a seed into it is the same as one write of the seed. |
| Store.Filter | src/controllers/db.controller.js:298 | `find(query)` returns only matching documents of the collection, and every matching document appears. |
| Store.FilterAll | src/controllers/db.controller.js:275 | A query that matches every document, such as the default `{}`, returns the whole collection in order. |
| Store.FilterFindsAppended | src/controllers/db.controller.js:298 | A filter that matches only an appended document finds exactly that document. |
| Store.WindowIsRun | src/controllers/db.controller.js:298 | `skip(offset).limit(limit)` returns a contiguous run that starts at `offset`. Its length is bounded by `abs(limit)` and by what remains; a limit of 0 means no bound. |
| Store.WindowSecondAndThird | src/controllers/db.controller.js:298 | Offset 1 and limit 2 over five documents give the second and the third. |
| Store.UpdateMany | src/controllers/db.controller.js:337 | `$set` gives each matching document the update's fields and keeps the document's other fields. Non-matching documents are untouched, and the count is preserved. |
| Store.CountChanged | src/controllers/db.controller.js:341 | The modified count never exceeds the matched count. |
| Store.DeleteMany | src/controllers/db.controller.js:375 | `deleteMany` keeps exactly the documents that do not match. |
| Store.DeleteManyCount | src/controllers/db.controller.js:379 | Kept plus deleted equals the collection's old size. |
| PayloadSchema.ValidateData | src/utils/payloadSchema.js:3-121 | The validation succeeds exactly when every field of the schema satisfies its rule. |
| PayloadSchema.ValidateDataSound | src/utils/payloadSchema.js:3-121 | Valid if and only if accepted. An invalid result names at least one field, every field it names breaks its rule, and every field that breaks its rule is named. |
| PayloadSchema.IssuesExact | src/utils/payloadSchema.js:3-121 | The reported fields are exactly the fields whose rule fails. |
| PayloadSchema.ParseFields | src/utils/payloadSchema.js:93 | The validated data holds each present field, transformed by its rule, and omits each absent one. |
| PayloadSchema.ParseAbsent | src/utils/payloadSchema.js:3-121 | A key that the schema does not list is dropped from the validated data. |
| PayloadSchema.DatabaseSchemaFields | src/utils/payloadSchema.js:3-38 | `databaseSchema` accepts a payload if and only if: the database name is a string of 1..255 characters equal to its lowercase; the URI passes the URL check; and the collection name is absent, one such name, or an array of such names. |
| PayloadSchema.LowercaseNameChars | src/utils/payloadSchema.js:9-12 | A bounded name passes the lowercase refinement if and only if it contains no upper-case letter. |
| PayloadSchema.EmptyNameListAccepted | src/utils/payloadSchema.js:25-37 | An empty array of collection names is accepted exactly when an absent collection name is. |
| PayloadSchema.DropCollectionSchemaFields | src/utils/payloadSchema.js:57-90 | `dropCollectionSchema` is `databaseSchema` with a mandatory collection name. |
| PayloadSchema.DropDatabaseSchemaFields | src/utils/payloadSchema.js:44-55 | `dropDatabaseSchema` requires only a lowercase bounded name and a URL. It accepts whatever `databaseSchema` accepts. |
| PayloadSchema.DropDatabaseIgnoresCollection | src/utils/payloadSchema.js:44-55 | The collection-name field plays no part in `dropDatabaseSchema`. |
| PayloadSchema.InsertDocumentSchemaFields | src/utils/payloadSchema.js:92-97 | `insertDocumentSchema` accepts a payload if and only if the names are bounded, the URL is valid and the document is an object. |
| PayloadSchema.FetchDocumentsSchemaFields | src/utils/payloadSchema.js:99-106 | The query may be absent or an object. The limit and offset may be absent or integers. |
| PayloadSchema.FilterSchemasFields | src/utils/payloadSchema.js:108-121 | The update schema requires a `filter` object and an `update` object. The delete schema requires a `filter` object. |
| PayloadSchema.UserDataSchemaFields | src/utils/payloadSchema.js:40-42 | `userDataSchema` accepts a payload if and only if the e-mail is a string that passes the e-mail check. |
| PayloadSchema.DocumentSchemasLowerDatabaseName | src/utils/payloadSchema.js:93 | The document schemas lowercase the database name in the validated data instead of rejecting it. |
| PayloadSchema.UppercaseNameOnlyForDocuments | src/utils/payloadSchema.js:9 | `Shop`/`Orders` is refused by `databaseSchema` and accepted by `insertDocumentSchema`. |
| Text.LowercaseIffNoUpper | src/utils/payloadSchema.js:9 | A string equals its lowercase if and only if it has no upper-case letter. |
| Text.ToLowerIsLowercase | src/utils/payloadSchema.js:93 | The result of `toLowerCase` is lowercase. |
| Text.NormalizeIdempotent | src/models/auth.schema.js:4-10 | The `lowercase` and `trim` setters yield a lowercase value, and applying them twice equals applying them once. |
| Text.RemoveFirstPrefix | src/middlewares/auth.middleware.js:5 | `replace("Bearer ", "")` on `"Bearer " + key` gives `key`. |
| Text.RemoveFirstAbsent | src/middlewares/auth.middleware.js:5 | A header without the prefix is passed through unchanged. |
| UserModel.NewUserDefaults | src/models/auth.schema.js:3-31 | A new user is active and unpaid, has `dbCount` 0, and holds its e-mail and key lowercased and trimmed. |
| UserModel.FindFirst | src/controllers/auth.conroller.js:19 | `findOne` returns the first matching record in table order, or none when no record matches. |
| UserModel.FindByApiKeyFindsOwner | src/middlewares/auth.middleware.js:14 | Under the unique key index, a stored key finds its owner. |
| AuthMiddleware.ValidateApiKey | src/middlewares/auth.middleware.js:4-32 | A missing or empty key gives 401. A key that no user holds gives 401. An inactive owner gives 403. Only an active owner is attached. The checks run in that order. |
| AuthMiddleware.BareBearerIsMissing | src/middlewares/auth.middleware.js:5-12 | The header `Bearer ` alone is refused as a missing key, before any lookup. |
| AuthMiddleware.BearerKeyResolvesOwner | src/middlewares/auth.middleware.js:14-31 | `Bearer <key>` with a stored key resolves to its owner: passed when active, 403 when not. |
| AuthController.UserTable.CreateUser | src/controllers/auth.conroller.js:6-43 | An invalid e-mail gives 400 and nothing is added. A known e-mail returns the existing record and adds nothing. A key collision makes the store refuse (500) and nothing is added. Otherwise exactly the new record is appended and returned. The unique indexes are kept. |
| AuthController.ValidateEmail | src/controllers/auth.conroller.js:9-17 | The validation of `{email}` fails exactly when the e-mail rule fails, and it then names `email`. |
| AuthController.AppendKeepsIndexes | src/models/auth.schema.js:4-26 | Appending a record with a new e-mail and a new key keeps both unique indexes. |
| AuthController.SignUpTwice | src/controllers/auth.conroller.js:19-27 | The second sign-up with the same e-mail is refused and returns the record the first one created. |

## Left out

- Request routing, environment loading and the health check have no decision logic and are not modelled.
- The connection middleware and the connection lifecycle are not modelled: connecting, closing and a failure to connect. A handler runs with an open connection, which is the `Gateway` object.
- `validateApiKey` is not mounted on the database routes (src/routes/db.route.js:15-21), so `req.user` is absent there. The `Gateway` takes its tenant as a constructor argument, so both the wired case (absent) and an attached tenant are covered.
- Requests are sequential. Races between concurrent requests are not modelled, including two requests that both pass the quota check.
- Character case and whitespace are modelled on ASCII letters and ECMAScript white space. Unicode case mapping beyond ASCII is not modelled, and lengths are counted in characters, not UTF-16 code units.
- The URL and e-mail format checks, the random API key and the clock are parameters.
- Query matching is a parameter. MongoDB's query language and any ordering other than store order are not modelled.
- Driver-generated `_id` values are not modelled: a document inserted without an `_id`, or with a null one, is stored without one. The `insertedId`/`acknowledged` reply fields are not modelled either.
- Store failures other than a negative `skip`, a duplicate `_id` and a duplicate API key are not modelled.
- A `collectionName` that is absent or an array reaches `createDatabase`, `createCollection` and `dropCollection` only through the schemas. In the handlers the collection name is a single string.
- The lowercase and trim setters of the user schema are taken to apply to the values in `findOne` filters as well.
- The `createdAt`/`updatedAt` timestamps of user records are not modelled.
- PayloadSchema.ValidateData: errors are the names of the failing fields. Zod's issue objects and messages are not modelled.
- DbController.Gateway.DropCollection: dropping a missing collection is a no-op, as on MongoDB 7.0 and later. Older servers report it as an error, which would be a 500.
- DbController.Gateway.UpdateDocumentCorrected: an empty `update` object is a no-op `$set`, as on MongoDB 5.0 and later. Older servers refuse it.
- AuthController.UserTable.CreateUser: the handler's `if (!user)` branch (src/controllers/auth.conroller.js:31-36) cannot be reached, because `User.create` either returns the record or throws. The throw on a duplicate key is modelled as the 500 answer.
- `dropDatabaseSchema` is used by no handler, so it is modelled only as a schema.

## Findings

| source | as written | input that shows it | evidently intended | confidence | as-written member | corrected member |
|---|---|---|---|---|---|---|
| src/controllers/db.controller.js:315-330 | `updateDocument` validates `{databaseName, mongodbURI, collectionName, query, update}` against `updateDocumentSchema`, which requires a `filter` object | `{databaseName: "shop", mongodbURI: <valid URL>, collectionName: "orders", query: {}, update: {a: 1}}` is answered 400 with an error on `filter`, and so is every other request | validate the request's `query` as the schema's `filter`, then run `updateMany(query, {$set: update})` | not executed | DbController.Gateway.UpdateDocument (with DbController.AsWrittenPayloadsRejected) | DbController.Gateway.UpdateDocumentCorrected (with DbController.CorrectedPayloadsAccepted) |
| src/controllers/db.controller.js:354-369 | `deleteDocument` validates `{databaseName, mongodbURI, collectionName, query}` against `deleteDocumentSchema`, which requires a `filter` object | `{databaseName: "shop", mongodbURI: <valid URL>, collectionName: "orders", query: {}}` is answered 400 with an error on `filter`, and so is every other request | validate the request's `query` as the schema's `filter`, then run `deleteMany(query)` | not executed | DbController.Gateway.DeleteDocument (with DbController.AsWrittenPayloadsRejected) | DbController.Gateway.DeleteDocumentCorrected (with DbController.CorrectedPayloadsAccepted) |
