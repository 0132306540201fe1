# cBioPortal session service: storage core in Dafny

The session service stores JSON "sessions" for cBioPortal front ends. Each
session has an `id`, a `source` (the portal that owns it), a `type` and a JSON
payload `data`. Sessions of one type live in their own document collection.
That collection is created, together with a unique compound index, the first
time a session of that type is saved. The service offers:

- `addSession`: get-or-create. On a duplicate-key conflict it re-reads and
  returns the stored session with the same source, type and payload checksum.
- `createNewSession`: strict create, with an optional caller-chosen id.
- `getSessions` and `getSessionsByQuery`: listing and ad-hoc queries.
- `getSession`, `updateSession` and `deleteSession`: point operations keyed by
  `(source, type, id)`.

This project models that core in four layers:

- `domain.dfy` (module `Domain`) models `Session.java`. It holds the bean
  validation constraints as `Validate`. The mutable `Session` object is a class
  whose setters are methods.
- `document_store.dfy` (module `DocumentStore`) holds the document store
  primitives the repository uses. A collection is a sequence of rows in
  insertion order. It supports equality-filtered find-one, find and remove,
  plus the count a remove reports.
- `repository.dfy` (module `Repository`) models `SessionRepositoryImpl.java`:
  - The store is a value `Db`: a map from type name to rows, plus the set of
    collections that carry the unique index.
  - Each repository call is a pure function from store to store: `Save`,
    `Insert`, the finders and `Delete`.
  - The class `SessionRepository` performs the same calls step by step on its
    own fields. Its methods are proved to produce exactly what those functions
    produce.
  - The unique index is the invariant `WellFormed`. It says:
    - every collection has its index;
    - every row sits in the collection named by its own type;
    - ids are unique within a collection;
    - no two rows of a collection share (source, type, checksum of data).
- `service.dfy` (module `Service`) models `SessionServiceImpl.java`:
  - Each operation is a function of the store: `Add`, `CreateNew`, `Get`,
    `Update` and `Remove`.
  - The class `SessionService` calls a `SessionRepository` and mutates
    `Session` objects as the Java code does. Its methods are proved equal to
    those functions.
  - `service_properties.dfy` (module `ServiceProperties`) proves what holds
    across calls: idempotence of get-or-create, strictness of create, the
    round trip, update identity, delete-at-most-one, and preservation of the
    store invariant.

Three pieces of library code are parameters of the model, not part of it:

- The JSON parser is `parse: string -> Option<Doc>`. `None` stands for a
  `JsonParseException`.
- The payload checksum is `checksum: Doc -> string`. It is deterministic but
  otherwise unconstrained.
- The compiler of ad-hoc queries is `compileQuery: string -> Option<DocFilter>`.
  `None` stands for the exceptions `getSessionsByQuery` maps to
  `SessionQueryInvalidException`.

The Java field `type` is called `sessionType`, because `type` is a Dafny
keyword. A Java `null` is `None`, and a null payload is `Doc.Null`.

The versions of `Session.java` and `SessionRepositoryImpl.java` this model
follows predate the version of `SessionServiceImpl.java` it follows, so where
they disagree the model takes the service's usage:

- `SessionServiceImpl.java` calls `upsertSession`, `insertSession`,
  `findOneBySourceAndTypeAndChecksum`, `findBySourceAndTypeAndQuery`, `setId`
  and `getChecksum`. The earlier `SessionRepositoryImpl.java` and
  `Session.java` define none of these.
- `upsertSession` is modelled on the earlier `saveSession`: provision the
  collection, then save, replacing by id. `insertSession` is the same
  provisioning followed by a strict insert.
- The unique index is modelled on (source, type, checksum), the key the
  service resolves conflicts by. `Repository.IndexCoversData` proves that it
  also rules out two rows sharing (source, type, data), which is the index
  the earlier `saveSession` declares.

The model follows the code as written, including two behaviours a reader
might not expect:

- `updateSession` catches only `ConstraintViolationException` and
  `JsonParseException`, so a duplicate-key failure on update escapes as the
  store's own exception, modelled as `Error.UncaughtDuplicateKey`.
- Provisioning (`SessionRepositoryImpl.java:60-68`) runs before the save, and
  validation fires inside the save. A session that fails validation can
  therefore leave behind a new, empty, indexed collection for its type.
  `ServiceProperties.AddRejectsInvalid` proves that no existing row changes,
  rather than that the whole store is unchanged.

## Model

| member | source | states |
|---|---|---|
| Domain.Validate | src/main/java/org/cbioportal/session_service/domain/Session.java:50-57 | Each `@NotNull` is reported exactly when its field is null. `@Size` and `@Pattern` are reported only on non-null fields. `@Size` measures the source in UTF-16 code units, as Java's `String.length()` does. |
| Domain.ConstraintsHoldExactly | src/main/java/org/cbioportal/session_service/domain/Session.java:50-57 | A session is valid iff its data is non-null, its source is non-null with at least 3 UTF-16 code units, and its type is non-null and one of `main_session` or `virtual_cohort`. |
| Domain.Utf16LengthBounds | src/main/java/org/cbioportal/session_service/domain/Session.java:53 | The length `@Size` measures lies between the number of characters and twice that number. It equals the number of characters iff no character lies above U+FFFF. |
| Domain.Session.Empty | src/main/java/org/cbioportal/session_service/domain/Session.java:59-61 | The no-argument constructor leaves every field null. |
| Domain.Session.Create | src/main/java/org/cbioportal/session_service/domain/Session.java:63-68 | The public constructor yields a session iff the payload parses. The new session has the given source and type, the parsed data, and no id. |
| Domain.Session.Materialize | src/main/java/org/cbioportal/session_service/domain/Session.java:48-61 | A session read back from the store has the stored row's id, source, type and data. |
| Domain.Session.SetData | src/main/java/org/cbioportal/session_service/domain/Session.java:75-78 | Reports success iff the payload parses. On success only `data` changes, to the parsed value. On a parse failure nothing changes. |
| Domain.Session.SetId | src/main/java/org/cbioportal/session_service/service/internal/SessionServiceImpl.java:110-112 | Only `id` changes, to the value given. |
| Domain.Session.SetType | src/main/java/org/cbioportal/session_service/domain/Session.java:85-93 | Only `type` changes, and the getter returns the value set. |
| Domain.Session.SetSource | src/main/java/org/cbioportal/session_service/domain/Session.java:95-103 | Only `source` changes, and the getter returns the value set. |
| DocumentStore.FindOne | src/main/java/org/cbioportal/session_service/domain/SessionRepositoryImpl.java:73-75 | `findOne` returns a stored row the filter selects, or null exactly when the filter selects no row. |
| DocumentStore.Find | src/main/java/org/cbioportal/session_service/domain/SessionRepositoryImpl.java:85-87 | `find` returns exactly the rows the filter selects, as many as it selects. |
| DocumentStore.Keep | src/main/java/org/cbioportal/session_service/domain/SessionRepositoryImpl.java:91-93 | `remove` leaves exactly the rows the filter does not select. Removed plus kept equals the rows before. |
| DocumentStore.CountAtMostOne | src/main/java/org/cbioportal/session_service/service/internal/SessionServiceImpl.java:173 | A filter that no two rows both satisfy selects at most one row. |
| DocumentStore.CountNone | src/main/java/org/cbioportal/session_service/service/internal/SessionServiceImpl.java:172-174 | A filter that selects no row counts zero rows. |
| Repository.Provision | src/main/java/org/cbioportal/session_service/domain/SessionRepositoryImpl.java:60-68 | Afterwards the collection exists. If it was absent it is new, empty and indexed. If it existed the store is unchanged. No other collection or index changes. |
| Repository.FreshId | src/main/java/org/cbioportal/session_service/domain/SessionRepositoryImpl.java:69 | The id the store generates is held by no row of the collection. |
| Repository.SaveRow | src/main/java/org/cbioportal/session_service/domain/SessionRepositoryImpl.java:69 | The save fails iff another id holds the same key. Otherwise the row is stored and every row with another id is kept. Under unique ids, nothing else is added. |
| Repository.ReplaceKeepsOthers | src/main/java/org/cbioportal/session_service/domain/SessionRepositoryImpl.java:69 | Replacing the row with the same id stores the new row and keeps every row with another id. |
| Repository.InsertRow | src/main/java/org/cbioportal/session_service/service/internal/SessionServiceImpl.java:117 | A strict insert fails iff a row has the same id or the same key. Otherwise the row is appended. |
| Repository.Save | src/main/java/org/cbioportal/session_service/domain/SessionRepositoryImpl.java:59-70 | A constraint violation happens iff validation fails. Any failure leaves only the provisioning. A duplicate key happens iff the session is valid and a stored row with a different id (any row, when the session has no id) has the same source, type and checksum. On success the row is in the collection named by its type, under the given id or a fresh one. Under unique ids, the collection afterwards holds exactly the new row and the old rows with other ids, so the save replaces by id. Without an existing row of that id, the row is appended. No other collection changes. |
| Repository.Insert | src/main/java/org/cbioportal/session_service/service/internal/SessionServiceImpl.java:98-104 | A constraint violation happens iff validation fails. A duplicate key happens iff the session is valid and a stored row has the caller's id or the same source, type and checksum. On success the row is appended with an id and key that no stored row has, and no other collection changes. |
| Repository.FindOneBySourceAndTypeAndData | src/main/java/org/cbioportal/session_service/domain/SessionRepositoryImpl.java:72-76 | Returns a row of that source and type with exactly that data, or null iff none exists. |
| Repository.FindOneBySourceAndTypeAndId | src/main/java/org/cbioportal/session_service/domain/SessionRepositoryImpl.java:78-82 | Returns a row whose source, type and id equal the arguments, or null iff none exists. |
| Repository.FindOneBySourceAndTypeAndChecksum | src/main/java/org/cbioportal/session_service/service/internal/SessionServiceImpl.java:79-81 | Returns a row of that source and type whose data has that checksum, or null iff none exists. |
| Repository.FindBySourceAndType | src/main/java/org/cbioportal/session_service/domain/SessionRepositoryImpl.java:84-88 | Returns exactly the rows of collection `type` with that source and type, each as often as it is stored: the length is the number of matching rows. The list is empty when the collection does not exist. |
| Repository.FindBySourceAndTypeAndQuery | src/main/java/org/cbioportal/session_service/service/internal/SessionServiceImpl.java:135 | Returns exactly the rows of that source and type whose data the query selects. The length is the number of such rows. |
| Repository.Delete | src/main/java/org/cbioportal/session_service/domain/SessionRepositoryImpl.java:90-94 | Removes exactly the rows matching (source, type, id) and reports how many matched. Every other row, collection and index is unchanged. |
| Repository.ProvisionKeepsWellFormed | src/main/java/org/cbioportal/session_service/domain/SessionRepositoryImpl.java:60-68 | Provisioning keeps the store invariant: a new collection comes with its unique index. |
| Repository.ReplaceKeepsWellFormed | src/main/java/org/cbioportal/session_service/domain/SessionRepositoryImpl.java:69 | Replacing a row by id keeps a collection well formed when no other id holds the key. |
| Repository.AppendKeepsWellFormed | src/main/java/org/cbioportal/session_service/domain/SessionRepositoryImpl.java:69 | Appending a row with an unused id and an unused key keeps a collection well formed. |
| Repository.SaveKeepsWellFormed | src/main/java/org/cbioportal/session_service/domain/SessionRepositoryImpl.java:62-69 | No save breaks the unique index, unique ids or the type of a collection. |
| Repository.InsertKeepsWellFormed | src/main/java/org/cbioportal/session_service/service/internal/SessionServiceImpl.java:117 | No insert breaks the store invariant. |
| Repository.TailWellFormed | src/main/java/org/cbioportal/session_service/domain/SessionRepositoryImpl.java:91-93 | The rest of a well-formed collection is well formed, and its first row shares neither id nor key with it. |
| Repository.ConsWellFormed | src/main/java/org/cbioportal/session_service/domain/SessionRepositoryImpl.java:91-93 | A row apart in id and key from a well-formed collection can join it. |
| Repository.KeepKeepsWellFormed | src/main/java/org/cbioportal/session_service/domain/SessionRepositoryImpl.java:91-93 | Removing rows keeps a collection well formed. |
| Repository.DeleteKeepsWellFormed | src/main/java/org/cbioportal/session_service/domain/SessionRepositoryImpl.java:90-94 | A delete keeps the store invariant. |
| Repository.DeleteRemovesAtMostOne | src/main/java/org/cbioportal/session_service/service/internal/SessionServiceImpl.java:172-173 | Because ids are unique within a collection, a delete by (source, type, id) removes at most one row. |
| Repository.IndexCoversData | src/main/java/org/cbioportal/session_service/domain/SessionRepositoryImpl.java:62-67 | In a well-formed store, no two rows of a collection share (source, type, data). |
| Repository.FindByIdFindsTheRow | src/main/java/org/cbioportal/session_service/domain/SessionRepositoryImpl.java:78-82 | In a well-formed store, the lookup by (source, type, id) returns exactly the stored row with that id. |
| Repository.FindByChecksumFindsTheRow | src/main/java/org/cbioportal/session_service/service/internal/SessionServiceImpl.java:79-81 | In a well-formed store, the lookup by checksum returns exactly the stored row with that key. |
| Repository.SessionRepository.constructor | src/main/java/org/cbioportal/session_service/domain/SessionRepositoryImpl.java:55-56 | A repository starts over an empty, well-formed store. |
| Repository.SessionRepository.SaveSession | src/main/java/org/cbioportal/session_service/domain/SessionRepositoryImpl.java:59-70 | The new store and the outcome are what `Save` gives. The store invariant holds afterwards. The session object gets the stored id only when the write succeeds. |
| Repository.SessionRepository.InsertSession | src/main/java/org/cbioportal/session_service/service/internal/SessionServiceImpl.java:117 | The new store and the outcome are what `Insert` gives. The store invariant holds afterwards. The session object gets its id only on success. |
| Repository.SessionRepository.DeleteBySourceAndTypeAndId | src/main/java/org/cbioportal/session_service/domain/SessionRepositoryImpl.java:90-94 | The new store and the count are what `Delete` gives. The count is at most 1, and the store invariant holds afterwards. |
| Service.Add | src/main/java/org/cbioportal/session_service/service/internal/SessionServiceImpl.java:69-90 | A parse failure is SessionInvalid with the store untouched. Any error is SessionInvalid with only provisioning done. On success the session has the caller's source, type and checksum. It is either an existing row with the store unchanged, or a new row appended with the parsed data. On success no other collection changes, and the only index added is the one for a newly provisioned collection. |
| Service.CreateNew | src/main/java/org/cbioportal/session_service/service/internal/SessionServiceImpl.java:107-124 | Every error is SessionInvalid or SessionAlreadyExists. SessionInvalid happens iff the payload does not parse or the session breaks a constraint. SessionAlreadyExists happens iff the session is valid and a stored row has the caller's id or the same source, type and checksum. On success the row is new, with the caller's source, type and parsed data and the caller's id when given. It is appended, and no stored row shares its id or key. On success no other collection changes, and the only index added is the one for a newly provisioned collection. |
| Service.Get | src/main/java/org/cbioportal/session_service/service/internal/SessionServiceImpl.java:144-150 | Returns the row matching (source, type, id). It raises SessionNotFound iff no such row exists. |
| Service.Update | src/main/java/org/cbioportal/session_service/service/internal/SessionServiceImpl.java:153-168 | Every error is SessionNotFound, SessionInvalid or the uncaught duplicate key, and leaves the store unchanged. SessionNotFound happens iff the row is absent. SessionInvalid happens iff the row is present and the payload does not parse or the updated session breaks a constraint. The duplicate key escapes iff the updated session is valid and another id holds its source, type and checksum. On success the row with that id, source and type holds the parsed data, and no other collection changes. |
| Service.Remove | src/main/java/org/cbioportal/session_service/service/internal/SessionServiceImpl.java:171-176 | Succeeds iff exactly one row matched, otherwise SessionNotFound. The matching rows are gone and every other row stays. |
| Service.SessionService.constructor | src/main/java/org/cbioportal/session_service/service/internal/SessionServiceImpl.java:57-58 | Over a well-formed repository, the service is wired to the given repository, parser and query compiler, and it starts valid. |
| Service.SessionService.AddSession | src/main/java/org/cbioportal/session_service/service/internal/SessionServiceImpl.java:69-90 | Building the session, saving it and re-reading on a duplicate key produce exactly `Add`'s store and result. The store invariant is kept. |
| Service.SessionService.CreateNewSession | src/main/java/org/cbioportal/session_service/service/internal/SessionServiceImpl.java:107-124 | Building the session, setting the caller's id when given and inserting produce exactly `CreateNew`'s store and result. The invariant is kept. |
| Service.SessionService.GetSessions | src/main/java/org/cbioportal/session_service/service/internal/SessionServiceImpl.java:127-129 | Returns exactly the stored sessions of that source and type, as many as are stored, in the order of `findBySourceAndType`. The list is empty when the collection does not exist. |
| Service.SessionService.GetSessionsByQuery | src/main/java/org/cbioportal/session_service/service/internal/SessionServiceImpl.java:132-141 | Raises SessionQueryInvalid iff the query cannot be compiled. Otherwise it returns exactly the sessions of that source and type that the query selects, possibly none, as many as match, in the order of `findBySourceAndTypeAndQuery`. |
| Service.SessionService.GetSession | src/main/java/org/cbioportal/session_service/service/internal/SessionServiceImpl.java:144-150 | Returns the row matching (source, type, id), or SessionNotFound iff none exists. |
| Service.SessionService.UpdateSession | src/main/java/org/cbioportal/session_service/service/internal/SessionServiceImpl.java:153-168 | The lookup, the in-place `setData` and the save produce exactly `Update`'s store and result. The invariant is kept. |
| Service.SessionService.DeleteSession | src/main/java/org/cbioportal/session_service/service/internal/SessionServiceImpl.java:171-176 | The delete and the exactly-one check produce exactly `Remove`'s store and result. The invariant is kept. |
| ServiceProperties.AddKeepsWellFormed | src/main/java/org/cbioportal/session_service/service/internal/SessionServiceImpl.java:69-90 | addSession never breaks the unique index or unique ids. |
| ServiceProperties.CreateNewKeepsWellFormed | src/main/java/org/cbioportal/session_service/service/internal/SessionServiceImpl.java:107-124 | createNewSession never breaks the store invariant. |
| ServiceProperties.UpdateKeepsWellFormed | src/main/java/org/cbioportal/session_service/service/internal/SessionServiceImpl.java:153-168 | updateSession never breaks the store invariant. |
| ServiceProperties.RemoveKeepsWellFormed | src/main/java/org/cbioportal/session_service/service/internal/SessionServiceImpl.java:171-176 | deleteSession never breaks the store invariant. |
| ServiceProperties.AddReturnsExisting | src/main/java/org/cbioportal/session_service/service/internal/SessionServiceImpl.java:77-81 | When a stored session has the caller's source, type and checksum, addSession returns that very session and the store does not change. |
| ServiceProperties.AddCreatesNew | src/main/java/org/cbioportal/session_service/service/internal/SessionServiceImpl.java:69-77 | When no stored session has that key, addSession appends exactly one row. The row holds the parsed data, with an id no row had. |
| ServiceProperties.AddIsIdempotent | src/main/java/org/cbioportal/session_service/service/internal/SessionServiceImpl.java:65-81 | Repeating a successful addSession returns the same session (same id) and leaves the store as the first call left it. |
| ServiceProperties.AddRejectsInvalid | src/main/java/org/cbioportal/session_service/service/internal/SessionServiceImpl.java:82-87 | addSession raises SessionInvalid iff the payload does not parse or the session breaks a constraint. No stored row changes then. |
| ServiceProperties.AddThenGet | src/main/java/org/cbioportal/session_service/service/internal/SessionServiceImpl.java:69-90 | The session addSession returns reads back by its id. Its data has the checksum of the parsed payload, and is the parsed payload when the checksum tells payloads apart. |
| ServiceProperties.AddDistinctPayloadsDistinctIds | src/main/java/org/cbioportal/session_service/service/internal/SessionServiceImpl.java:69-90 | Two successful adds whose payloads differ in checksum return different ids. |
| ServiceProperties.CreateNewRejectsDuplicate | src/main/java/org/cbioportal/session_service/service/internal/SessionServiceImpl.java:98-120 | A valid create that clashes on id or on source, type and checksum raises SessionAlreadyExists and leaves the store unchanged. It never returns the existing session. |
| ServiceProperties.CreateNewCreates | src/main/java/org/cbioportal/session_service/service/internal/SessionServiceImpl.java:107-118 | A valid session that clashes with no stored row on id or on source, type and checksum is created. It is appended with the parsed data, under the caller's id when given. |
| ServiceProperties.AddThenCreateNewFails | src/main/java/org/cbioportal/session_service/service/internal/SessionServiceImpl.java:98-120 | After a successful addSession, createNewSession with the same source, type and payload raises SessionAlreadyExists. |
| ServiceProperties.UpdateReplacesOnlyData | src/main/java/org/cbioportal/session_service/service/internal/SessionServiceImpl.java:155-159 | A successful update keeps id, source and type and replaces data with the parsed payload. The session reads back so, and every other row of the collection is kept. |
| ServiceProperties.UpdateSucceeds | src/main/java/org/cbioportal/session_service/service/internal/SessionServiceImpl.java:153-165 | Updating a stored session with a payload that parses, passes validation and collides with no other id succeeds. |
| ServiceProperties.UpdateOfMissingSession | src/main/java/org/cbioportal/session_service/service/internal/SessionServiceImpl.java:155-167 | Updating an absent session raises SessionNotFound and changes nothing. |
| ServiceProperties.RemoveSucceedsIffStored | src/main/java/org/cbioportal/session_service/service/internal/SessionServiceImpl.java:171-176 | In a well-formed store, deleteSession succeeds iff the session is stored, and it removes at most one row. |
| ServiceProperties.RemoveThenGet | src/main/java/org/cbioportal/session_service/service/internal/SessionServiceImpl.java:171-176 | After deleteSession the session no longer reads back: getSession raises SessionNotFound. |

## Left out

- The HTTP layer (`SessionServiceController.java`, `InfoController.java`), Swagger configuration and the Express prototype `server.js` are not part of this model. They hold routing and response shaping only.
- `JSON.parse`, the checksum and Mongo's query engine are library code. They are parameters of the model. Whether equivalent JSON texts get equal checksums is a property of that library, so it is not proved here.
- `HttpMessageNotReadableException` in `addSession` is folded into the parse failure.
- Concurrency: the unique-index check and the write are one atomic step, so races between service instances are not modelled.
- `buildConstraintViolationExceptionMessage` and `Session.toString` build message strings only. Errors carry their kind, not their message.
- The getters are plain field reads. They are observed through `Session.Value()`, not modelled as separate methods.
- The format of the ids the store generates (Mongo ObjectIds) is abstracted as `FreshId`: some string not already used in the collection.
- Store failures (`StoreUnavailable`) are not modelled.
- Repository.Save: requires a non-null type. The source would pass a null collection name to the store, which the service never does, because it always sets a type.
- Repository.Insert: requires a non-null type, for the same reason as `Save`.
- Repository.SessionRepository.SaveSession: requires a session with a non-null type, as `Save` does.
- Repository.SessionRepository.InsertSession: requires a session with a non-null type, as `Insert` does.
- Service.Add: on an error it states the store after provisioning, not an unchanged store, because the source provisions before it validates. `ServiceProperties.AddRejectsInvalid` states that no stored row changes.
- The type enumeration `SessionType` the service uses is modelled as a string checked by the `@Pattern` on `Session.type`. The enumeration's other values are not part of this model.
- Service.SessionService.GetSessionsByQuery: a query that compiles but fails when Mongo runs it (`UncategorizedMongoDbException`) is folded into `compileQuery` returning `None`.
