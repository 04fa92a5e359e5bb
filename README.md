# ultra-chat-backend: login handshake, bearer check and summary ownership

This project models the core of the ultra-chat-backend service in Dafny:

- the OAuth2 authorization-code login against Discord: the login URL, the callback that exchanges the code, fetches the profile and upserts the user, and the profile endpoint;
- the bearer-token check of the `is_authenticated` endpoint;
- the summary handlers, which create, list, update and delete summaries;
- the two MongoDB repositories behind them. One is the `summaries` collection plus its user-existence check. The other is the `users` collection with its embedded summaries.

Modules, one file each:

| file | module | what it holds |
|---|---|---|
| `common.dfy` | `Common` | `Option`, `Result`, store errors, JSON values of a decoded payload, `RequiredString` (a `.(string)` assertion plus the non-empty check), `FirstIndex` (the document a single-document MongoDB call picks) |
| `provider.dfy` | `Provider` | provider replies and calls. The token exchange and the profile fetch are oracles, functions from their string argument to a reply. |
| `http.dfy` | `Http` | status codes, response bodies, and the reply of echo's Recover middleware to a panic |
| `summary_repository.dfy` | `SummaryRepository` | the summaries collection as a sequence. `Select`, `Updated` and `Deleted` are the specification functions of Find, UpdateOne and DeleteOne. The class `SummaryStore` makes the repository calls. |
| `user_repository.dfy` | `UserRepository` | the users collection as a sequence, with the specification functions of the `$set`, `$push` and `$pull` updates, and the class `UserStore` |
| `summary_handler.dfy` | `SummaryHandler` | the `SummaryHandler` class (create, list, update, delete) and the `IsAuthenticated` bearer check |
| `auth_handler.dfy` | `AuthHandler` | `Login` and its URL, the `Profile` endpoint, and the callback. The callback is split into `Handshake`, the checks before any write, and the `AuthHandler.Callback` method, which performs the write. |

The stores are classes with a `seq` field per collection. A ghost `history` field logs every store call, so a contract can say that a handler made no call or exactly which calls it made. Each store method takes a `fails` flag: when set, the MongoDB driver reports an error. Handler methods are proved against the specification functions. The lemmas prove the following properties of those functions:
- ownership isolation;
- that a caller cannot reach a summary owned by someone else;
- a create-list-update-list-delete-list round trip;
- push-then-read and push-then-pull round trips on embedded summaries;
- that a login upserts exactly one document per provider id;
- that, in the model, where the repository's index set-up is left out, a discarded lookup error can create a duplicate user.

Behaviour of the code that the model keeps as written:
- Update and delete reporting no match answer 500 "Failed to update/delete summary", not a not-found error.
- The acting user of list, update and delete is the caller-supplied `ID` header. The owner of a created summary is the body's `user_id`. Neither is derived from the bearer token.
- `CheckUserExists` looks users up by their `id` field. No index is keyed on `id`: the unique index the repository constructor creates is on `user_id`, a field user documents lack. Its side effect on user inserts is left out (see "## Left out"), so in the model only the callback's find-then-create keeps provider ids unique.
- `UpdateSummary` needs `summary_id` to be present but does not use it. `DeleteSummary` does not check it at all.

## Model

| member | source | states |
|---|---|---|
| Common.RequiredString | handlers/auth_handler.go:45-48 | a value is produced exactly when the key holds a non-empty JSON string, and it is that string |
| Common.FirstIndex | repositories/user_repository.go:38 | the single document FindOne, UpdateOne and DeleteOne pick: none iff no element satisfies the filter, otherwise an element that does with none before it |
| SummaryRepository.NewRecord | repositories/summary_repository.go:51-59 | the inserted document carries all the given fields (summary id, user id, server id, privacy, content), and `updated_at` equals `created_at` |
| SummaryRepository.ByOwner | handlers/summary_handler.go:68 | the list filter matches a document iff its user_id is the given id |
| SummaryRepository.UpdateFilter | repositories/summary_repository.go:90 | the update filter matches a document iff its user_id, server_id and is_private are the given ones |
| SummaryRepository.DeleteFilter | repositories/summary_repository.go:112-115 | the delete filter matches a document iff its user_id and summary_id are the given ones |
| SummaryRepository.Select | repositories/summary_repository.go:68-83 | Find returns no more documents than the collection holds, and only documents matching the filter |
| SummaryRepository.SelectMembership | repositories/summary_repository.go:68-83 | a document is in the Find result iff it is in the collection and matches the filter |
| SummaryRepository.SelectConcat | repositories/summary_repository.go:68-83 | Find keeps collection order: on a concatenation it returns the concatenation of the two results |
| SummaryRepository.Updated | repositories/summary_repository.go:86-106 | no match iff no document matches (user_id, server_id, is_private); otherwise exactly one matching document gets the new summary and updated_at, the length is kept, and other users' documents are untouched |
| SummaryRepository.Deleted | repositories/summary_repository.go:108-126 | no match iff no document matches (user_id, summary_id); otherwise exactly one matching document is removed and the others keep their order |
| SummaryRepository.SummaryStore.AddSummary | repositories/summary_repository.go:47-65 | one InsertOne call; on success the new document is appended, and on a driver error the collection is unchanged |
| SummaryRepository.SummaryStore.GetSummaries | repositories/summary_repository.go:68-83 | the cursor loop returns exactly `Select` of the collection, and nothing is written |
| SummaryRepository.SummaryStore.UpdateSummary | repositories/summary_repository.go:86-106 | a driver error and no match are errors that leave the collection unchanged; otherwise the collection becomes `Updated` |
| SummaryRepository.SummaryStore.DeleteSummary | repositories/summary_repository.go:108-126 | a driver error and zero deleted are errors that leave the collection unchanged; otherwise the collection becomes `Deleted` |
| SummaryRepository.SummaryStore.CheckUserExists | repositories/summary_repository.go:128-139 | a missing user is (false, no error); only a driver failure is an error; found iff the id is in the users collection |
| SummaryRepository.UpdateKeepsOtherOwners | repositories/summary_repository.go:86-106 | another owner's listing is identical before and after an update |
| SummaryRepository.DeleteKeepsOtherOwners | repositories/summary_repository.go:108-126 | another owner's listing is identical, in order, before and after a delete |
| SummaryRepository.ForeignSummariesUnreachable | repositories/summary_repository.go:86-126 | a delete reports no match when every document with that summary id belongs to someone else; an update reports no match when the caller owns no document, whatever server and privacy it names |
| SummaryRepository.UpdateOnlyOwned | repositories/summary_repository.go:86-106 | when the caller owns only the last document, a matching update edits exactly that document |
| SummaryRepository.DeleteOnlyOwned | repositories/summary_repository.go:108-126 | when the caller owns only the last document, deleting it by id leaves the earlier documents |
| SummaryRepository.CrudRoundTrip | repositories/summary_repository.go:47-126 | for a new owner: the listing after create is exactly the created document; update then changes its content; the listing after delete is empty and the collection is as before |
| UserRepository.FirstWithId | repositories/user_repository.go:33-43 | the document `{"id": id}` picks is the first with that id, and there is none iff no document has it |
| UserRepository.Lookup | repositories/user_repository.go:33-43 | FindOne returns the first document with the id, or nothing iff there is none |
| UserRepository.SetFields | repositories/user_repository.go:53-59 | `$set` overwrites exactly the given fields of the first matching user; ids, uuids, summaries and all other users are unchanged |
| UserRepository.Pushed | repositories/user_repository.go:61-67 | `$push` appends the summary to the first matching user's list and changes nothing else |
| UserRepository.ContentSetIn | repositories/user_repository.go:87-88 | the positional `$set`: when the array holds the id, the result is the array with the first element of that id given the new content; ids and length are kept, and an array without the id is unchanged |
| UserRepository.HoldsSummary | repositories/user_repository.go:87 | the filter {"id", "summaries.id"} matches a user iff it has the id and some embedded summary carries the summary id; that only the first such user's list changes is proved in `ContentSet` |
| UserRepository.ContentSet | repositories/user_repository.go:83-92 | UpdateOne edits only the first user with the id that holds such a summary, replacing its list by `ContentSetIn` of it; when no user qualifies nothing changes |
| UserRepository.SetContentThenRead | repositories/user_repository.go:69-92 | after UpdateSummary of a summary the user holds, GetSummaries returns `ContentSetIn` of the old list |
| UserRepository.ContentSetInReadsBack | repositories/user_repository.go:87-88 | after the positional `$set`, the first element with the id carries the new content |
| UserRepository.Pulled | repositories/user_repository.go:94-103 | after `$pull` no element has the id, and an array without it is unchanged |
| UserRepository.PulledMembers | repositories/user_repository.go:94-103 | an element survives `$pull` iff it was there and has another id |
| UserRepository.PulledConcat | repositories/user_repository.go:94-103 | `$pull` keeps order: pulling from a concatenation is the concatenation of the pulls |
| UserRepository.PulledFrom | repositories/user_repository.go:94-103 | only the first user with the id has elements pulled |
| UserRepository.UserStore.FindUserByID | repositories/user_repository.go:33-43 | a driver error, not found, or the first document with the id |
| UserRepository.UserStore.CreateUser | repositories/user_repository.go:45-51 | InsertOne appends the user with no id check; on a driver error the collection is unchanged |
| UserRepository.UserStore.UpdateUser | repositories/user_repository.go:53-59 | on success the collection becomes `SetFields`; a miss is not an error |
| UserRepository.UserStore.AddSummary | repositories/user_repository.go:61-67 | on success the collection becomes `Pushed` |
| UserRepository.UserStore.GetSummaries | repositories/user_repository.go:69-81 | the first matching user's summaries, not found, or a driver error |
| UserRepository.UserStore.UpdateSummary | repositories/user_repository.go:83-92 | on success the collection becomes `ContentSet` |
| UserRepository.UserStore.DeleteSummary | repositories/user_repository.go:94-103 | on success the collection becomes `PulledFrom` |
| UserRepository.UserStore.IsAuthenticated | repositories/user_repository.go:105-111 | true iff there is no driver error and some user has the id |
| UserRepository.CountId | repositories/user_repository.go:109 | CountDocuments never counts more documents than the collection holds; `CountIdPositive` characterises it |
| UserRepository.CountIdPositive | repositories/user_repository.go:105-111 | CountDocuments is positive iff some document has the id |
| UserRepository.CountIdAppend | repositories/user_repository.go:45-51 | an insert adds one to the count of the inserted id and leaves other counts alone |
| UserRepository.SetFieldsKeepsCounts | repositories/user_repository.go:53-59 | UpdateUser never changes how many documents carry an id |
| UserRepository.PushThenRead | repositories/user_repository.go:61-81 | after AddSummary, GetSummaries returns the old list with the new summary at the end |
| UserRepository.PullUndoesPush | repositories/user_repository.go:61-67 | `$pull` by a fresh id undoes the `$push` of a summary with that id |
| UserRepository.PushThenPull | repositories/user_repository.go:61-103 | AddSummary then DeleteSummary with an unused summary id restores the collection |
| SummaryHandler.BearerToken | handlers/summary_handler.go:135-140 | a token is extracted iff the header is longer than "Bearer " and starts with it exactly; the token is non-empty and the header is the prefix followed by it |
| SummaryHandler.MissingCreateField | handlers/summary_handler.go:35 | the guard holds iff one of content, server_id and user_id is empty; that such a request gets 400 with no store call is proved in `CreateSummary`'s contract |
| SummaryHandler.MissingUpdateField | handlers/summary_handler.go:95 | an update request is refused iff summary_id or server_id is empty; empty content is accepted |
| SummaryHandler.BearerTokenRoundTrip | handlers/summary_handler.go:135-140 | extracting from "Bearer " + t gives back t for every non-empty t |
| SummaryHandler.IsAuthenticated | handlers/summary_handler.go:128-159 | the status is 200 or 401; a malformed header makes no provider call; the request is authenticated iff the header is well formed, the provider accepts the token and the profile has a non-empty string id, and the user id is that id |
| SummaryHandler.MalformedHeadersRejected | handlers/summary_handler.go:128-140 | "", "Token xyz" and "Bearer " get 401 with no provider call, whatever the provider would say |
| SummaryHandler.AcceptedTokenAuthenticates | handlers/summary_handler.go:128-159 | "Bearer t", with a provider that accepts t, authenticates as the profile's id after exactly one provider call |
| SummaryHandler.SummaryHandler.CreateSummary | handlers/summary_handler.go:22-60 | a bad body or a missing field gets 400 with no store call; otherwise the store gets exactly a user lookup, then an insert only for an existing user; each failure maps to its status and message; 201 carries the new id |
| SummaryHandler.SummaryHandler.GetSummaries | handlers/summary_handler.go:62-75 | without the ID header, 401 and no store call; otherwise one Find, and on 200 every listed summary belongs to the header's user |
| SummaryHandler.SummaryHandler.UpdateSummary | handlers/summary_handler.go:77-105 | the 400, 401 and 400 rejections in the source's order, each with no store call; otherwise one UpdateOne keyed by the header, and 500 on a driver error or no match |
| SummaryHandler.SummaryHandler.DeleteSummary | handlers/summary_handler.go:107-126 | the 400 and 401 rejections with no store call; otherwise one DeleteOne keyed by the header, and 500 on a driver error or no match |
| AuthHandler.Login | handlers/auth_handler.go:23-32 | 200 with a `url` that is the authorize endpoint, '?', and `AuthorizeQuery` of the three settings |
| AuthHandler.AuthorizeQuery | handlers/auth_handler.go:28 | the query is four parameters joined by '&': client_id, redirect_uri, response_type=code and scope, with the inputs spliced in verbatim |
| AuthHandler.Split | handlers/auth_handler.go:28 | the reference parse of the query a receiver applies (cutting at '&'), used to state properties of the line-28 URL: one more piece than there are separators |
| AuthHandler.AuthorizeUrlParameters | handlers/auth_handler.go:23-32 | when no input holds '&', the login URL's query is exactly client_id, redirect_uri, response_type=code and scope, carrying the inputs verbatim (there is no state) |
| AuthHandler.AuthorizeUrlParameterCount | handlers/auth_handler.go:28 | nothing is escaped: the query has 4 parameters plus one per '&' in the inputs |
| AuthHandler.AmpersandInClientIdAddsParameter | handlers/auth_handler.go:28 | a client id "a&b" injects b as a parameter of its own |
| AuthHandler.StripBearer | handlers/auth_handler.go:96-99 | the profile endpoint strips the prefix exactly when the bearer check would extract a token, and forwards any other header unchanged |
| AuthHandler.Profile | handlers/auth_handler.go:88-109 | an empty header gets 401 with no call; otherwise one profile fetch with the stripped token; 200 iff the provider accepts it, and then the body is the profile |
| AuthHandler.ProfileForwardsMalformedHeaders | handlers/auth_handler.go:88-109 | "Token xyz" and "Bearer " reach the provider from the profile endpoint, though the bearer check refuses both |
| AuthHandler.Handshake | handlers/auth_handler.go:35-58 | no code gets 400 with no calls; a failed exchange or a missing or empty access token gets 500 after the exchange call alone, before any profile fetch; every later failure is 500, and a rejection after two calls fetched the profile with the exchanged access token; an established login has a non-empty access token and user id from the provider's replies, after exactly the exchange and the profile fetch; a successful handshake always establishes |
| AuthHandler.LoginUpdate | handlers/auth_handler.go:64-68 | applied to any user, the `$set` of a returning login gives it the new token bundle and the profile's username and discriminator, and keeps its id, uuid and summaries |
| AuthHandler.NewLoginUser | handlers/auth_handler.go:73-79 | a first-login document exists iff username and discriminator are strings; it carries the provider id, the fresh uuid, the tokens and no summaries |
| AuthHandler.Upserted | handlers/auth_handler.go:61-83 | the write fails to happen (a panic) iff the user is new and the profile lacks string username or discriminator |
| AuthHandler.LookupSetFields | handlers/auth_handler.go:63-71 | after the update, the user's lookup is the old document with the new fields |
| AuthHandler.LookupAppendNew | handlers/auth_handler.go:72-83 | after the insert of a new id, its lookup is the inserted document |
| AuthHandler.UpsertOutcome | handlers/auth_handler.go:60-83 | after a login the user has the new tokens, username and discriminator; a returning user keeps their uuid and a new user gets the fresh one; no id gains a second document; the collection grows by exactly one document for a new user and not at all for a returning one; no other user changes |
| AuthHandler.SecondLoginKeepsOneRecord | handlers/auth_handler.go:60-83 | two logins of one provider id leave one document, with the first login's uuid and the second's tokens and profile fields |
| AuthHandler.UpsertKeepsIdsUnique | handlers/auth_handler.go:60-83 | a login keeps provider ids unique |
| AuthHandler.BlindInsertDuplicates | handlers/auth_handler.go:61-83 | in the model, where the repository's index set-up is left out, when the discarded lookup error sends a returning user to the create path, the insert leaves two documents with that id |
| AuthHandler.AuthHandler.Callback | handlers/auth_handler.go:34-86 | rejections make no store call; otherwise one lookup, then an update of a found user or an insert of a new one, or a panic reply; a lookup error counts as not found; 500 on a write error; 200 exactly when the write happened, and then, unless the lookup failed, the collection is `Upserted`; after a failed lookup it is the old collection plus the new user |

## Left out

- Server wiring, configuration and connection set-up are not part of this model. `CLIENT_ID`, `REDIRECT_URI` and `SCOPE` are parameters of `Login`.
- The provider helpers in utils are not part of this model. The code exchange and the profile fetch are oracles, and a failure carries its error text.
- `uuid.New()` and `time.Now()` are inputs of the handlers (`summaryId`, `freshUuid`, `now`).
- The repository constructor's index creation is left out, because it is database set-up. It builds a unique index on `user_id` in users and an index on (user_id, server_id) in summaries. Under MongoDB's rules for unique indexes, a document without the field counts as null. User documents carry no `user_id`, so such an index would also refuse every user insert after the first. `UserRepository.UserStore.CreateUser` does not capture that.
- JSON binding is left out. A body that fails to bind is `None`, and a bound body is the request record.
- `SummaryRepository.SummaryStore.UpdateSummary`: `updated_at` is a string supplied by the caller, where the source writes `time.Now()` as a BSON date. The model therefore does not state that `updated_at` is later than `created_at`.
- A driver error is an all-or-nothing flag. A write that reports an error after applying, and the error's text (`StoreFault`), are not modelled.
- The encoding of responses is left out. An empty listing is written as JSON `null` rather than `[]`, and the model does not capture this.
- `UserRepository.UserStore.UpdateUser` models only the `token`, `username` and `discriminator` keys of `$set`, the only ones any caller sends.
- `UserRepository.UserStore.FindUserByID` does not model a decode error on a document whose username or discriminator was set to a non-string.
- `SummaryStore.userIds` stands for the `id` field of the users collection, as seen by `CheckUserExists`. It is not the same object as `UserStore.users`, so the two stores are not linked.
- Concurrency between requests and the deadline contexts are not modelled. Each store call is one atomic step.
- Logging (`fmt.Println` of the authorization header) is left out.
