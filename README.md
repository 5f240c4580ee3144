# Space drivers: travel updates, users and access control, in Dafny

This project models the core of a small HTTP service (written in Go) that
manages *travels*: trips that move through a fixed lifecycle
(`pending` → `in_process` → `ready`) and are assigned to driver users. The
heart of the model is the **travel update rule set**. It is an ordered sequence of
guard checks that decides whether a proposed edit of a stored travel is
accepted and, if not, which single error is reported. Around it sit these parts:

- the travel storage service (create, fetch, update over a repository);
- the user service (create with password encryption and role check, fetch,
  login, driver search with pagination metadata);
- the `code - detail` error value shared by every layer;
- the HTTP layer's decisions:
  - the error-to-status tables;
  - the validation-error description;
  - the driver search's query parameters;
  - the guard sequences of the travel endpoints;
  - the role-rule table with the authorization step;
  - the Authorization header check.

Modules, one per source unit:

| module | file | models |
|---|---|---|
| `Wrappers` | wrappers.dfy | `Option` and `Result` |
| `CodeError` | code_error.dfy | `internal/platform/code_error/code_error.go` |
| `Numeric` | numeric.dfy | int64 wrap-around and `strconv.ParseInt(s, 10, 64)` |
| `Identity` | identity.dfy | the two roles and the token claims |
| `Travel` | travel.dfy | `internal/travel/travel.go` |
| `User` | user.dfy | `internal/user/user.go` |
| `UserHandlers` | user_handlers.dfy | `cmd/api/handlers/users.go` |
| `AuthHandlers` | auth_handlers.dfy | `cmd/api/handlers/auth.go` |
| `TravelHandlers` | travel_handlers.dfy | `cmd/api/handlers/travel.go` |

Modelling choices:

- Repositories are maps held in the storage classes (`TravelStorage.travels`,
  `UserStorage.users`). Each repository call takes a `Fault` parameter, which
  is either `Healthy` or a failure (`NotFound` or `Broken`).
- Encryption is a pair of functions passed to the `UserStorage` constructor.
- The HTTP handlers are pure functions or read-only methods. The storage calls
  they make are function parameters, and each response is a `Response` value:
  either a status with a body, or a status with an API error.
- The update rule set is stated twice. `Travel.Validate` is the ordered gate
  sequence. `Travel.Acceptable` lists the rules in no particular order.
  `Validate`'s contract ties the two together, naming which error each
  failing rule produces.
- `TravelStorage.CheckAndWrite` performs the gates imperatively, including the
  `findInSlice` loop. It is proved equal to `Validate` followed by the write.
- An ownership check runs before the gates: a missing identity is rejected
  first, then a caller who is neither the travel's user nor an admin. It is
  `Travel.ValidateAs` and `TravelStorage.UpdateAs`. The gates of
  `internal/travel/travel.go` are kept exactly as written. The ownership
  check is what the handler tests and error table expect, and it is stated
  separately.
- The rule table uses the singular route patterns of
  `cmd/api/handlers/auth.go`. The router registers plural paths
  (`cmd/api/main.go:76-82`). The two are modelled as written and not
  reconciled.

A non-admin owner may reassign their own travel. Only the gates of
`internal/travel/travel.go` decide that edit, and no owner-reassignment gate
is modelled, because the code has none.

## Model

| member | source | states |
|---|---|---|
| CodeError.Format | internal/platform/code_error/code_error.go:10-12 | "left - right" has the two parts at its ends and the separator right after the left part |
| CodeError.Error.Render | internal/platform/code_error/code_error.go:10-12 | the rendering's length is code, separator and detail together |
| CodeError.Error.GetCode | internal/platform/code_error/code_error.go:14-16 | the code is the rendering's text in front of the separator that is followed by exactly the detail |
| CodeError.Error.GetDetail | internal/platform/code_error/code_error.go:18-20 | the detail is the rendering's text after the separator that follows the code |
| CodeError.FindSeparator | internal/platform/code_error/code_error.go:10-12 | finds the first " - " at or after a position, or reports there is none |
| CodeError.Parse | internal/platform/code_error/code_error.go:10-12 | an error read back from a text renders to that text |
| CodeError.RenderRoundTrip | internal/platform/code_error/code_error.go:10-12 | an error whose code has no dash is read back from its rendering |
| CodeError.RenderNotInjectiveWithDashes | internal/platform/code_error/code_error.go:10-12 | with a dash in the code, two distinct errors render alike |
| CodeError.RenderInjective | internal/platform/code_error/code_error.go:5-12 | errors with dash-free codes that render alike are the same (code, detail) key |
| Numeric.Wrap64 | internal/user/user.go:204 | int64 subtraction: the result is in range, congruent to the exact value, and exact when that is in range |
| Numeric.DigitValue | cmd/api/handlers/users.go:81 | a decimal digit's value is below ten |
| Numeric.DigitChar | cmd/api/handlers/users.go:81 | the digit character of a value below ten reads back as that value |
| Numeric.ParseInt64 | cmd/api/handlers/users.go:81 | base-10 int64 parsing succeeds exactly for an optional sign then one or more digits whose value fits in int64, and answers that value |
| Numeric.Decimal | cmd/api/handlers/travel.go:68 | the shortest decimal spelling of a natural number: a non-empty run of digits with no leading zero, "0" exactly for zero |
| Numeric.FormatInt | cmd/api/handlers/travel.go:68 | the reference spelling of a path id, the inverse of the id parse: a well-formed signed decimal whose value is the number, with a minus sign exactly for negatives |
| Numeric.DecimalValueOfDecimal | cmd/api/handlers/travel.go:68 | the value of a number's decimal spelling is the number |
| Numeric.FormatParseRoundTrip | cmd/api/handlers/travel.go:68 | every int64 written in decimal parses back to itself |
| Travel.IndexOf | internal/travel/travel.go:148-155 | the first position of a status, or -1 exactly when it does not occur |
| Travel.FindInSlice | internal/travel/travel.go:148-155 | the search loop answers exactly the first position, or -1 |
| Travel.TaskFlowIndices | internal/travel/travel.go:17 | pending, in_process and ready sit at 0, 1 and 2 of the lifecycle |
| Travel.UnknownStatusIndex | internal/travel/travel.go:148-155 | a status outside the lifecycle is at -1 |
| Travel.StepAllowedIsLegalMove | internal/travel/travel.go:125-133 | "same index or next index" admits exactly stay, pending→in_process, in_process→ready, and an unlisted status→pending |
| Travel.StorageErrorsDistinct | internal/travel/travel.go:37-39 | the three storage errors share a code but are three distinct errors |
| Travel.Validate | internal/travel/travel.go:98-138 | accepted iff every rule holds, with the proposal (under the stored id) as result, which is well-formed; each error iff its rule is the first broken one |
| Travel.ValidateAs | cmd/api/handlers/travel_test.go:907-949 | accepted iff an identity is present, the caller owns the travel or is admin, and every rule holds; no identity is the claims error, a caller neither owner nor admin the access error, and an owner or admin gets exactly the rule set's verdict |
| Travel.LocationRuleComesFirst | internal/travel/travel.go:98-102 | a location change outside pending fails on the location rule whatever else is wrong |
| Travel.UnknownStatusRejected | internal/travel/travel.go:104-107 | a proposed status outside the lifecycle is an invalid status |
| Travel.SkipAndRegressionRejected | internal/travel/travel.go:125-133 | pending→ready, in_process→pending and leaving ready are invalid statuses |
| Travel.UnlistedStatusOnlyToPending | internal/travel/travel.go:125-155 | a stored status outside the lifecycle can only be moved to pending |
| Travel.MissingUserRejected | internal/travel/travel.go:109-117 | being or going out of pending without a user is an invalid user |
| Travel.ReassignmentOutsidePendingRejected | internal/travel/travel.go:119-123 | replacing an assigned user outside pending is an invalid user |
| Travel.NoOpUpdateAccepted | internal/travel/travel.go:98-138 | an owner or admin proposing the stored well-formed travel gets it back unchanged |
| Travel.NonOwnerRejected | cmd/api/handlers/travel_test.go:627-649 | a caller neither owner nor admin is refused any edit, self-assignment included |
| Travel.AdminReassignsPending | cmd/api/handlers/travel_test.go:591-625 | an admin may hand a pending travel to another user while it stays pending |
| Travel.ForwardStepAccepted | internal/travel/travel.go:128-133 | an assigned travel may advance pending→in_process and in_process→ready |
| Travel.Lookup | internal/travel/travel.go:68-78 | a fetch answers the stored record, not-found for a missing one, a storage error for any other failure |
| Travel.Commit | internal/travel/travel.go:140-145 | an accepted travel is answered only when written; a failed write is the update storage error; a rejection passes unchanged |
| Travel.FetchErrorPropagates | internal/travel/travel.go:93-96 | a failed fetch is the update's answer and nothing is written |
| Travel.AcceptedUpdateIsProposal | internal/travel/travel.go:135-145 | an accepted update writes and answers exactly the proposal, and the stored travel satisfied every rule |
| Travel.UpdateAsWrittenKeepsRecordsWellFormed | internal/travel/travel.go:92-146 | the update as written keeps every record under its own id and well-formed |
| Travel.UpdateKeepsRecordsWellFormed | internal/travel/travel.go:92-146 | updates with the ownership check keep every record under its own id and well-formed |
| Travel.Saved | internal/travel/travel.go:81-89 | a saved travel is pending under its new id, with locations and user as given |
| Travel.TravelStorage.constructor | internal/travel/travel.go:59-65 | a service over an empty repository |
| Travel.TravelStorage.Get | internal/travel/travel.go:68-78 | the fetch answers `Lookup` of the repository |
| Travel.TravelStorage.Save | internal/travel/travel.go:81-89 | success iff the write succeeds; the record stored is the input as pending under a fresh id; a failure stores nothing and is the save error |
| Travel.TravelStorage.CheckAndWrite | internal/travel/travel.go:98-146 | the imperative gates answer `Validate` followed by the write, and only an accepted travel is written |
| Travel.TravelStorage.Update | internal/travel/travel.go:92-146 | the fetch then the gates; the repository afterwards holds the accepted travel and nothing else changed |
| Travel.TravelStorage.UpdateAs | cmd/api/handlers/travel_test.go:907-949 | the fetch, the ownership check, then the gates; the repository afterwards holds only an accepted travel |
| User.LastEncrypterWins | internal/user/user.go:26-66 | with no option bcrypt stays; otherwise the last encrypter option wins |
| User.LookupError | internal/user/user.go:69-77 | a missing user is not-found and any other repository failure is the get storage error |
| User.UserStorage.constructor | internal/user/user.go:55-66 | the configured encrypter is bcrypt with the options applied in order |
| User.UserStorage.Get | internal/user/user.go:69-84 | a stored user is answered without its password; failures map to not-found or the get storage error |
| User.UserStorage.Save | internal/user/user.go:89-114 | encryption failure first, then a bad role, then the write; the repository gets the encrypted password; only id, email and role are answered; a failure stores nothing |
| User.UserStorage.Login | internal/user/user.go:118-132 | not-found iff no user has the email, storage error iff the lookup breaks, and claims only for a user whose stored password matches |
| User.UserStorage.Search | internal/user/user.go:183-229 | defaults then options in order; a listing reports the repository total and the clamped remainder, a free search its count and 0; the answer is the users without passwords, in order; a failure answers nothing |
| User.SearchOptionsLastWins | internal/user/user.go:157-194 | each search parameter is set by the last option for it, or keeps its default |
| User.Pending | internal/user/user.go:204-207 | never negative, and max(0, total − limit − offset) when the int64 arithmetic does not wrap |
| User.PendingExamples | internal/user/user_test.go:442-498 | limit 2 of 3 leaves 1; limit 1 and offset 1 of 3 leave 1; the default limit leaves 0 |
| User.PendingWrapsForHugeNegativeLimit | internal/user/user.go:204-207 | a limit of −(2^63−1) wraps the subtraction, so nothing is reported pending although the exact remainder is positive |
| UserHandlers.ApiError.Render | cmd/api/handlers/users.go:143-145 | "code - description", which reads back as the same pair when the code has no dash |
| UserHandlers.MapErrorWith | cmd/api/handlers/users.go:149-172 | a listed coded error keeps its code and reads as the error itself under the listed status; anything else is a 500 "error" with the error's text |
| UserHandlers.MapUserErrorStatuses | cmd/api/handlers/users.go:150-156 | password and role errors are 400, storage errors 500, not-found 404, and a login error is outside the table |
| UserHandlers.CollectFieldNames | cmd/api/handlers/users.go:179-182 | the loop builds exactly the list of failing fields' names, in the validator's order, that the description joins |
| UserHandlers.Split | cmd/api/handlers/users.go:185 | splitting gives at least one piece |
| UserHandlers.ToLower | cmd/api/handlers/users.go:185 | lower-casing keeps the length |
| UserHandlers.MapValidateError | cmd/api/handlers/users.go:176-193 | always code "invalid_request"; a validation error's description starts with the field-list prefix; any other error gets the generic description |
| UserHandlers.SplitWithoutSeparator | cmd/api/handlers/users.go:185 | a text without the separator splits into itself |
| UserHandlers.SplitAtFirstSeparator | cmd/api/handlers/users.go:185 | a separator after a separator-free prefix splits there |
| UserHandlers.SplitJoinRoundTrip | cmd/api/handlers/users.go:185 | joining parts that hold no separator and splitting gives the parts back |
| UserHandlers.ToLowerJoin | cmd/api/handlers/users.go:185 | lower-casing a join is joining the lower-cased parts |
| UserHandlers.ValidateErrorFieldsRecoverable | cmd/api/handlers/users.go:176-187 | the description's field list splits back into the failing fields' names, lower-cased, in order |
| UserHandlers.ValidateErrorExample | cmd/api/handlers/travel_test.go:798-810 | fields Lat and Lng failing give "there was an error with fields: lat,lng" |
| UserHandlers.DriverSearchOptions | cmd/api/handlers/users.go:55-103 | checks status, conflict, limit, offset in that order; accepted iff all pass; one option per parameter present, together configuring exactly the requested search |
| UserHandlers.ApplyOneMore | internal/user/user.go:192-194 | one more option applies on top of the ones before |
| UserHandlers.RequestedSearchExamples | cmd/api/handlers/users.go:55-103 | no parameters ask for the default search; "free" the free drivers; limit "0" and "a" are invalid while a negative limit and offset "0" are accepted |
| UserHandlers.GetDrivers | cmd/api/handlers/users.go:50-117 | a bad parameter is a 400 with the error of the first failing check (status, conflict, limit, offset); otherwise the requested search runs and its failure is mapped through the user table, its success is a 200 with its users and metadata |
| AuthHandlers.MapAuthErrorStatuses | cmd/api/handlers/auth.go:54-75 | not-found 404, wrong password 400, storage get 500; a save error falls through to 500 "error" |
| AuthHandlers.Login | cmd/api/handlers/auth.go:24-52 | an unbound body is a 422; a missing user 404; a broken lookup 500; a stored user whose password does not match is a 400 "invalid_password"; a matching password is a 200, and a 200 only answers the claims of a stored user whose password matches |
| AuthHandlers.BearerToken | cmd/api/handlers/auth.go:81-90 | an empty header is rejected as missing; the token is the header minus its first seven characters, unchecked; a shorter non-empty header panics |
| AuthHandlers.ShortHeaderPanics | cmd/api/handlers/auth.go:90 | the header "abc" panics |
| AuthHandlers.SchemeNotChecked | cmd/api/handlers/auth.go:90 | "Token abcdef" yields the token "bcdef": the scheme is never checked |
| AuthHandlers.BearerTokenChecked | cmd/api/handlers/auth.go:81-90 | with the slice guarded, no header panics; empty is missing; a long enough header yields the same token |
| AuthHandlers.CheckedAgreesUnlessPanic | cmd/api/handlers/auth.go:81-90 | the guarded check differs from the written one only where that one panics, and there it is a 401 |
| AuthHandlers.Rules.constructor | cmd/api/handlers/auth.go:146 | an empty table |
| AuthHandlers.Rules.AddRule | cmd/api/handlers/auth.go:161-170 | the table afterwards is the old one with the missing entries created and the role appended |
| AuthHandlers.Rules.CanAccess | cmd/api/handlers/auth.go:172-189 | true exactly when the method and path have an entry whose role list holds the role |
| AuthHandlers.WithRuleAllows | cmd/api/handlers/auth.go:161-189 | after adding a rule, a triple is allowed iff it was before or it is the rule's |
| AuthHandlers.WithRuleAppendsOnly | cmd/api/handlers/auth.go:161-170 | every other (method, path) entry is unchanged and the rule's own entry only grows by the role |
| AuthHandlers.TableOfAllows | cmd/api/handlers/auth.go:161-189 | a table built from rules allows exactly the listed triples |
| AuthHandlers.TableOfAppend | cmd/api/handlers/auth.go:161-170 | adding one more rule is adding it to the table built so far |
| AuthHandlers.NewRoleControl | cmd/api/handlers/auth.go:145-159 | a fresh table equal to the one built from the eight starting grants |
| AuthHandlers.RoleControlAdminOnly | cmd/api/handlers/auth.go:148-152 | POST /v1/user/, GET /v1/user/:id, GET /v1/user/drivers and POST /v1/travel/ allow exactly admin |
| AuthHandlers.RoleControlShared | cmd/api/handlers/auth.go:153-156 | GET and PUT /v1/travel/:id allow exactly admin and driver |
| AuthHandlers.RoleControlKnownRolesOnly | cmd/api/handlers/auth.go:145-159 | the starting table grants nothing to any other role |
| AuthHandlers.AuthorizeRequest | cmd/api/handlers/auth.go:193-220 | the request goes on iff claims are present and the table grants their role on the method and route pattern; otherwise a 401 "authorize_failure" whose message names role, method and URL path |
| TravelHandlers.MapTravelErrorStorage | cmd/api/handlers/travel.go:111-113 | storage errors are 500 and keep their code and detail |
| TravelHandlers.MapTravelErrorNotFound | cmd/api/handlers/travel.go:114 | a missing travel is a 404 |
| TravelHandlers.MapTravelErrorRules | cmd/api/handlers/travel.go:115-117 | location, status and user rule errors are 400 |
| TravelHandlers.MapTravelErrorUnauthorized | cmd/api/handlers/travel.go:118-119 | the identity and access errors are 401 "invalid_user_access" |
| TravelHandlers.MapTravelErrorOutside | cmd/api/handlers/travel.go:132-135 | every error outside the table is a 500 "error" with the error's text, the user service's not-found among them |
| TravelHandlers.Answer | cmd/api/handlers/travel.go:37-44 | a storage success is a reply under the given status; a failure is the mapped error |
| TravelHandlers.GetTravel | cmd/api/handlers/travel.go:27-45 | a non-int64 id is a 400; otherwise the fetch's answer |
| TravelHandlers.CreateTravel | cmd/api/handlers/travel.go:48-64 | an unbound body is a 422; otherwise the save's answer as a 201 |
| TravelHandlers.EditTravel | cmd/api/handlers/travel.go:67-107 | id, then body, then the path id replaces the body's, then only a not-found user lookup stops the edit, then the update's answer |
| TravelHandlers.EditIgnoresBodyId | cmd/api/handlers/travel.go:86 | the id in the body has no effect |
| TravelHandlers.EditUnassignedSkipsLookup | cmd/api/handlers/travel.go:88 | user id 0 makes the response independent of the user lookup |
| TravelHandlers.EditIgnoresOtherLookupFailures | cmd/api/handlers/travel.go:89-97 | lookup answers other than not-found lead to the same response |
| TravelHandlers.EditByNonOwnerIsUnauthorized | cmd/api/handlers/travel_test.go:627-649 | wired to the storage service, a non-owner driver gets 401 "invalid_user_access" for any edit reaching the update |
| TravelHandlers.EditWithoutIdentityIsUnauthorized | cmd/api/handlers/travel_test.go:907-926 | wired to the storage service, an edit without identity gets 401 "cannot identify user logged in" |
| TravelHandlers.CreateAnswersPending | internal/travel/travel.go:81-89 | wired to the storage service, a created travel is a 201 with status pending |
| TravelHandlers.CreateStorageFailure | cmd/api/handlers/travel.go:56-61 | a failed save is a 500 reading as the save error |
| TravelHandlers.GetAnswersStoredTravel | cmd/api/handlers/travel.go:27-45 | wired to the storage service, a stored travel is a 200 with it and a missing one a 404 |

## Left out

- SQL repositories (MySQL I/O, NULL user ids, LIMIT argument order) and their
  metrics. Each repository is a map, and each call takes an explicit fault.
  A missing key on fetch means not-found, as the SQL repository reports it.
- The read-then-write race between an update's fetch and its write: concurrency is not modelled.
- JSON Web Tokens (signing, validation, expiry, claims parsing,
  `auth.go:92-119`) and token generation at the end of login
  (`user.go:134-140`). `User.UserStorage.Login` and `AuthHandlers.Login`
  stop at the claims a token would carry, and the token-generation error is not modelled.
- bcrypt. The encrypter is a pair of total functions given to the service.
- Logging, metrics and the router wiring of `cmd/api/main.go`. The panic
  recovery is only named as the 500 "unexpected_error" a panic leads to.
- Gin request binding. Which body fields are required is not modelled. A
  body either binds to a value or fails with a list of failing fields, or
  with another error.
- Float coordinates and the `Point` string format of
  `internal/travel/point.go`. The rule set only compares coordinates for
  equality, so they are integers here. NaN, which is unequal to itself, is
  not represented.
- The user `Get` and `Create` endpoints (`users.go:28-46, 120-136`) are not
  modelled. They have the shape of `TravelHandlers.GetTravel` and
  `TravelHandlers.CreateTravel`, with the user table in place of the travel
  table.
- The revision gap between error types. `travel.Error` (`travel.go:19-34`) and
  `user.Error` (used in `auth.go:55-66`) are both modelled as the `code_error`
  value. Their `Code()`/`Detail()` accessors are `GetCode`/`GetDetail`.
- UserHandlers.ToLower: lower-cases ASCII letters only. Go's `strings.ToLower` also lower-cases the rest of Unicode.
- AuthHandlers.NewRoleControl: the eight `AddRule` calls are a loop over the list of the eight grants, in the same order.
- User.UserStorage.Search: the repository's paginated listing and free-driver list are parameters, not reads of the repository map, so the model does not tie their answers to the stored users.
- UserHandlers.GetDrivers: takes the same two parameters and hands them to User.UserStorage.Search.
- Travel.ValidateAs: covers only the ownership outcomes the handler tests show: a missing identity, and a caller who is neither owner nor admin. A non-admin owner may reassign their own travel; only the travel.go gates decide that edit.
- AuthHandlers.BearerToken: headers are taken as character sequences, where Go's `len` and slicing count UTF-8 bytes. The model agrees with Go on ASCII headers only. A header such as "ééééé" (5 characters, 10 bytes) panics in the model but not in Go. The same holds for AuthHandlers.BearerTokenChecked.

## Findings

| source | as written | input that shows it | evidently intended | confidence | as-written member | corrected member |
|---|---|---|---|---|---|---|
| cmd/api/handlers/auth.go:83-90 | a non-empty Authorization header is sliced from index `len("Bearer ")` without a length check | the header "abc": the slice `[7:]` is out of range, and the request panics into a 500 "unexpected_error" | a header too short to hold the scheme is rejected with a 401, like a missing or invalid token | high, not executed | AuthHandlers.BearerToken, AuthHandlers.ShortHeaderPanics | AuthHandlers.BearerTokenChecked, AuthHandlers.CheckedAgreesUnlessPanic |
