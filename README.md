# co2monitor.api — a Dafny model of its decision and validation rules

co2monitor.api is a small CRUD backend for CO2, temperature and humidity
readings tied to named locations. Access is gated by API keys and bearer
tokens. This project models the parts of it that decide anything:

- the two time-frame parsers:
  - the single-token `"<int><m|h|d>"` parser with its six-hour fallback;
  - the digits/unit check with its clamp to the maximum window;
- the query-string readers (`readIDParam`, `readString`, `readCSV`, `readInt`);
- the record validators, including the token-strength scan;
- the data-access operations, over in-memory tables;
- the API-key gates and the bearer-token middleware;
- the handler decision chains for CO2 data, users and locations;
- the build version string.

Durations are whole minutes (six hours is 360). A Go string is a Dafny
`string` with one character per byte. `strconv.Atoi` and
`strconv.ParseInt(s, 10, 64)` are the grammar "optional sign, then one or
more ASCII digits", over unbounded integers (`Strconv.Atoi`). Atoi of `Itoa(n)` is
proved to be n for every integer n (`Strconv.AtoiItoa`); the converse does not hold ("+5" and "007" are not written back as such).

Each table is a class. It holds:

- its rows as a `seq`, in insertion order (for the location and user tables this is also ascending id order, an invariant of their `Valid()`);
- the next id;
- the error a broken database connection would report, fixed for the object's lifetime.

The current time is a parameter of every operation that reads the clock.

The validator package is not part of this model. It is modelled as a map
from field key to messages. Only the presence of a key is relied on.

Four operations are unseen and are modelled as function parameters:
- `GetByID`;
- `GetForToken`;
- `ValidateToken`;
- reading the build information.

Four behaviours of the code worth knowing, each modelled as written:

- The single-token parser converts a signed count as is: `"-5m"` is −5 minutes, not the default.
- The single-token parser has no upper bound.
- The digits/unit form is not equivalent to the single-token form. It rejects an unknown unit with an error instead of falling back. Its defaults (`digits=6`, `unit="m"`) make six minutes, not six hours. Below the clamp threshold the two agree (`Helpers.ParsersCompared`).
- The user name check in `ValidateUser` is `len(user.Name) < 3` under the message "must be at least 3 bytes long". `UserStore.ValidateUser` and the user handlers follow it, so "ab" passes and "abc" is refused. `UserStore.ValidateUserCorrected` is the intended rule (see "## Findings").

## Model

| member | source | states |
|---|---|---|
| TimeDuration.ValidateTimeDuration | extensions/parse_time_frame.go:10-47 | a token of at least 2 bytes ending in m, h or d whose prefix is an integer is that integer times 1, 60 or 1440 minutes; every other input is 360 |
| TimeDuration.Decompose | extensions/parse_time_frame.go:19-43 | the unit is the last byte, the count is the Atoi value of the bytes before it; result is count × unit minutes when both are valid, otherwise 360 |
| TimeDuration.MalformedIsDefault | extensions/parse_time_frame.go:14-34 | an input shorter than 2 bytes, an unknown last byte or a non-integer prefix each give 360 minutes |
| TimeDuration.WellFormedConvertsExactly | extensions/parse_time_frame.go:37-43 | `"<n>m"`, `"<n>h"`, `"<n>d"` give n, 60·n, 1440·n minutes for every integer n |
| TimeDuration.DefaultOrMultiple | extensions/parse_time_frame.go:37-46 | every result is 360 or exactly the token's integer count times its unit's minutes |
| TimeDuration.NoUpperBound | extensions/parse_time_frame.go:30-43 | for every bound some token's duration exceeds it: no clamp |
| TimeDuration.NegativeCountConverted | extensions/parse_time_frame.go:30-39 | `"-5m"` is −5 minutes: no sign check |
| TimeDuration.TestVectors | extensions/parse_time_frame.go:10-47 | "10m", "5h", "3d" convert exactly; "abc", "2w", "2 h", "20" give 360 |
| Strconv.Atoi | cmd/api/helpers.go:162-166 | succeeds exactly on optional sign plus one or more digits; unsigned input gives a non-negative value |
| Strconv.AtoiItoa | cmd/api/helpers.go:162 | for every integer n, Atoi of its decimal form is n |
| Strings.Split | cmd/api/helpers.go:153 | at least one part, and no part contains the separator |
| Strings.JoinSplit | cmd/api/helpers.go:153 | joining the split parts with the separator gives back the string |
| Strings.SplitJoin | cmd/api/helpers.go:153 | splitting a join of separator-free parts gives back the parts |
| Strings.SplitAfterPart | cmd/api/middleware.go:22 | a separator-free prefix followed by the separator becomes the first part |
| Helpers.ValidateTimeFrame | cmd/api/helpers.go:105-136 | error exactly when the unit is not "m", "h" or "d", with the invalid-unit message; a success never exceeds maxTimeFrameDays × 1440 minutes |
| Helpers.ClampRule | cmd/api/helpers.go:113-132 | at or below the unit's threshold (including 0 and negative) the count converts exactly; above it the result is the maximum window |
| Helpers.ParsersCompared | cmd/api/helpers.go:105-132 | within the threshold the two parsers agree on `"<n><unit>"`; above it the single-token parser exceeds the clamped window |
| Helpers.DefaultsDisagree | cmd/api/co2.go:25-26 | the handler's defaults give 6 minutes, the single-token fallback gives 360 |
| Helpers.ReadIdParam | cmd/api/helpers.go:94-103 | success exactly for an integer ≥ 1, with that value; otherwise "invalid id parameter" |
| Helpers.ReadIdParamItoa | cmd/api/helpers.go:97-101 | every positive id written in decimal is read back |
| Helpers.QueryGet | cmd/api/helpers.go:139 | the first value under the key, or "" when the key is absent or has no value |
| Helpers.ReadString | cmd/api/helpers.go:138-145 | the default when the value is "", otherwise the value unchanged |
| Helpers.ReadStringDefault | cmd/api/helpers.go:138-145 | a non-empty default is never turned into ""; an absent key gives the default |
| Helpers.ReadCsv | cmd/api/helpers.go:147-154 | the default for "", otherwise at least one comma-free part |
| Helpers.ReadCsvJoin | cmd/api/helpers.go:147-154 | a non-empty value is the comma-join of readCSV's parts |
| Helpers.IntParam | cmd/api/helpers.go:156-169 | the Atoi value when the value parses, the default otherwise |
| Helpers.ReadInt | cmd/api/helpers.go:156-169 | returns IntParam; records an error under the key exactly when a present value is not an integer; other keys are kept |
| Validation.WithError | cmd/api/helpers.go:164 | the key is present afterwards with the message appended; every other entry is kept |
| Validation.Validator.AddError | cmd/api/helpers.go:164 | the error map becomes WithError of the old map |
| Validation.Validator.Valid | cmd/api/location.go:41 | valid exactly when no key has an error |
| Validation.Validator.Check | internal/data/location.go:24-26 | a key is present afterwards exactly when it was before or the check failed under it |
| Co2Handler.Co2DataByTimeFrameHandler | cmd/api/co2.go:10-49 | a bad id is 404 before any query parameter; a non-integer `digits` is a validation failure keyed only "digits"; an invalid unit is a failure keyed "unit"; otherwise 200 echoing id and time frame; no parameters give 6 minutes |
| DataErrors.NoRowsToNotFound | internal/data/location.go:92-98 | no-rows becomes ErrRecordNotFound and nothing else does |
| Co2Store.Co2ErrorKeys | internal/data/co2.go:112-123 | each field key is recorded exactly when its own range check fails |
| Co2Store.Co2DataValidIff | internal/data/co2.go:112-123 | no errors iff location_id > 0, 0 ≤ co2 < 5000, −100 ≤ temp ≤ 100, 0 ≤ humidity ≤ 100 |
| Co2Store.Co2DataBoundaries | internal/data/co2.go:116-122 | co2 = 5000 rejected; temp ±100 and humidity 0 and 100 accepted |
| Co2Store.ValidateCo2Data | internal/data/co2.go:112-123 | the validator gains exactly the keys of the failed checks |
| Co2Store.Window | internal/data/co2.go:45-50 | a row is in the window iff it has the location and created_at ≥ since |
| Co2Store.InsertDesc | internal/data/co2.go:50-76 | placing a row keeps newest-first order and adds exactly that row |
| Co2Store.WindowStep | internal/data/co2.go:68-77 | the window of one more row is the old window plus that row when it qualifies |
| Co2Store.Co2Model.Insert | internal/data/co2.go:25-42 | the stored row gets the next id and the current time; a broken connection changes nothing |
| Co2Store.Co2Model.GetByTimeFrame | internal/data/co2.go:44-84 | newest first, a permutation of the window, and exactly the location's rows created at or after now − timeFrame; none is an empty success |
| Co2Store.Co2Model.GetLatest | internal/data/co2.go:86-110 | a row of the location with maximal created_at; none is ErrRecordNotFound; other errors pass through |
| Co2Calls.Recent | db/db_calls/co2.go:14 | a row is returned iff it has the location and created_at > since (strict); other locations never |
| Co2Calls.Filled | db/db_calls/co2.go:32 | the ORM assigns the id and fills zero timestamps with now, keeping the payload |
| Co2Calls.Co2Table.GetCo2DataByTimeFrame | db/db_calls/co2.go:11-17 | the location's rows newer than now − hours, in table order, with the driver's error |
| Co2Calls.Co2Table.GetLatestCo2Data | db/db_calls/co2.go:19-25 | the first newest row of the location in table order; rows are appended with successive ids, so among equal `created_at` this is the lowest id, which is what `First`'s added primary-key order picks; none is "record not found" |
| Co2Calls.Co2Table.CreateCo2Data | db/db_calls/co2.go:27-35 | an empty batch is refused with "Empty list of co2 data to insert" and nothing changes; otherwise each element is filled in place and the batch is appended |
| Co2Calls.CreateGrowsTableByBatchSize | db/db_calls/co2.go:28-34 | n ≥ 1 records grow the table by exactly n; an empty batch leaves it as it was |
| Tables.WithoutKey | internal/data/location.go:123-125 | the rows other than those with the id, and only those |
| Tables.WithoutKeyLength | internal/data/location.go:135-141 | zero rows removed exactly when no row has the id |
| Tables.WithoutKeyAscending | internal/data/location.go:122-145 | removing rows keeps ascending ids and the id bound |
| LocationStore.LocationErrorKeys | internal/data/location.go:23-27 | no error iff 3 < len(name) ≤ 500, and only the "name" key is used |
| LocationStore.LocationNameBoundaries | internal/data/location.go:25-26 | 3 bytes rejected, 4 and 500 accepted, 501 rejected |
| LocationStore.ValidateLocationData | internal/data/location.go:23-27 | the validator gains "name" exactly when the name rule fails |
| LocationStore.Renamed | internal/data/location.go:105-109 | only the row with the id changes, and only its name and updated_at |
| LocationStore.LocationModel.Insert | internal/data/location.go:29-43 | the stored row gets the next id and both timestamps; ids stay ascending |
| LocationStore.LocationModel.GetAll | internal/data/location.go:45-77 | every row, in ascending id order |
| LocationStore.LocationModel.Get | internal/data/location.go:79-102 | the row with the id; none is ErrRecordNotFound; a broken connection is its own error |
| LocationStore.LocationModel.Update | internal/data/location.go:104-120 | the table becomes Renamed; no row is the unmapped no-rows error |
| LocationStore.LocationModel.Delete | internal/data/location.go:122-145 | removes exactly the rows with the id; zero rows affected is ErrRecordNotFound |
| LocationHandlers.ListLocationsHandler | cmd/api/location.go:11-22 | 200 with every location in id order, or a server error |
| LocationHandlers.CreateLocationHandler | cmd/api/location.go:24-56 | a bad body is 400; a failed name rule is a "name" validation failure with no insert; otherwise 201 with the stored row |
| LocationHandlers.UpdateLocationHandler | cmd/api/location.go:58-106 | a bad id or a missing row is 404 before anything else; other lookup errors are 500; a bad body is 400; an absent name keeps the stored name; a failed name rule means no update; success is 201 with the renamed row |
| LocationHandlers.DeleteLocationHandler | cmd/api/location.go:108-130 | a bad id or zero rows is 404; success is 204 and removes the row |
| UserStore.InsertError | internal/data/users.go:42-49 | the name-constraint message becomes ErrDuplicateName; anything else passes through |
| UserStore.UpdateError | internal/data/users.go:103-111 | as Insert's, and no-rows becomes ErrEditConflict |
| UserStore.ErrorMappingsCompared | internal/data/users.go:103-111 | the two mappings differ only on no-rows |
| UserStore.GetByName | internal/data/users.go:55-83 | every call fails, and never with ErrRecordNotFound |
| UserStore.VerifyToken | internal/data/users.go:153-168 | true iff the token has a number, an upper-case, a lower-case and a punctuation-or-symbol character, each classified by the first matching case |
| UserStore.StrongTokenMonotone | internal/data/users.go:153-168 | the empty token fails; appending never turns a strong token weak |
| UserStore.OneFlagPerCharacter | internal/data/users.go:156-164 | two examples: "Aa1!" is strong; the 24-byte letters-and-digits token "abcdefgh12345678ABCDEFGH" is weak |
| UserStore.NoSpecialIsWeak | internal/data/users.go:153-168 | every token without a punctuation or symbol character is weak, whatever its length; letters and digits alone never suffice |
| UserStore.NameRuleAsWritten | internal/data/users.go:143-145 | the name checks as written pass exactly for 1- and 2-byte names |
| UserStore.NameRuleCorrected | internal/data/users.go:143-145 | the corrected name checks pass exactly for 3 to 500 bytes |
| UserStore.ValidateUserToken | internal/data/users.go:146-150 | the validator gains "token" exactly when the token is not 32–72 bytes and strong; other keys are kept |
| UserStore.ValidateUser | internal/data/users.go:142-151 | as written: the validator gains "name" exactly when the name is empty, 3 bytes or longer, or over 500 bytes, and "token" exactly when the token is not 32–72 bytes and strong |
| UserStore.ValidateUserCorrected | internal/data/users.go:142-151 | the intended rule: "name" exactly when the name is not 3–500 bytes, "token" as in ValidateUser |
| UserStore.Updated | internal/data/users.go:86-90 | the row with the record's id gets its name, token, active and the current updated_at; every other row and every length is kept |
| UserStore.UserModel.Insert | internal/data/users.go:30-53 | a taken name is ErrDuplicateName and changes nothing; otherwise the row is stored with the next id; names stay unique |
| UserStore.UserModel.Update | internal/data/users.go:85-115 | no row is ErrEditConflict; a name another row has is ErrDuplicateName; otherwise name, token, active and updated_at of that row change |
| UserStore.UserModel.Delete | internal/data/users.go:117-140 | removes exactly the rows with the id; zero rows affected is ErrRecordNotFound |
| UserStore.UpdatedKeepsNamesUnique | internal/data/users.go:85-115 | an update with a free name keeps names unique and ids ascending |
| UserStore.WithoutKeyKeepsNamesUnique | internal/data/users.go:117-140 | deleting keeps names unique |
| UserHandlers.RequestedLookup | cmd/api/user.go:14-34 | neither parameter is "missing", both is "only one"; an id of 0 or a non-integer id counts as no id |
| UserHandlers.FindUser | cmd/api/user.go:12-44 | exactly one lookup runs, by id when id ≠ 0; not found is 404, other errors 500; a lookup by name is always 500 |
| UserHandlers.GetUserHandler | cmd/api/user.go:11-50 | the two 400 messages, then 200 with the user, 404 or 500 |
| UserHandlers.CreateUserHandler | cmd/api/user.go:52-93 | a bad body is 400; failed checks (with the name rule as written) are a validation failure with no insert; a taken name is a "name" validation failure; otherwise 201 with the stored user |
| UserHandlers.Patched | cmd/api/user.go:142-150 | fields the patch carries are replaced, absent ones keep the stored value |
| UserHandlers.PatchLaws | cmd/api/user.go:142-150 | the empty patch is the identity; a patch applied twice is applied once; a later patch wins field by field |
| UserHandlers.SaveUser | cmd/api/user.go:152-172 | failed checks (with the name rule as written) mean no update; a taken name is a "name" validation failure; other errors are 500; success is 200 with the updated user |
| UserHandlers.UpdateUserHandler | cmd/api/user.go:95-173 | the lookup rule, a bad body is 400, the patched record is validated and saved as SaveUser states |
| UserHandlers.DeleteUserHandler | cmd/api/user.go:175-197 | a bad id or zero rows is 404; success is 204 and removes the row |
| Middleware.RequireApiKey | middleware/require_x_api_key.go:11-37 | Next iff the header is non-empty and is the admin or normal key for GET, or the admin key for POST, PATCH, DELETE; otherwise abort with 401 |
| Middleware.RequireApiKeyByRole | middleware/require_x_api_key.go:16-36 | empty header refused; GET needs read rights, writes need the admin key, other methods refused; with no admin key nothing writes |
| Middleware.NormalKeyReadsOnly | middleware/require_x_api_key.go:22-36 | the normal key may GET but not POST, PATCH, DELETE or PUT |
| Middleware.RequireAuth | middleware/require_auth.go:11-21 | Next iff the header is non-empty and equals `X_API_KEY`, for any method; otherwise 401 |
| Middleware.RequireAuthComparedToApiKey | middleware/require_auth.go:14-20 | an empty `X_API_KEY` refuses everyone; what RequireAuth admits may GET under RequireApiKey |
| Authenticate.AddHeader | cmd/api/middleware.go:14 | the value is appended under the key; other headers are kept |
| Authenticate.BearerSplit | cmd/api/middleware.go:22-28 | two parts with "Bearer" first iff the header is "Bearer " plus a space-free token, which is then the second part |
| Authenticate.Authenticate | cmd/api/middleware.go:12-52 | `Vary: Authorization` on every path; not a bearer header is invalid credentials; a failing token or an unknown token is invalid token; other lookup errors are 500; otherwise the next handler with the user |
| Authenticate.ProceedOnlyWhenAllPass | cmd/api/middleware.go:48-50 | the next handler runs iff every check passed |
| Authenticate.MalformedHeaders | cmd/api/middleware.go:16-26 | "", "Bearer", "Bearer a b", "bearer x" and "Bearer  x" are invalid credentials |
| Vcs.Version | internal/vcs/vcs.go:8-37 | time + "-" + revision of the last such settings, plus "-dirty" iff some `vcs.modified` is "true"; no build info gives "-" |
| Vcs.LastOccurrenceWins | internal/vcs/vcs.go:23-26 | the value used is that of the last setting with the key, or "" when there is none |
| Vcs.ModifiedNeverReset | internal/vcs/vcs.go:19-22 | once set, later settings never clear the modified flag |
| Vcs.UnrelatedKeysIgnored | internal/vcs/vcs.go:18-28 | settings under other keys change nothing |

## Left out

- readJSON and writeJSON are not modelled. A request body is a parameter that is the decoded input or readJSON's error message. Writing the response is the `Json` case of `Response`, and a write failure is not modelled.
- `background` (goroutines and panic recovery) is not modelled: it is concurrency.
- Logging is not modelled.
- Integer overflow is not modelled. This covers `strconv.Atoi` range errors, `time.Duration` multiplication and `maxTimeFrameDays × 1440`.
- Non-ASCII input is not modelled. `unicode.IsNumber`, `IsUpper`, `IsLower`, `IsPunct` and `IsSymbol` are their ASCII ranges, and one character stands for one byte.
- The database writes its values back into the caller's record (`Scan(&x.ID, …)`). The model returns the filled-in record instead.
- Foreign keys are not modelled. This includes a CO2 reading's location. ORM soft delete is not modelled either.
- `GetLatestCo2Data` takes the location id as a string. The model takes it as an integer.
- Co2Calls.Co2Table.CreateCo2Data: explicit ids already set in a batch are not modelled; every element gets the next id.
- The exact text of the database's syntax error for `GetByName` is not modelled; it is `Sql(SyntaxError)`.
- Validation.Validator.AddError: how many messages a key keeps is the model's choice (it appends). The package's own rule is not part of this model.
- Co2Handler.Co2DataByTimeFrameHandler: the echoed body is the id and the minutes. The handler's formatted string is not modelled.
- Co2Calls.Co2Table.GetCo2DataByTimeFrame: the query has no ORDER BY, so the database may return the rows in any order; the model's table order is its own choice.
- The 3-second `context.WithTimeout` on every raw-SQL query (internal/data/co2.go, location.go, users.go) is not modelled: there is no clock that runs during a query, so a timeout is one more case of the `failure` error.
- Co2Store.Co2Model.GetByTimeFrame: among rows with equal `created_at` the model fixes an order; the database's tie order is not modelled.
- LocationHandlers.UpdateLocationHandler: an `Update` failure after a successful `Get` is mapped to 500 as in the code. With one table and no concurrent writers that branch cannot happen.
- UserStore.UserModel.Insert: a rejected insert (a taken name) leaves `nextId` as it was, so ids stay gap-free. Postgres uses up a serial value even when the `users_name_key` constraint rejects the row, so in the code the next stored user's id skips one.
- UserHandlers.UpdateUserHandler: `GetByID` is an unseen function parameter. It is not tied to the users table, so a user it returns may have no row, which then gives ErrEditConflict.
- `ValidateToken` and `GetForToken` used by `authenticate` are function parameters. Their own rules are not part of this model.

## Findings

| source | as written | input that shows it | evidently intended | confidence | as-written member | corrected member |
|---|---|---|---|---|---|---|
| internal/data/users.go:144 | the second name check passes only names shorter than 3 bytes, under the message "must be at least 3 bytes long"; `UserStore.ValidateUser` and the user handlers keep this rule | the name "abc" is rejected with "must be at least 3 bytes long", while "ab" passes | a length of at least 3 bytes, as the message says; `UserStore.ValidateUserCorrected` applies it | high (not executed) | UserStore.NameRuleAsWritten | UserStore.NameRuleCorrected |
