# Credential store of the fitness-platform backend, in Dafny

This project models package `dal`, the persistence layer of a service that sits
between end users and third-party fitness platforms. The layer stores:

- users;
- their linked platform accounts (a credentials row: user id, platform name,
  platform user id, connection string);
- their membership of client applications (a userbase row);
- each client application's secret;
- per-platform OAuth2 token pairs;
- each user's `platforms` column.

The relational database is replaced by a `Store` class. Each table is a field
of the class: a set of user ids and the id sequence, sequences of rows, and maps.

- Writes are methods that change those fields (`modifies this`) and state the
  whole new state. The layer's two write operations,
  `InsertSecretInExistingClient` and `InsertUserCredentials`, keep the store's
  invariant `Valid()`. The statement-level steps inside the transaction
  (`InsertUserRow`, `InsertCredentialsRow`, `InsertUserbaseRow`, `Finish`) do
  not promise it, because a user exists without its rows between them.
- Single-row reads are functions of the fields (`reads this`).
- A failure that comes from outside the program (connection loss, a server
  error, a failed `BEGIN` or `COMMIT`) is a parameter. Each statement takes
  `failure: Option<string>`, and the transaction takes one `TxFaults` record.
- A failure that comes from the data is computed from the state: no row, the
  (platform_name, platform_id) uniqueness constraint, the userbase → client
  foreign key, and a token table that does not exist.

Files:

- `wrappers.dfy`: `Option`, used for Go's `error` (`None` is `nil`).
- `go_strings.dfy`: Go's `strings.Split`, needed to state the round trip of
  the connection string.
- `dal.dfy`: module `Dal`, everything in `pkg/dal/dal.go` except the
  connection bootstrap.
- `scenarios.dfy`: concrete runs on a small store, each checked by the verifier.

Main results:

- `CreateUserCredentials` fails exactly when it is given no parameters.
  Otherwise the connection string is each parameter followed by `;`. It
  therefore ends with `;` and has length Σ|p| + n. When no parameter contains
  `;`, splitting it on `;` gives the parameters back plus exactly one empty
  field, and this holds in no other case.
- The insert transaction is all-or-nothing. Every failing step, including the
  two constraint violations, leaves the tables exactly as they were. A
  committed insert adds exactly one user, one credentials row and one userbase
  row.
- The invariant `Valid()` is kept by the layer's two write operations. It
  says that ids come from the sequence, rows point at existing users and
  clients, an account is linked at most once, every user has both a
  credentials row and a membership row, and `platforms` values belong to
  users.
- `CheckUser` has three separate outcomes. Because ids start at 1 under
  `Valid()`, its `0` result means "not linked" and nothing else.

## Model

| member | source | states |
|---|---|---|
| `Dal.CreateUserCredentials` | pkg/dal/dal.go:147-167 | Platform name and id are always copied. The call fails (error, empty connection string) exactly when the parameter list is empty. Otherwise the connection string is `Terminated(params)`: each parameter followed by `;`, in input order. |
| `Dal.TerminatedSnoc` | pkg/dal/dal.go:158-161 | One more loop iteration appends that parameter and one `;`. This is the step the builder's loop invariant needs. |
| `Dal.TerminatedEndsWithSemicolon` | pkg/dal/dal.go:158-163 | A non-empty parameter list gives a non-empty string ending in `;`. |
| `Dal.TerminatedLength` | pkg/dal/dal.go:158-163 | The length is the sum of the parameter lengths plus the number of parameters. |
| `Dal.SplitTerminated` | pkg/dal/dal.go:158-163 | When no parameter contains `;`, `strings.Split(s, ";")` gives the parameters in order, followed by one empty field. |
| `Dal.SplitTerminatedIff` | pkg/dal/dal.go:158-163 | That split round trip holds if and only if no parameter contains `;`. |
| `Dal.TerminatedInjective` | pkg/dal/dal.go:158-163 | Two `;`-free parameter lists with the same connection string are equal. |
| `Dal.FirstMatch` | pkg/dal/dal.go:74-77 | The row a single-row query over the credentials table reads is the first row of the (platform_id, platform_name) account. The result is `|rows|` exactly when no row holds the account. |
| `Dal.FirstMatchAppended` | pkg/dal/dal.go:125-131 | A credentials row appended after rows that do not hold its account is the row that lookup then finds. |
| `Dal.LinkedIsValid` | pkg/dal/dal.go:116-142 | Adding a fresh user together with its credentials row (for an account not yet linked) and its userbase row (for an existing client) keeps every constraint and the completeness invariant. |
| `Dal.Store.InsertSecretInExistingClient` | pkg/dal/dal.go:40-56 | An exec failure gives `(0, err)` and changes nothing. Otherwise the call returns no error, and the row count is 1 when the client exists and 0 when it does not. Only that client's secret becomes `secret`. Every other client's secret read is unchanged. After the call, `GetClientSecret` of that client returns the new secret (count 1) or `ErrNoRows` (count 0). |
| `Dal.Store.GetClientSecret` | pkg/dal/dal.go:58-67 | An existing client gives its stored secret and no error. A missing client gives `(nil, ErrNoRows)`. A query failure gives `(nil, err)`. |
| `Dal.Store.CheckUser` | pkg/dal/dal.go:69-94 | There are three outcomes: a matching row's user id with no error, `(0, nil)` when no row matches, and `(0, err)` on a query failure. Under `Valid()`, a `0` result means exactly that no row matches, and every matching row carries the returned id. |
| `Dal.Store.GetUserTokens` | pkg/dal/dal.go:170-186 | The stored (access, refresh) pair for the user in the platform's table, with no error. Otherwise `("", "", err)`: `UndefinedTable` for an unknown platform, `ErrNoRows` for a missing user, or the query failure. |
| `Dal.Store.GetPlatformsString` | pkg/dal/dal.go:188-204 | The `platforms` column of the user's row, with no error. Otherwise `("", err)`: `ErrNoRows` for an id that is not a user, `NullColumn` for a user whose column is NULL, or the query failure. Under `Valid()`, the read succeeds exactly when a value is stored. |
| `Dal.Store.InsertUserRow` | pkg/dal/dal.go:117-122 | On success, draws the next id from the sequence and adds that user. On failure, returns `(0, err)` and changes nothing. |
| `Dal.Store.InsertCredentialsRow` | pkg/dal/dal.go:124-132 | Appends the credentials row, or fails and changes nothing. It fails with the exec failure, or with `UniqueViolation` when the account is already linked. |
| `Dal.Store.InsertUserbaseRow` | pkg/dal/dal.go:134-142 | Appends the userbase row, or fails and changes nothing. It fails with the exec failure, or with `ForeignKeyViolation` when the client does not exist. |
| `Dal.Store.Finish` | pkg/dal/dal.go:106-114 | The deferred function. A pending error rolls the tables back to the snapshot and keeps that error. Otherwise it commits. A failed commit also leaves the snapshot, and its error becomes the new value of `err`. |
| `Dal.Store.LinkTransaction` | pkg/dal/dal.go:96-145 | The function body. On a failed step it returns `(0, err)` and restores the tables. When all inserts succeed it returns the fresh id with `nil`, and the tables gain exactly the three rows, unless the commit fails. After the deferred function runs, its `err` is the commit's error. |
| `Dal.Store.InsertUserCredentials` | pkg/dal/dal.go:96-145 | The function as written. Any failing step gives `(0, err)` and leaves all tables as they were. Success gives the fresh id (at least 1, not an existing user), exactly one new user, credentials row and userbase row, and CheckUser then finds the id. If the commit fails, the caller still gets `(id, nil)` while nothing is persisted and CheckUser finds no user. |
| `Dal.Store.InsertUserCredentialsNamedResults` | pkg/dal/dal.go:96-145 | The corrected function (named results). It returns no error exactly when every step and the commit succeed, and then the three rows are in the store. Any error means the tables are unchanged. Linking an account that is already linked always fails and adds no user. |
| `Scenarios.CommitFailureIsSwallowed` | pkg/dal/dal.go:107-114 | Concrete run: all three inserts succeed and the commit fails. The caller receives id 1 with no error, the user table is empty, and CheckUser returns 0. |
| `Scenarios.CommitFailureIsReported` | pkg/dal/dal.go:107-114 | The same run against the corrected function reports the commit's error and leaves no user. |
| `Scenarios.DuplicateLinkIsRejected` | pkg/dal/dal.go:124-132 | Linking the same account twice: the first call succeeds, the second fails with `UniqueViolation`, there is one user, and CheckUser finds it. |
| `Scenarios.UnknownClientRollsBack` | pkg/dal/dal.go:134-142 | A link through a missing client fails with `ForeignKeyViolation`, returns 0, and leaves no user and no credentials row. |
| `Scenarios.PlatformsOfNewUsers` | pkg/dal/dal.go:188-204 | After an insert whose commit failed, reading that id's platforms gives `ErrNoRows`. After a committed insert, the new user's column is NULL and the read gives `NullColumn`. |
| `Scenarios.SecretOfMissingClient` | pkg/dal/dal.go:40-67 | Setting a missing client's secret returns 0 rows and no error. Reading that client's secret then fails with `ErrNoRows`. |

## Findings

| source | as written | input that shows it | evidently intended | confidence | as-written member | corrected member |
|---|---|---|---|---|---|---|
| pkg/dal/dal.go:107-114, 144 | The results of `InsertUserCredentials` are unnamed. `return userId, err` fixes the caller's values before the deferred function runs, so its `err = tx.Commit()` changes only the local variable. The comment at line 144 says the opposite. | The user, credentials and userbase inserts succeed and `COMMIT` fails. The caller receives `(userId, nil)`, yet no row was persisted. | The commit's error reaches the caller, as it would with named results `(userId int, err error)`, so that "no error" means "committed". | not executed | `Dal.Store.InsertUserCredentials` (`Scenarios.CommitFailureIsSwallowed`) | `Dal.Store.InsertUserCredentialsNamedResults` (`Scenarios.CommitFailureIsReported`) |

## Where the model follows dal.go rather than dal_test.go

- Tokens come from the `oauth2` join in dal.go:173-176. The test at
  dal_test.go:96-108 expects them to be split out of the credentials row's
  connection string instead. The join names a table after the platform, so the
  model keeps a token map per platform. An unknown platform is a missing table
  (`UndefinedTable`).
- The platform read returns the single `platforms` column of the user table
  (dal.go:192-198). The test at dal_test.go:111-134 expects a list of
  platform names from a function that dal.go does not have.
- The connection string puts a `;` after every parameter, the last one
  included (dal.go:160). The test's connection string at dal_test.go:171 has
  no trailing `;`.
- The id sequence is not transactional, as with PostgreSQL sequences. A
  transaction rolled back after its user insert still uses up that id, so
  `nextUserId` advances once the user insert has run. All tables are restored
  exactly.

## Left out

- `InitializeDBConn` (dal.go:20-38): opening the driver and pinging the server is connection I/O and is not modelled.
- SQL text and its string interpolation: each query is modelled by its meaning over the tables. Quoting and injection through interpolated platform names and ids are not modelled.
- The `%q` quoting of the platform name as a table identifier in `GetUserTokens`: the platform string names the token table directly.
- The ignored error of `result.RowsAffected()` (dal.go:54): the row count is computed from the state.
- Concurrency and transaction isolation: they belong to the storage engine, and the model is sequential.
- The errors of `tx.Rollback()` are discarded by the code (dal.go:110): the model's rollback always restores the snapshot.
- Integer widths: Go's `int` and `int64` (ids, client ids, row counts) are unbounded integers here, and sequence overflow is not modelled.
- SQL `NULL` in the `secret`, `access_token` and `refresh_token` columns is not represented. Scanning `NULL` into a Go `string` is an error that the model cannot produce for the token columns. Nor does the model represent the difference between a nil and an empty byte slice. For the `platforms` column, `NULL` is the absence of an entry and reads as `NullColumn`.
- The `platforms` column of a new user: its default lives in a schema that is not shown, so the model gives a new user `NULL` there.
- Dal.Store.GetUserTokens: the token tables are not tied to the user table, whose foreign keys are not shown. The model can therefore hold tokens for an id that is not a user.
- Go strings are byte strings; the model uses sequences of `char`. `TerminatedLength` counts characters, while Go's `len` counts bytes, and the two differ for non-ASCII parameters.
- More than one `oauth2` row for one user and platform: the model keeps one pair, where the query would read the first row.
- A nil `*UserCredentials` passed to `InsertUserCredentials` (a panic in Go): credentials are a value here.
- The database schema (not shown): only the uniqueness constraint on (platform_name, platform_id) and the userbase → client foreign key are modelled, each as a way its insert step can fail.
- pkg/environment/environment.go (configuration loading) and pkg/platform/fitbit.go (HTTP calls to the platform) are not part of this model. The adapter's one call into this layer is `GetUserTokens`.
- The sqlmock tests in dal_test.go are not used as properties: they call functions and signatures that dal.go does not have.
