# Ad-serving core in Dafny

A model of the two layers of a small ad-serving service that carry its logic,
with proofs about them.

- **The data-access layer** (`repository.dfy`, module `Repository`) does two
  things.
  - It turns a condition map (`gender`, `country`, `platform`, `age`, `limit`,
    `offset`, each mapped to a list of strings) into one parameterised SELECT
    and its positional arguments, runs it, and scans the rows into ads.
  - It writes a new ad inside one transaction: the ads row, then one junction
    row per gender, country and platform value. It commits when everything
    succeeded and rolls back at the first failure.
- **The business layer** (`usecase.dfy`, module `Usecase`) also does two
  things.
  - It validates a new ad and fills in defaults: an empty condition, ages 1
    and 100, and the "any" sentinels `A`, `AY` and `any`.
  - It rewrites a query's condition map before handing it down: `offset` is
    required, `limit` defaults to `5`, and a sentinel is appended to each
    present dimension. It then converts the end times of the returned rows.
- **The shared records** (`domain.dfy`, module `Domain`) are `Ad` and
  `Condition`, plus `Option`/`Result` wrappers and the error kinds.

How the store is modelled:
- The database is a set of oracles. A read store says whether preparing a text
  fails and which rows (or which error) a query gives.
- A write store says:
  - whether BEGIN fails;
  - which error, if any, the last statement of a history of attempted
    statements gets;
  - what `LastInsertId` reports;
  - whether COMMIT fails.
- A `Transaction` object records the statements attempted in it and whether
  it is open, committed, rolled back, or failed to commit.

Go's time library calls are opaque partial functions (`string ->
Option<string>`). The data-access layer, as seen from the business layer, is a
function parameter. Each business-layer operation also returns what it handed
to that layer, or `None` when it did not call it.

## Model

| member | source | states |
|---|---|---|
| Repository.RepeatQuestionMarksShape | repository/ad.go:85-87 | for n ≥ 1 the list is n `?` separated by n−1 commas: length 2n−1, `?` at every even position, `,` at every odd one |
| Repository.RepeatQuestionMarksCount | repository/ad.go:85-87 | for n ≥ 1 the list holds exactly n placeholders |
| Repository.InPredicatePlaceholders | repository/ad.go:105 | a `<column> IN (...)` predicate over n values holds exactly n placeholders |
| Repository.AgePlaceholders | repository/ad.go:126-129 | the age predicate holds exactly two placeholders, one for each copy of `age[0]` it is given |
| Repository.OrderPlaceholders | repository/ad.go:135-140 | the paging clause holds exactly two placeholders, one for `limit[0]` and one for `offset[0]` |
| Repository.DimensionPlaceholders | repository/ad.go:102-123 | a present dimension adds as many placeholders to the WHERE clause as values to the arguments, and none in its join |
| Repository.PredicatesPlaceholders | repository/ad.go:101-135 | the WHERE predicates hold one placeholder per argument except the final limit and offset |
| Repository.JoinPlaceholders | repository/ad.go:138-139 | joining texts with a separator free of `?` keeps the sum of their placeholders |
| Repository.DimensionPlain | repository/ad.go:102-123 | no INNER JOIN text and no column name of a dimension holds a placeholder |
| Repository.CommandPlaceholdersMatchArgs | repository/ad.go:98-140 | whatever keys are present, the assembled command holds exactly as many `?` as there are arguments |
| Repository.JoinPresentIffKey | repository/ad.go:101-123 | a dimension's INNER JOIN is in the join list exactly when its key is in the map |
| Repository.JoinClausesDistinct | repository/ad.go:102-123 | the three dimensions join through three different tables, so their INNER JOIN texts differ |
| Repository.PredicatePresentIffKey | repository/ad.go:101-123 | a WHERE predicate over a dimension's column is present exactly when its key is in the map |
| Repository.ActiveAndPagingAlways | repository/ad.go:131-140 | the active-time predicate is always the last WHERE predicate, and the command always ends with `ORDER BY ads.end_at ASC LIMIT ? OFFSET ?` |
| Repository.PagingArgsLast | repository/ad.go:134-135 | the last two arguments are always `limit[0]` then `offset[0]` |
| Repository.AllConditionsArgs | repository/ad_test.go:192-211 | with every key present, the arguments are the gender, country and platform values, the age twice, then limit and offset |
| Repository.NoAgeConditionArgs | repository/ad_test.go:233-252 | without `age`, no age argument is passed |
| Repository.ToGenericSlice | repository/ad.go:89-95 | a fresh array of the same length holding each string, in order |
| Repository.CollectClauses | repository/ad.go:98-135 | the step-by-step appends yield exactly the join list, predicate list and argument list the map stands for: the gender, country and platform blocks in that order, then age, the active-time predicate and the paging arguments |
| Repository.FirstScanFailure | repository/ad.go:153-159 | the index of the first row that fails to scan, with every earlier row scanned |
| Repository.ScanRows | repository/ad.go:152-163 | a failing scan returns no ads and that scan error; otherwise one ad per row, in order, with only title and end time set, and the iteration error |
| Repository.GetByCondition | repository/ad.go:97-164 | the command assembled at lines 137-140 is exactly the select, the space-joined INNER JOINs, the AND-joined predicates and the paging clause; the store is asked to prepare exactly that command and to run it with exactly the collected arguments; a prepare, query or scan error returns no ads |
| Repository.JunctionRows | repository/ad.go:58-80 | one junction insert per value, in order, each carrying the ads row's id and that value |
| Repository.AttemptStopsAtFirstFailure | repository/ad.go:58-80 | exactly a prefix of the statements is attempted: all of them iff all succeed, otherwise up to and including the first failing one, whose error is reported |
| Repository.AttemptAppend | repository/ad.go:58-80 | running the gender, country and platform loops one after the other is running their concatenation, stopping at the first failure |
| Repository.SucceededAppend | repository/ad.go:58-80 | two statement lists succeed in a row exactly when their concatenation does |
| Repository.CreateAttemptsPrefix | repository/ad.go:46-80 | what `Create` attempts is a non-empty prefix of: the ads insert, then every gender, country and platform insert, each with the returned id |
| Repository.CreateCommitsOnlyOnSuccess | repository/ad.go:37-44 | COMMIT is issued iff the ads insert, `LastInsertId` and every junction insert succeeded; the call then returns nil even when COMMIT fails; otherwise the transaction is rolled back and an error is returned |
| Repository.CreateReturnsFirstFailure | repository/ad.go:47-79 | a failed run returns the error of the step that failed, and every statement before it succeeded |
| Repository.Transaction.Begin | repository/ad.go:32-35 | a successful BEGIN opens a transaction on the store with nothing attempted |
| Repository.Transaction.Exec | repository/ad.go:21-29 | preparing and executing a statement appends it to the attempted history and returns the store's verdict on it |
| Repository.Transaction.Commit | repository/ad.go:40 | the transaction is committed or failed to commit, according to the store's COMMIT error |
| Repository.Transaction.Rollback | repository/ad.go:42 | the transaction is rolled back |
| Repository.InsertEach | repository/ad.go:59-64 | one junction loop attempts its rows in order and returns at the first failure |
| Repository.Create | repository/ad.go:31-83 | a BEGIN error is returned with no transaction; otherwise the transaction's attempted statements, final state and returned error are exactly one run of the create protocol |
| Usecase.ChangeAgeIfZero | usecase/ad.go:42-46 | the result is the default exactly when the age was 0 (or already the default), any other age is kept, and a non-zero default gives a non-zero age |
| Usecase.ChangeSliceIfEmpty | usecase/ad.go:48-52 | the result is never empty: `[sentinel]` for an empty list, the list itself otherwise |
| Usecase.ChangeIdempotent | usecase/ad.go:42-52 | defaulting a value a second time changes nothing |
| Usecase.WithDefaultsCompletes | usecase/ad.go:76-81 | after defaulting, both ages are non-zero and every dimension is non-empty; provided values are kept; defaulting leaves a complete condition unchanged |
| Usecase.EmptyConditionDefaults | usecase/ad.go:62-81 | a missing condition reaches the data-access layer as ages 1 and 100 with `["A"]`, `["AY"]`, `["any"]` |
| Usecase.Create | usecase/ad.go:54-85 | a missing title, start or end time is an error that leaves the ad unchanged and never calls the data-access layer; a nil condition becomes empty before anything else; a failed time conversion returns the ad updated so far without calling the layer; otherwise the completed ad is handed over and its error returned unchanged |
| Usecase.AppendAnyValues | usecase/ad.go:99-103 | for any order in which the sentinel table's keys are visited, each present key gets exactly its sentinel appended, so the result does not depend on the order |
| Usecase.AppendEachAppendsOnce | usecase/ad.go:99-103 | visiting distinct sentinel keys one after another appends to each present key exactly one sentinel when it is visited, and leaves every other key unchanged |
| Usecase.PreparedShape | usecase/ad.go:91-103 | the rewritten map keeps `offset`, keeps a provided `limit` and otherwise has `["5"]`, appends one sentinel at the end of each present dimension, keeps absent dimensions absent and leaves every other key unchanged |
| Usecase.PreparedIsQueryable | usecase/ad.go:95-103 | with non-empty `offset`, and a non-empty `limit` and `age` when those are present, the rewritten map is one the data-access query accepts (no dimension list is empty) |
| Usecase.PreparedDimensionsExample | usecase/ad_test.go:200-218 | `{offset: [0], gender: [M], country: [TW], platform: [web]}` becomes `[M A]`, `[TW AY]`, `[web any]` with limit `[5]` |
| Usecase.EndAtsToUtc | usecase/ad.go:110-122 | conversion succeeds iff every end time parses; then same length, and each row equals the input row with only its end time rewritten |
| Usecase.ConvertEndAts | usecase/ad.go:110-122 | the in-place rewrite loop returns exactly that conversion |
| Usecase.GetByCondition | usecase/ad.go:87-124 | without `offset` it fails without calling the data-access layer; otherwise it hands over the rewritten map, returns that layer's error unchanged, and otherwise returns the converted rows |

## Left out

- The HTTP handlers, routes, server start-up, database configuration, the
  generated API documentation and the generated mocks are not part of this
  model.
- Time handling is abstract. Parsing RFC 3339 timestamps (section 5.6 of
  RFC 3339), loading the Asia/Taipei zone and reformatting are one opaque
  partial function per direction. A failure to load the zone is folded into
  that function's `None`. The particular Go error is reduced to
  `TimeParseError`.
- Context deadlines and cancellation, and the `fmt.Println` logging, are not
  modelled.
- SQL semantics are not modelled: what MySQL does with `NOW()`, the joins and
  the `IN` lists. The read store is a given row set per command and argument
  list.
- Preparing and executing an INSERT are one step with one error.
  `LastInsertId` is a single oracle value.
- Go pointers and maps are reference values; the model passes values instead.
  - The business layer's `Create` returns the updated ad rather than writing
    through the caller's pointer.
  - `GetByCondition` returns the rewritten map rather than mutating the
    caller's map.
  - The contents are the same; aliasing between callers is not captured.
- Repository.Create: a nil condition would make the Go code panic on a nil
  dereference. The model requires a condition instead; the business layer
  always supplies one.
- Repository.GetByCondition: a present dimension with an empty list makes
  `strings.Repeat` panic, and a missing or empty `limit`, `offset` or `age`
  list makes indexing panic. The model requires a map without these
  (`Queryable`) instead of modelling the panic.
- Repository.RepeatQuestionMarksShape: stated for length ≥ 1 only; for 0
  `strings.Repeat` panics.
- Usecase.GetByCondition: the Go map range order is unspecified. The model
  takes it as a parameter (any enumeration of the sentinel keys) and proves
  the result independent of it.
