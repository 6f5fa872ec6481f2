# tedious-promises, modelled in Dafny

tedious-promises wraps the `tedious` SQL Server driver in promises. A
*session* (`TediousPromises`) remembers where connections come from. The
source is a connection pool, a single-connection configuration or a
mock-data callback. The session also remembers a default column renamer and
a promise library. Each query or transaction runs in a new *unit of work*
(`TediousPromise`), built by chained calls: `sql`, `column`, `parameter`,
`outputParameter`, `rowTransformer`, `forEachRow`, `returnRowCount`, and the
column pass-throughs `asBoolean`, `overrideGetValue` and
`overrideApplyMapping`. A unit then runs with `execute` or `callProcedure`,
or drives a transaction.

While the request runs, each driver row goes through a *row transformer*.
`rowToObject` builds an object, `rowToArray` builds an array, or the caller
supplies a function. The transformer reads a lazily built table of *column
mappings* (`TediousPromiseColumn`). A mapping puts a cell's value under the
column's name or along a dotted path, optionally converted, for example to a
boolean. `PromiseUtil` picks a named promise library or validates a caller's
library. `MockTediousConnection` and `MockData` supply rows in mock mode.

The modules follow the source files:

| file | module | source |
|---|---|---|
| `host.dfy` | `Host` | JavaScript values, errors, results and promise settlement shared by all modules |
| `promise_util.dfy` | `PromiseUtil` | `src/PromiseUtil.js` |
| `tedious_promise_column.dfy` | `TediousPromiseColumn` | `src/TediousPromiseColumn.js` (class `ColumnMapping`) |
| `mock_tedious_connection.dfy` | `MockTediousConnection` | `src/MockTediousConnection.js` (class `MockConnection`) |
| `mock_data.dfy` | `MockData` | `src/MockData.js` (class `MockDataSet`) |
| `tedious_promise.dfy` | `TediousPromise` | `src/TediousPromise.js` (class `QueryBuilder`) |
| `tedious_promises.dfy` | `TediousPromises` | `src/TediousPromises.js` (class `Session`) |

The objects the source updates in place are classes: the session, the unit,
a column mapping, the mock connection and a mock data set. Their setters are
methods with `modifies` clauses. The unit's request handling is a pair:

- a method, `QueryBuilder.RunEvents` or `QueryBuilder.TransformRow`, loops
  over the request's events or a row's cells;
- a specification function, `RunFrom` or `TransformRowSpec`, does the same
  over values.

Each method is proved equal to its function. The lemmas then state, about
the function, what a request promises: row order, a single settlement, how
the promise resolves, and the caching of the column table.

Driver I/O is not modelled. A request's events and completion arrive as a
`Script`. The result of a pool's `acquire` or a connection's `connect`
arrives as an `Opening`. Both are inputs to the methods. In mock mode the
model computes the events itself, from the mock-data callback, as the source
does.

Where the code and the library's documented behaviour differ, the model
follows the code:

- The "cannot set both the connection pool and individual connection
  configuration" checks read fields the session never assigns. So they never
  fire, and the last source set wins (`src/TediousPromises.js:17-19,31-33`).
- `sql` refuses a second call only when the stored SQL is non-empty. After
  `sql("")` a second call succeeds (`src/TediousPromise.js:336`).
- The session's `commitTransaction`, `saveTransaction` and
  `rollbackTransaction` forward to a brand-new unit, which holds no
  connection. So once the session is configured they always fail with a
  TypeError (`src/TediousPromises.js:100-125`).
- `beginTransaction` sets the transaction flag even when the driver reports
  an error (`src/TediousPromise.js:65`).
- `rowTransformer` with an unknown name stores `undefined` as the transformer
  before it throws. The cursor is not cleared (`src/TediousPromise.js:316-320`).
- `setPromiseLibrary` and the column pass-throughs leave the "last column"
  cursor as it is (`src/TediousPromise.js:53-57,433-441`).

## Model

| member | source | states |
|---|---|---|
| PromiseUtil.GetNamedLibrary | src/PromiseUtil.js:25-31 | Succeeds exactly for the own keys "q" and "es6" of the table and returns that library; any other name fails with "not found" naming it. |
| PromiseUtil.GetOrValidateLibrary | src/PromiseUtil.js:74-81 | A string is looked up by name without validation. Any other value is returned unchanged exactly when validation raises nothing, and otherwise fails with validation's error. |
| PromiseUtil.ValidateLibrary | src/PromiseUtil.js:33-72 | The checks in the source's order, with the calls made. Its lemmas state it: FirstFailureIsEarliest, ValidationReportsFirstMissing and ValidationCalls. |
| PromiseUtil.FirstFailureIsEarliest | src/PromiseUtil.js:33-67 | In an ordered list of capability checks, the error reported is that of the earliest failing check. No error is reported exactly when every check passes. |
| PromiseUtil.ValidationReportsFirstMissing | src/PromiseUtil.js:33-72 | Validation reports the first failing check among the four checks on the library. Next come `defer()`'s throw (a TypeError when it returns nothing) and the first failing check among the four checks on the deferred. Last comes whatever `deferred.resolve()` throws. |
| PromiseUtil.ValidationCalls | src/PromiseUtil.js:51-70 | A library that passes has had `defer()` and then `deferred.resolve()` called once each. Any library sees at most those two calls, in that order. |
| PromiseUtil.LibrariesInForceAreValid | src/PromiseUtil.js:74-81 | Every library `getOrValidateLibrary` hands back passes validation: a named one (Q or ES6) as well as a caller's validated one. |
| TediousPromiseColumn.GetValue | src/TediousPromiseColumn.js:36-38 | The default extraction returns the cell's value. |
| TediousPromiseColumn.AsBooleanValue | src/TediousPromiseColumn.js:54-75 | The boolean conversion of a value. Its behaviour is stated by AsBooleanDecisionTable, AsBooleanIgnoresCase and AsBooleanReadsBackBooleanText. |
| TediousPromiseColumn.CellAsBoolean | src/TediousPromiseColumn.js:51-53 | The extractor `asBoolean` installs: the boolean conversion of the cell's value, as ColumnMapping.AsBoolean states. |
| TediousPromiseColumn.AsBooleanDecisionTable | src/TediousPromiseColumn.js:51-76 | null and undefined give null, and only they do. A number gives whether it is non-zero. A string gives true or false exactly when its upper case is one of TRUE/T/Y/YES/1 or FALSE/F/N/NO/0. Everything else fails with "Unable to convert", carrying the value. |
| TediousPromiseColumn.ToUpperIdempotent | src/TediousPromiseColumn.js:63 | Upper-casing twice is upper-casing once. |
| TediousPromiseColumn.AsBooleanIgnoresCase | src/TediousPromiseColumn.js:62-71 | Strings with the same upper case convert alike, and a string converts as its upper case does. |
| TediousPromiseColumn.AsBooleanReadsBackBooleanText | src/TediousPromiseColumn.js:58-71 | "true" and "false" convert back to their booleans, and "1" and "0" convert like the numbers 1 and 0. |
| TediousPromiseColumn.SplitPath | src/TediousPromiseColumn.js:43-44 | Splitting a path on dots gives at least one key. |
| TediousPromiseColumn.SplitJoinPath | src/TediousPromiseColumn.js:43-44 | Splitting a dot-joined path gives back its keys when no key holds a dot. |
| TediousPromiseColumn.JoinSplitPath | src/TediousPromiseColumn.js:43-44 | Joining the pieces of a split path gives back the path. |
| TediousPromiseColumn.SplitAfterPlainPrefix | src/TediousPromiseColumn.js:43-44 | A dot-free prefix joins the first piece of the rest of the path. |
| TediousPromiseColumn.DeepSet | src/TediousPromiseColumn.js:43-44 | `_.deepSet` along split keys. DeepGetAfterSet, DeepSetLeavesOtherPaths and DeepSetTopLevel state what it does. |
| TediousPromiseColumn.DeepGetAfterSet | src/TediousPromiseColumn.js:43-44 | After a deep set along a path, reading along that path gives the value set. |
| TediousPromiseColumn.DeepSetLeavesOtherPaths | src/TediousPromiseColumn.js:43-44 | A deep set leaves every path that diverges from it as it was. |
| TediousPromiseColumn.DeepSetTopLevel | src/TediousPromiseColumn.js:43-44 | At the top level a deep set adds or replaces only the path's first key. |
| TediousPromiseColumn.Apply | src/TediousPromiseColumn.js:40-49 | `_applyMapping` for the default or a custom applier. ApplyFlat, ApplyDeep and ApplyPropagatesExtractionError state what it does. |
| TediousPromiseColumn.ApplyFlat | src/TediousPromiseColumn.js:40-48 | With no path, or the empty path, the extracted value goes under the column's name and every other property is kept. |
| TediousPromiseColumn.ApplyDeep | src/TediousPromiseColumn.js:40-44 | With a path, the extracted value can be read back along the path, and diverging paths are untouched. |
| TediousPromiseColumn.ApplyPropagatesExtractionError | src/TediousPromiseColumn.js:40-41 | When extraction throws, applying the mapping throws the same error. |
| TediousPromiseColumn.SiblingPathsBothReadBack | src/TediousPromiseColumn.js:43-44 | Two columns mapped to sibling paths under one key can both be read back. |
| TediousPromiseColumn.ColumnMapping.constructor | src/TediousPromiseColumn.js:14-15 | A new mapping has the given name and path and the default behaviours. |
| TediousPromiseColumn.ColumnMapping.Create | src/TediousPromiseColumn.js:5-16 | Succeeds exactly for a string name and an undefined or string path. Otherwise it fails with the name error or, failing that, the path error. |
| TediousPromiseColumn.ColumnMapping.OverrideGetValue | src/TediousPromiseColumn.js:18-25 | A function replaces only the extraction and the mapping is returned. Anything else fails and changes nothing. |
| TediousPromiseColumn.ColumnMapping.OverrideApplyMapping | src/TediousPromiseColumn.js:27-34 | A function replaces only the assignment step and the mapping is returned. Anything else fails and changes nothing. |
| TediousPromiseColumn.ColumnMapping.AsBoolean | src/TediousPromiseColumn.js:51-76 | Installs the boolean extractor. Afterwards extraction from any cell is the boolean conversion of its value. |
| MockTediousConnection.CellsOf | src/MockTediousConnection.js:51-61 | One cell per property of a plain row, in order, carrying the key as column name and the value. |
| MockTediousConnection.Emissions | src/MockTediousConnection.js:60-65 | One emitted row per data row, each carrying exactly that row's cells (corrected behaviour, see Findings). |
| MockTediousConnection.EmissionsAsWritten | src/MockTediousConnection.js:49-65 | As written, one emission per data row. |
| MockTediousConnection.BufferGrowsByEachRow | src/MockTediousConnection.js:49-65 | As written, each emission is the previous one followed by the next row's cells. |
| MockTediousConnection.RowBufferNeverReset | src/MockTediousConnection.js:49-65 | Two rows with different columns: the second emission as written also carries the first row's cell, unlike the corrected one. |
| MockTediousConnection.AllCellsFlatten | src/MockTediousConnection.js:49-65 | As written, each emission is the driver row of one object: the data rows' properties up to that row, one after the other. |
| MockTediousConnection.MockConnection.constructor | src/MockTediousConnection.js:6-9 | A new mock connection's last transaction action is "none". |
| MockTediousConnection.MockConnection.BeginTransaction | src/MockTediousConnection.js:11-14 | Records "begin" and reports no error. |
| MockTediousConnection.MockConnection.SaveTransaction | src/MockTediousConnection.js:16-19 | Records "save" and reports no error. |
| MockTediousConnection.MockConnection.CommitTransaction | src/MockTediousConnection.js:21-24 | Records "commit" and reports no error. |
| MockTediousConnection.MockConnection.RollbackTransaction | src/MockTediousConnection.js:26-29 | Records "rollback" and reports no error. |
| MockTediousConnection.MockConnection.ExecSql | src/MockTediousConnection.js:31-77 | The row count is 0. No data emits nothing. An array emits one row per data row with that row's cells (corrected behaviour, see Findings). Other data fails with "must be an array". A throwing callback completes with its error. |
| MockTediousConnection.MockConnection.CallProcedure | src/MockTediousConnection.js:79-81 | Behaves exactly as `execSql` (corrected behaviour, see Findings). |
| MockData.ValueOfAppend | src/MockData.js:35 | Appending a property to a row does not change an existing key's value and adds the new key's. |
| MockData.ValueOfFindsKey | src/MockData.js:35 | A row has a value for a key exactly when the key is among its keys. |
| MockData.FlattenValues | src/MockData.js:5 | The flattened table has the parameters' names, each with its parameter's value. |
| MockData.DifferenceMembers | src/MockData.js:10 | The missing names are exactly the listed names that are not parameters. |
| MockData.DifferenceOfCoveredNames | src/MockData.js:10-11 | Nothing is missing when every listed name is a parameter. |
| MockData.FlattenParametersChecksNames | src/MockData.js:4-22 | Succeeds exactly when no list is given or the list names exactly the parameters. A missing name is reported (with every missing name) before an extra one. Success yields the flattened values. |
| MockData.FlattenParameters | src/MockData.js:4-22 | `flattenTediousPromiseParameters`; FlattenParametersChecksNames states what it does. |
| MockData.PickKeepsListedProperties | src/MockData.js:35 | A picked row has exactly the listed properties of the row, with the same values. |
| MockData.Pick | src/MockData.js:35 | `_.pick` over a list of keys; PickKeepsListedProperties states what it keeps. |
| MockData.IndexKey | src/MockData.js:35 | The key an array index becomes: a non-empty string of decimal digits. |
| MockData.PickKeys | src/MockData.js:35 | The keys `_.pick` receives for row i through `_.map` and `_.partialRight`: the index, "[object Object]" for the collection's rows, and the listed names, and no other. |
| MockData.PickEach | src/MockData.js:35 | Row i keeps exactly its properties named by a listed name, by its own index or by "[object Object]". |
| MockData.WhereKeepsMatches | src/MockData.js:44 | Exactly the rows matching every criterion are kept. |
| MockData.WhereRows | src/MockData.js:44 | `_.where` with equality matching; WhereKeepsMatches, WhereKeepsOrder and WhereIdempotent state what it does. |
| MockData.WhereKeepsOrder | src/MockData.js:44 | Filtering distributes over concatenation, so row order is kept. |
| MockData.WhereIdempotent | src/MockData.js:44 | Filtering twice by the same criteria filters once. |
| MockData.MockDataSet.Create | src/MockData.js:24-30 | Succeeds exactly for defined, non-empty data, which it keeps. Otherwise it fails with "No mock data". |
| MockData.MockDataSet.Select | src/MockData.js:32-39 | Given a list of names, every row keeps exactly the listed properties and, as written, also the property named by its own index and one named "[object Object]", in row order. Otherwise the data is returned as is. |
| MockData.MockDataSet.SelectListed | src/MockData.js:32-39 | Corrected `select`: given a list of names, every row keeps exactly the listed properties, in row order. Otherwise the data is returned as is. |
| MockData.SelectKeepsIndexKey | src/MockData.js:35 | A row `{"0": "a", x: 1}` selected by `["x"]` keeps "0" as written, and only "x" as corrected. |
| MockData.MockDataSet.Where | src/MockData.js:41-50 | A failed name check throws and changes nothing. Otherwise the data becomes the matching rows, and throws "No mock data found" with the criteria when none match. |
| TediousPromise.SourceOf | src/TediousPromise.js:9-23 | The mode/option pair is accepted exactly for "pool" with an `acquire` function, "single" with an object, or "mock" with a function. Otherwise the constructor throws "Invalid arguments". |
| TediousPromise.DefaultMapping | src/TediousPromise.js:204-208 | Without a renamer the default mapping has no path. With one, its path is the renamed name, and a renamed value that is neither a string nor undefined fails. |
| TediousPromise.Lookup | src/TediousPromise.js:198-214 | The corrected `_getColumnMap` on the column table; LookupIsCached states what it does. |
| TediousPromise.LookupIsCached | src/TediousPromise.js:198-214 | A lookup only ever adds the looked-up name. A stored mapping is returned and nothing changes. A new one is stored, so looking it up again returns it unchanged. A failed lookup changes nothing. |
| TediousPromise.InheritedColumnNameThrows | src/TediousPromise.js:198-225 | A column named "constructor": as written, the lookup finds the inherited member and mapping it throws a TypeError. The corrected lookup gives it a default mapping under its own name. |
| TediousPromise.LookupAsWritten | src/TediousPromise.js:198-214 | `_getColumnMap` as written; InheritedColumnNameThrows and LookupAsWrittenAgreesElsewhere state what it does. |
| TediousPromise.LookupAsWrittenAgreesElsewhere | src/TediousPromise.js:198-214 | Away from the inherited names, the as-written lookup is the corrected one. |
| TediousPromise.NamedTransformer | src/TediousPromise.js:312-320 | Only "rowToObject" and "rowToArray" name a transformer. |
| TediousPromise.RowToObjectFrom | src/TediousPromise.js:217-228 | `rowToObject` from one cell on; RowToObjectExtends, RowToObjectIsCached and PlainRowToObject state what it does. |
| TediousPromise.RowToArrayFrom | src/TediousPromise.js:230-241 | `rowToArray` from one cell on; RowToArrayExtends, RowToArrayShape and RowToArrayIsCached state what it does. |
| TediousPromise.TransformRowSpec | src/TediousPromise.js:216-242 | `_transformRow` for the built-ins, a caller's function or an undefined transformer; TransformIsCached and QueryBuilder.TransformRow state what it does. |
| TediousPromise.RowToObjectExtends | src/TediousPromise.js:217-228 | `rowToObject` only adds mappings to the column table. |
| TediousPromise.RowToObjectIsCached | src/TediousPromise.js:217-228 | Re-running `rowToObject` on a table that holds its mappings gives the same object and adds nothing. |
| TediousPromise.RowToArrayExtends | src/TediousPromise.js:230-241 | `rowToArray` only adds mappings to the column table. |
| TediousPromise.RowToArrayShape | src/TediousPromise.js:230-241 | `rowToArray` yields one value per cell, in cell order, each extracted by its column's mapping. |
| TediousPromise.RowToArrayIsCached | src/TediousPromise.js:230-241 | Re-running `rowToArray` on a table that holds its mappings gives the same array and adds nothing. |
| TediousPromise.TransformIsCached | src/TediousPromise.js:275 | Re-running any transformer that succeeded, on the table it produced, gives the same result and the same table. |
| TediousPromise.PlainRowToObject | src/TediousPromise.js:217-228 | With default mappings and no renamer, `rowToObject` on the cells of a plain row rebuilds the row as an object. |
| TediousPromise.ToFieldsFromDistinct | src/TediousPromise.js:217-228 | With distinct keys, the rebuilt object has exactly the row's keys, each with its value. |
| TediousPromise.ToFieldsFromAppend | src/TediousPromise.js:217-228 | Assigning two rows' properties in turn is assigning those of their concatenation. |
| TediousPromise.ToFieldsFromDomain | src/TediousPromise.js:217-228 | The rebuilt object has the keys already there and the row's keys, and no other. |
| TediousPromise.ToFieldsFromOverwrites | src/TediousPromise.js:217-228 | Assigning a row's properties overwrites every key the row has, so the starting object matters only outside them. |
| TediousPromise.HandleOutputParameter | src/TediousPromise.js:192-196 | Calls the registered callback exactly when the name is registered and its callback is a function, and reports what it throws. Otherwise it does nothing. |
| TediousPromise.Step | src/TediousPromise.js:272-293 | The `row` and `returnValue` handlers; FirstSettlementWins, RowsGoOneWay and OnlyCompletionResolves state what they do. |
| TediousPromise.RunFrom | src/TediousPromise.js:272-293 | The handlers over a request's events; RunCollectsInOrder, RunDeliversInOrder and QueryBuilder.RunEvents state what it does. |
| TediousPromise.Finish | src/TediousPromise.js:248-269 | The completion callback; RequestSettles and ForEachRowResolvesWithCount state what it does. |
| TediousPromise.FirstSettlementWins | src/TediousPromise.js:256-284 | Once settled, the promise stays as it is whatever events and completion follow. |
| TediousPromise.RowsGoOneWay | src/TediousPromise.js:277-281 | With `forEachRow` no row is collected. Without it no row is handed to a callback. |
| TediousPromise.RunCollectsInOrder | src/TediousPromise.js:272-285 | Without `forEachRow`, when every row transforms, the results are the transformed rows in arrival order, and nothing settles the promise. |
| TediousPromise.RunDeliversInOrder | src/TediousPromise.js:272-285 | With `forEachRow` accepting every row, when every row transforms, each transformed row reaches the callback in arrival order, none is collected, and nothing settles the promise. |
| TediousPromise.RequestSettles | src/TediousPromise.js:256-266 | A driver error rejects with that error. Otherwise the promise resolves with the row count under `returnRowCount`, and with the rows in arrival order otherwise. |
| TediousPromise.ForEachRowResolvesWithCount | src/TediousPromise.js:256-285 | With `forEachRow`, when no row, callback or output value fails and the driver reports no error, the promise resolves with the row count, every transformed row has reached the callback in order, and no row is collected. |
| TediousPromise.ForEachRowNeverCollects | src/TediousPromise.js:261-281 | With `forEachRow`, whatever fails, no row is collected and a resolved promise carries the row count. |
| TediousPromise.OnlyCompletionResolves | src/TediousPromise.js:272-293 | Rows and output values can reject the promise but never resolve it. |
| TediousPromise.RowEvents | src/TediousPromise.js:272 | One row event per emitted row, in order. |
| TediousPromise.PlainRunRebuildsRows | src/TediousPromise.js:272-285 | With a new unit's settings, the mock connection's rows come back as the data's objects, in order (corrected behaviour, see Findings). |
| TediousPromise.MockQueryRoundTrip | src/TediousPromise.js:244-310 | In mock mode with default settings, the request resolves with one object per data row, rebuilt from the row's properties (corrected behaviour, see Findings). |
| TediousPromise.AsWrittenEmissionRebuildsRow | src/MockTediousConnection.js:49-65 | As written, when every data row has the same keys in the same order, the object rebuilt from emission i is still row i: its cells overwrite the earlier rows'. |
| TediousPromise.MockQueryRoundTripAsWritten | src/MockTediousConnection.js:49-65 | On the emissions as written, a request whose rows all have the same keys in the same order still resolves with one object per data row, equal to that row. |
| TediousPromise.ColumnMappingFor | src/TediousPromise.js:355-363 | A string mapping becomes a path. Any value other than a string or undefined fails with its type. |
| TediousPromise.ColumnWithoutMappingIsDefault | src/TediousPromise.js:355-359 | Declaring a column without a mapping gives it the mapping a row would have given it. |
| TediousPromise.OutputParameterCallsBack | src/TediousPromise.js:381-398 | A registered output value reaches the function given as `value` in the short form, or as `callback` in the long form. A non-function callback is never called. |
| TediousPromise.OutputEntry | src/TediousPromise.js:381-402 | The short or long form of an output parameter; OutputParameterCallsBack states which function gets the value. |
| TediousPromise.DisposalFor | src/TediousPromise.js:171-190 | Mock mode disposes of nothing. Pool mode calls `release` when it is a function. Single mode calls `close`. |
| TediousPromise.AcquireDecision | src/TediousPromise.js:128-143 | The pool callback rejects exactly on an error. It releases the connection handed over, and a missing `release` or a throwing one replaces the error. |
| TediousPromise.ConnectDecision | src/TediousPromise.js:149-161 | The `connect` handler rejects exactly on an error, after calling `close`. A throwing `close` replaces the error. |
| TediousPromise.OpenError | src/TediousPromise.js:116-169 | The error, if any, with which opening a connection rejects, per mode; QueryBuilder.CreateConnection and the BeginTransaction methods state its use. |
| TediousPromise.MockScript | src/MockTediousConnection.js:31-77 | The events and completion of the mock connection for the callback's outcome (corrected behaviour, see Findings); MockRequest states its use. |
| TediousPromise.MockRequest | src/TediousPromise.js:303-307 | A request on a mock connection runs the events and completion derived from the mock callback's outcome (corrected behaviour, see Findings). |
| TediousPromise.QueryBuilder.constructor | src/TediousPromise.js:25-41 | A new unit has no SQL, no columns, parameters or callbacks, `rowToObject`, the "q" library and no cursor. |
| TediousPromise.QueryBuilder.New | src/TediousPromise.js:9-42 | Succeeds exactly when the mode/option pair is accepted, with a new unit of that source. Otherwise it fails with "Invalid arguments". |
| TediousPromise.QueryBuilder.SetPromiseLibrary | src/TediousPromise.js:53-57 | Replaces the library only when lookup or validation succeeds. Nothing else changes. |
| TediousPromise.QueryBuilder.Sql | src/TediousPromise.js:335-347 | A stored non-empty SQL refuses. A non-string fails naming its type. Otherwise the SQL is set and the cursor cleared. |
| TediousPromise.QueryBuilder.Column | src/TediousPromise.js:349-368 | Stores the given mapping object, or one built from the mapping argument, under the name, and points the cursor at it. A bad mapping type fails and changes nothing. |
| TediousPromise.QueryBuilder.Parameter | src/TediousPromise.js:370-379 | (Re)binds the parameter under its name and clears the cursor. |
| TediousPromise.QueryBuilder.OutputParameter | src/TediousPromise.js:381-402 | Registers the output parameter in the short or long form and clears the cursor. |
| TediousPromise.QueryBuilder.ForEachRow | src/TediousPromise.js:404-412 | A function is installed and the cursor cleared. Anything else fails and changes nothing. |
| TediousPromise.QueryBuilder.ReturnRowCount | src/TediousPromise.js:329-333 | Sets the row-count flag and clears the cursor. |
| TediousPromise.QueryBuilder.RowTransformer | src/TediousPromise.js:312-327 | A function or known name is installed and the cursor cleared. An unknown name installs nothing usable and fails. Any other value fails and changes nothing. |
| TediousPromise.QueryBuilder.AsBoolean | src/TediousPromise.js:433-441 | Only after `column`: the mapping under the cursor then reads booleans. |
| TediousPromise.QueryBuilder.OverrideGetValue | src/TediousPromise.js:433-441 | Only after `column`: forwards to the mapping under the cursor. |
| TediousPromise.QueryBuilder.OverrideApplyMapping | src/TediousPromise.js:433-441 | Only after `column`: forwards to the mapping under the cursor. |
| TediousPromise.QueryBuilder.GetColumnMap | src/TediousPromise.js:198-214 | Returns the stored mapping, or stores and returns a new default one, exactly as the lookup function says. Nothing else changes. |
| TediousPromise.QueryBuilder.TransformRow | src/TediousPromise.js:216-275 | The transformed row and the column table afterwards are those of the transformer specification. |
| TediousPromise.QueryBuilder.RunEvents | src/TediousPromise.js:272-293 | Processing the request's events gives exactly the state of the event-run specification. The settings are unchanged. |
| TediousPromise.QueryBuilder.DisposeConnection | src/TediousPromise.js:171-190 | Releases or closes the driver connection as the mode demands. A mock connection is untouched. |
| TediousPromise.QueryBuilder.CreateConnection | src/TediousPromise.js:116-169 | A held connection is reused. Otherwise a new mock connection, the pool's connection or a new single connection is opened, failing exactly when the opening fails and releasing or closing as the callbacks do. |
| TediousPromise.QueryBuilder.ExecuteRequest | src/TediousPromise.js:244-310 | The promise settles as the run and completion specifications say. The connection is disposed outside a transaction, and inside one only the SQL is cleared. |
| TediousPromise.QueryBuilder.Submit | src/TediousPromise.js:414-430 | Clears the cursor, then rejects when no connection opens, and otherwise settles as the request specification says. |
| TediousPromise.QueryBuilder.Execute | src/TediousPromise.js:414-421 | As `Submit`, for a statement. |
| TediousPromise.QueryBuilder.CallProcedure | src/TediousPromise.js:423-430 | As `Submit`, for a procedure call. |
| TediousPromise.QueryBuilder.BeginTransaction | src/TediousPromise.js:59-74 | Holds the opened connection and sets the transaction flag whatever the driver answers. It resolves with the unit unless the driver reports an error. |
| TediousPromise.QueryBuilder.CommitTransaction | src/TediousPromise.js:76-88 | Without a held connection it fails with a TypeError. Otherwise success clears the flag and disposes of the connection, and an error changes nothing. |
| TediousPromise.QueryBuilder.SaveTransaction | src/TediousPromise.js:90-100 | Without a held connection it fails with a TypeError. Otherwise it never disposes of the connection. |
| TediousPromise.QueryBuilder.RollbackTransaction | src/TediousPromise.js:102-114 | As commit: success clears the flag and disposes of the connection. |
| TediousPromises.GuardMessagesNameConfigAndPool | src/TediousPromises.js:82-103 | Both forms of the "configure first" message mention the configuration and the pool. |
| TediousPromises.UnitSettings | src/TediousPromises.js:68-80 | A new unit carries the session's renamer, and its library when one is set ("q" otherwise), with no SQL and no connection. |
| TediousPromises.Session.constructor | src/TediousPromises.js:6-10 | A new session has no mode, option, renamer or library, and is not configured. |
| TediousPromises.Session.SetConnectionPool | src/TediousPromises.js:12-24 | Succeeds exactly for an object with an `acquire` function, switching to pool mode whatever was set before. Otherwise it fails and changes nothing. |
| TediousPromises.Session.SetConnectionConfig | src/TediousPromises.js:26-38 | Succeeds exactly for an object whose `userName` is a string, switching to single mode whatever was set before. Otherwise it fails and changes nothing. |
| TediousPromises.Session.SetPromiseLibrary | src/TediousPromises.js:40-42 | Keeps the library only when lookup or validation succeeds. |
| TediousPromises.Session.SetMockDataCallback | src/TediousPromises.js:49-57 | Succeeds exactly for a function, switching to mock mode. Otherwise it fails and changes nothing. |
| TediousPromises.Session.SetDefaultColumnRenamer | src/TediousPromises.js:59-66 | Succeeds exactly for a function, which becomes the renamer. Otherwise it fails and changes nothing. |
| TediousPromises.Session.CreateUnit | src/TediousPromises.js:68-80 | A new unit for the current mode and option, carrying the session's renamer and library. |
| TediousPromises.Session.Sql | src/TediousPromises.js:82-89 | An unconfigured session fails with the guard message. Otherwise it returns a new unit with the SQL set exactly when the SQL is a string. |
| TediousPromises.Session.BeginTransaction | src/TediousPromises.js:91-98 | An unconfigured session fails with the guard message. Otherwise a transaction begins on a new unit: it rejects with the opening error in pool or single mode, then with the driver's begin error outside mock mode, and otherwise resolves. A resolved unit is new, in a transaction, holds its connection and carries the session's renamer and library. |
| TediousPromises.Session.CommitTransaction | src/TediousPromises.js:118-125 | An unconfigured session fails with the misspelt guard message. Otherwise the call always fails with a TypeError. |
| TediousPromises.Session.SaveTransaction | src/TediousPromises.js:109-116 | An unconfigured session fails with the misspelt guard message. Otherwise the call always fails with a TypeError. |
| TediousPromises.Session.RollbackTransaction | src/TediousPromises.js:100-107 | An unconfigured session fails with the misspelt guard message. Otherwise the call always fails with a TypeError. |

## Left out

- `asDate` (`src/TediousPromiseColumn.js:78-90`): dates and `Date.parse` are not modelled.
- Numbers are integers. Fractions, `NaN` and the infinities are one `NonFinite` value, which `asBoolean` refuses like `_.isFinite` does.
- `_.deepSet` is modelled on plain dotted keys only. Escaped dots and numeric segments that create arrays are not modelled. An intermediate array is replaced by an object, where `_.deepSet` would write into the array.
- `toUpperCase` is modelled for ASCII letters and the two characters that upper-case to a single ASCII letter. Other Unicode case mappings are not.
- Connection I/O: the pool's `acquire`, the `connect` event and the driver's events come in as inputs (`Opening`, `Script`), not from a network.
- `Request` construction and `addParameter`/`addOutputParameter` binding of parameters to the driver are not modelled. The parameter tables are.
- The mock callback's `this.outputParameter` scope (`src/MockTediousConnection.js:37-42`) is not modelled. A mock callback cannot call output-parameter handlers.
- A custom row transformer is a function of the row alone. A transformer that calls `getColumnMap` is not modelled.
- TediousPromise.QueryBuilder.RowTransformer: does not model names inherited by the `transformers` object (such as "toString"), which the source would install as a transformer.
- The key order of objects built by `_.pick` follows the list of names. The order of names in "extra parameters" messages is not modelled; they are a set.
- `_.where` is modelled as equality of each criterion. Its partial deep matching of object and array values is not modelled.
- MockData.MockDataSet.Select: `_.pick` keeps a listed name that only an inherited member answers (such as "constructor"), since it tests with `in`. The model's rows have no inherited members, so such names are not kept.
- The start-up loop that installs the pass-throughs and refuses duplicates (`src/TediousPromise.js:444-452`) is not modelled; the three pass-throughs are methods.
- `enableDebugLogging` does nothing and is left out. `src/index.js` is not part of this model.
- Column names and parameter names are strings. Non-string names are not modelled.
- `new MockData(null)` and non-array data with a `length` are not modelled. Data is either absent or a list of rows.
- A default column renamer that throws is not modelled.
- A `release` or `close` that throws while a request completes is not modelled. The source would reject with that error instead.
- Promise libraries are assumed to behave as promises do: a promise settles at most once, the first settlement wins.
- "__proto__" as a column name in `column()` is not modelled. The corrected lookup treats every name as an own key.
- Function objects used as a connection pool or configuration (functions with an `acquire` or `userName` property) are not modelled.

## Findings

| source | as written | input that shows it | evidently intended | confidence | as-written member | corrected member |
|---|---|---|---|---|---|---|
| src/MockTediousConnection.js:49-65 | The row buffer `row` is created once before the loop and never emptied, so emission i carries the cells of data rows 0 to i. | data `[{col1: 1}, {col2: 2}]`: the second emitted row has cells col1 and col2. | Each emitted row carries only its own data row's cells. | high; not executed | MockTediousConnection.RowBufferNeverReset | MockTediousConnection.MockConnection.ExecSql |
| src/TediousPromise.js:198-214 | `this._columns[colName]` also finds members inherited from `Object.prototype`, so no default mapping is made and `_applyMapping` is then called on a function. | a result column named "constructor" (or "toString", "valueOf", ...) with `rowToObject`: TypeError. | Unknown column names, whatever they are, get a default mapping. | high; not executed | TediousPromise.InheritedColumnNameThrows | TediousPromise.QueryBuilder.GetColumnMap |
| src/MockData.js:35 | `_.map` calls `_.partialRight(_.pick, names)` with the row, its index and the collection, and `_.pick` flattens them all into its key list, so a row keeps its property named by its own index and one named "[object Object]". | data `[{"0": "a", x: 1}]`, `select(["x"])`: the row keeps "0" as well as "x". | Each row keeps only the listed properties. | medium; not executed | MockData.SelectKeepsIndexKey | MockData.MockDataSet.SelectListed |
