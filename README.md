# DataAccess, modelled in Dafny

DataAccess is a thin layer over ADO.NET for SQL Server. A data-access class
derives from `ConnectorBase` and calls stored procedures by name. It passes
the parameters as a `Dictionary<string, object>`, and either collects the
rows a procedure returns or reads its return value. This model covers the
rules that sit beneath the driver calls:

- **`SqlConnector`** holds at most one transaction at a time, in two fields.
  It is modelled as a class with a `connection` and a `transaction` field.
  Connections and transactions are objects, and a newly created one is
  `fresh`. The class invariant `Valid` says the connection is set exactly
  when the transaction is, and that the transaction runs on that connection.
- **`ConnectorBase`**:
  - the argument checks, all made before a command exists; a ghost counter
    of created commands shows this;
  - building the stored-procedure command;
  - one input parameter per dictionary entry, each typed by the resolver
    registry;
  - the search for a free `ReturnValue` / `ReturnValue{k}` parameter name;
  - the row loop;
  - reading the return value back.
- **`DataReaderExtensions`** covers column reads. There is one policy for a
  non-nullable read and one for a nullable read, plus typed wrappers over
  them.
- **The resolver registry** is the lazily built list in
  `ParameterTypeResolvers`. Lookup takes the first resolver whose type
  matches the value's exact runtime type. `ParameterTypeResolverBase<T>`
  casts the value, and the DateTime resolver sends dates before 1753-01-01
  as `datetime2`.
- **`CommandParameter`** is an immutable record.

`CreateParameter` types a parameter with the pure lookup
`ResolveTypeIn(FindResolvers(), value)`, not through the `Registry` class
that models the lazily built static list. The two give the same answer:
`Registry.ResolveType` ensures its result is that lookup.

The CLR is modelled only as far as the layer depends on it (module `Clr`):

- runtime types and `is`;
- `default(T)`;
- `string.IsNullOrEmpty`;
- `DateTime` as 100-nanosecond ticks from 0001-01-01, with the Gregorian
  day count;
- exceptions as `Error` tags without message text.

`null` is `None`. The driver's side (module `Driver`) is values and plain
objects: parameters, one positioned reader row, commands, connections and
transactions. What the server does is passed in as functions:

- `rowsFor` stands for `ExecuteReader`;
- `returnValueFor` stands for `ExecuteNonQuery`.

The interfaces `IDbConnector`, `ITransactionController`,
`IParameterTypeResolver` and `IRowReader` are not modelled as types of their
own:

- `ConnectorBase` holds a `SqlConnector`;
- a resolver is a datatype carrying its type and its rule;
- a row reader is a function.

`AttachReturnValue` reads `parameters.ContainsKey` without a null check. So
`ExecuteCommand` with a null dictionary raises `NullReferenceException`
once the command has been built, although `Execute` itself accepts a null
dictionary. The model keeps this behaviour: the result is
`Failure(NullReference)`.

## Model

| member | source | states |
|---|---|---|
| CommandParameter.Create | DataAccess/CommandParameter.cs:38-86 | the three getters return exactly the constructor's arguments; no argument is refused (null or empty name, null value) |
| CommandParameter.CreateUntyped | DataAccess/CommandParameter.cs:50-53 | the two-argument constructor gives the same name and value and no database type |
| ParameterTypeResolverBase.ParameterTypeResolver.SupportedType | DataAccess/TypeResolvers/ParameterTypeResolverBase.cs:23-29 | any value whose runtime type is exactly the supported type passes the cast unchanged, so a resolver chosen by the registry's exact-type comparison never raises |
| ParameterTypeResolverBase.ParameterTypeResolver.Cast | DataAccess/TypeResolvers/ParameterTypeResolverBase.cs:54-67 | succeeds exactly for null or an instance of T; null gives default(T); an instance of T comes back unchanged; anything else raises InvalidOperationException naming both types |
| ParameterTypeResolverBase.ParameterTypeResolver.ResolveType | DataAccess/TypeResolvers/ParameterTypeResolverBase.cs:36-40 | succeeds exactly when the cast does, with the T-specific rule applied to the cast value; the cast's exception propagates |
| ParameterTypeResolverBase.DerivedInstanceCasts | DataAccess/TypeResolvers/ParameterTypeResolverBase.cs:61-64 | an instance of a class derived from T passes the cast, because the cast follows `is` |
| DateTimeResolver.Threshold | DataAccess/TypeResolvers/DateTimeResolver.cs:25 | 1753-01-01 is the number of ticks in the days before the year 1753 |
| DateTimeResolver.ResolveTypeInternal | DataAccess/TypeResolvers/DateTimeResolver.cs:23-31 | DateTime2 exactly for a value of fewer than 552877920000000000 ticks (before 1753-01-01), and no override otherwise |
| DateTimeResolver.Resolver | DataAccess/TypeResolvers/DateTimeResolver.cs:16 | the resolver supports exactly DateTime, and its rule on a DateTime is ResolveTypeInternal |
| DateTimeResolver.ResolveByYear | DataAccess/TypeResolvers/DateTimeResolver.cs:23-31 | for every calendar date, the rule gives DateTime2 exactly when the year is before 1753, and no override otherwise |
| DateTimeResolver.ThresholdIsExclusive | DataAccess/TypeResolvers/DateTimeResolver.cs:25-30 | the comparison is strict: 1753-01-01 itself gets no override, and the tick before it gets DateTime2 |
| DateTimeResolver.CastYieldsDateTime | DataAccess/TypeResolvers/ParameterTypeResolverBase.cs:54-67 | a successful cast by the DateTime resolver always yields a DateTime, so its rule always applies |
| DateTimeResolver.MinValueResolvesToDateTime2 | UnitTests/TypeResolvers/DateTimeResolverTests.cs:37-44 | DateTime.MinValue resolves to DateTime2 |
| DateTimeResolver.CurrentDateResolvesToNone | UnitTests/TypeResolvers/DateTimeResolverTests.cs:25-31 | any date from 1753-01-01 on, such as the current date, resolves to no override |
| DateTimeResolver.NullResolvesToDateTime2 | DataAccess/TypeResolvers/ParameterTypeResolverBase.cs:56-59 | null passed to the resolver directly becomes default(DateTime) = MinValue, and so gives DateTime2 |
| DateTimeResolver.OtherValuesRaise | DataAccess/TypeResolvers/ParameterTypeResolverBase.cs:66 | any value other than a DateTime, passed to the resolver directly, raises InvalidOperationException |
| ParameterTypeResolvers.FirstSupporting | DataAccess/ParameterTypeResolvers.cs:53 | finds the first resolver whose supported type equals the type; none is found exactly when no resolver supports it |
| ParameterTypeResolvers.ResolveTypeIn | DataAccess/ParameterTypeResolvers.cs:46-60 | null gives no override; a value no resolver supports exactly gives no override; otherwise the result is the first supporting resolver's, whose cast cannot raise |
| ParameterTypeResolvers.FindResolvers | DataAccess/ParameterTypeResolvers.cs:66-69 | the list holds exactly one resolver, for DateTime, and resolving a DateTime with it never raises and gives ResolveTypeInternal's answer |
| ParameterTypeResolvers.RegistryResolution | DataAccess/ParameterTypeResolvers.cs:66-69 | with the registry as built, a DateTime gets the DateTime rule and every other value, null included, gets no override |
| ParameterTypeResolvers.DerivedTypesDoNotMatch | DataAccess/ParameterTypeResolvers.cs:53 | the lookup is by exact type: a resolver for a base class gives no override for a derived instance, although its cast would accept that instance |
| ParameterTypeResolvers.FirstResolverWins | DataAccess/ParameterTypeResolvers.cs:53 | when two resolvers support the same type, the earlier one decides |
| ParameterTypeResolvers.Registry.constructor | DataAccess/ParameterTypeResolvers.cs:23 | the static list starts out null |
| ParameterTypeResolvers.Registry.Resolvers | DataAccess/ParameterTypeResolvers.cs:28-39 | the list is built on first access and the same list is returned afterwards; it is always the list FindResolvers yields |
| ParameterTypeResolvers.Registry.ResolveType | DataAccess/ParameterTypeResolvers.cs:46-60 | null is answered without touching the list; otherwise the list is built if needed; the result is the first-exact-match lookup |
| InvariantFormat.DecimalString | DataAccess/ConnectorBase.cs:270 | the invariant-culture rendering of a non-negative integer is a non-empty string of digits with no leading zero |
| InvariantFormat.DecimalRoundTrip | DataAccess/ConnectorBase.cs:270 | reading the rendered digits back gives the number |
| InvariantFormat.DecimalStringInjective | DataAccess/ConnectorBase.cs:270 | different numbers are rendered differently |
| Driver.FindParameter | DataAccess/ConnectorBase.cs:156 | `Parameters[name]` finds a parameter of that name, taken from the collection; it raises IndexOutOfRangeException exactly when no parameter has that name, and never gives null |
| Driver.Item | DataAccess/DataReaderExtensions.cs:45 | `reader[columnName]` returns the column's stored value, and raises IndexOutOfRangeException exactly when the row has no such column |
| Driver.DbCommand.constructor | DataAccess/SqlConnector.cs:140 | a new command has empty text, type Text, no parameters, no connection and no transaction |
| Driver.CheckTransaction | DataAccess/ConnectorBase.cs:100 | `ExecuteReader` and `ExecuteNonQuery` run exactly when the command is enlisted in the transaction pending on its connection; a command left unenlisted while one is pending raises InvalidOperationException |
| DataReaderExtensions.ReadObject | DataAccess/DataReaderExtensions.cs:28-46 | raises for a null reader, then a null or empty column name, then a closed reader, in that order; otherwise returns the stored value unchanged |
| DataReaderExtensions.ReadValueType | DataAccess/DataReaderExtensions.cs:166-181 | a null converter raises first; ReadObject's exception passes through; a null column raises InvalidOperationException; any other value gives the converter's result |
| DataReaderExtensions.ReadValueTypeNullable | DataAccess/DataReaderExtensions.cs:191-206 | a null converter raises first; ReadObject's exception passes through; a null column gives null; any other value gives the converter's result |
| DataReaderExtensions.ReadReferenceType | DataAccess/DataReaderExtensions.cs:216-231 | the non-nullable policy, as for ReadValueType |
| DataReaderExtensions.ReadReferenceTypeNullable | DataAccess/DataReaderExtensions.cs:241-256 | the nullable policy, as for ReadValueTypeNullable |
| DataReaderExtensions.ReadsStoredValue | UnitTests/DataReaderExtensionsTests.cs:27-57 | a column holding a value is read back as that value, and the generic readers return what the converter makes of it |
| DataReaderExtensions.NullableAgreesWithNonNullable | DataAccess/DataReaderExtensions.cs:175-205 | the nullable and non-nullable readers agree except on a null column, where one gives null and the other raises |
| DataReaderExtensions.ReadInt16 | DataAccess/DataReaderExtensions.cs:54-57 | the non-nullable policy with Convert.ToInt16 |
| DataReaderExtensions.ReadInt16Nullable | DataAccess/DataReaderExtensions.cs:65-68 | the nullable policy with Convert.ToInt16 |
| DataReaderExtensions.ReadInt32 | DataAccess/DataReaderExtensions.cs:76-79 | the non-nullable policy with Convert.ToInt32 |
| DataReaderExtensions.ReadInt32Nullable | DataAccess/DataReaderExtensions.cs:87-90 | the nullable policy with Convert.ToInt32 |
| DataReaderExtensions.ReadInt64 | DataAccess/DataReaderExtensions.cs:98-101 | the non-nullable policy with Convert.ToInt64 |
| DataReaderExtensions.ReadInt64Nullable | DataAccess/DataReaderExtensions.cs:109-112 | the nullable policy with Convert.ToInt64 |
| DataReaderExtensions.ReadString | DataAccess/DataReaderExtensions.cs:120-123 | the non-nullable policy with Convert.ToString |
| DataReaderExtensions.ReadStringNullable | DataAccess/DataReaderExtensions.cs:131-134 | the nullable policy with Convert.ToString |
| DataReaderExtensions.ReadDateTime | DataAccess/DataReaderExtensions.cs:142-145 | the non-nullable policy with Convert.ToDateTime |
| DataReaderExtensions.ReadDateTimeNullable | DataAccess/DataReaderExtensions.cs:153-156 | the nullable policy with Convert.ToDateTime |
| SqlConnector.CreateParameter | DataAccess/SqlConnector.cs:158-161 | a new parameter has no name, a null value, direction Input and no database type |
| SqlConnector.SqlConnector.constructor | DataAccess/SqlConnector.cs:39-42 | a new connector keeps its connection string, is Idle and has created no commands |
| SqlConnector.SqlConnector.IsTransactionInProgress | DataAccess/SqlConnector.cs:55-61 | true exactly when a transaction is held; under the invariant, also exactly when a connection is held, so a connector with no transaction in progress is Idle |
| SqlConnector.SqlConnector.PendingOn | DataAccess/SqlConnector.cs:26-33 | the transaction pending on a connection is the connector's transaction when the connector holds that connection, and none for any other connection |
| SqlConnector.SqlConnector.CreateConnection | DataAccess/SqlConnector.cs:183-201 | a new connection on the connector's connection string |
| SqlConnector.SqlConnector.Connection | DataAccess/SqlConnector.cs:66-77 | the active transaction's connection while one is active; otherwise a newly created connection; the state is unchanged either way |
| SqlConnector.SqlConnector.BeginTransaction | DataAccess/SqlConnector.cs:83-92 | refused with InvalidOperationException while a transaction is active, both fields unchanged; otherwise a new connection and a transaction on it with the requested level, and a transaction is in progress |
| SqlConnector.SqlConnector.CommitTransaction | DataAccess/SqlConnector.cs:97-106 | refused with InvalidOperationException when no transaction is active, nothing changed; otherwise the connector ends Idle |
| SqlConnector.SqlConnector.RollbackTransaction | DataAccess/SqlConnector.cs:111-120 | refused with InvalidOperationException when no transaction is active, nothing changed; otherwise the connector ends Idle |
| SqlConnector.SqlConnector.FinalizeTransaction | DataAccess/SqlConnector.cs:206-219 | both fields end null, from any state; on an Idle connector nothing changes, so it is idempotent |
| SqlConnector.SqlConnector.DisposeWith | DataAccess/SqlConnector.cs:167-177 | when disposing with a transaction active, the connector ends Idle; otherwise the fields stay as they were; the invariant is kept |
| SqlConnector.SqlConnector.Dispose | DataAccess/SqlConnector.cs:125-129 | a connector in its invariant always ends Idle |
| SqlConnector.SqlConnector.CreateCommand | DataAccess/SqlConnector.cs:135-152 | a new, empty command with no transaction; exactly one more command has been created |
| SqlConnector.ConnectionsDifferWhenIdle | UnitTests/SqlConnectorTests.cs:17-23 | on an Idle connector, two reads of Connection give different connections |
| SqlConnector.ConnectionSharedInTransaction | UnitTests/SqlConnectorTests.cs:29-36 | once a transaction has begun, two reads of Connection give the same connection |
| SqlConnector.EndWithoutTransactionFails | UnitTests/SqlConnectorTests.cs:53-92 | commit and rollback on a new connector both raise InvalidOperationException |
| SqlConnector.TransactionCycle | DataAccess/SqlConnector.cs:83-120 | begin succeeds, a second begin is refused, commit succeeds, a second commit is refused, and a new begin and a rollback both succeed |
| ConnectorBase.ContainsKey | DataAccess/ConnectorBase.cs:264-273 | a key is contained exactly when it is among the dictionary's keys |
| ConnectorBase.CreateParameter | DataAccess/ConnectorBase.cs:227-239 | the parameter is named by the key and holds the value; its database type is the registry's answer when there is one, and otherwise the driver's default |
| ConnectorBase.CreateParameterTypes | DataAccess/ConnectorBase.cs:232-236 | a DateTime before 1753-01-01 gets DateTime2; every other value keeps the driver's default type |
| ConnectorBase.InputParameter | DataAccess/ConnectorBase.cs:248-251 | the parameter for one entry is named by its key, holds its value, has direction Input and the registry's type |
| ConnectorBase.InputParameters | DataAccess/ConnectorBase.cs:246-253 | one parameter per entry, in enumeration order, with that entry's key and value, direction Input and the registry's type |
| ConnectorBase.OneInputParameterPerKey | DataAccess/ConnectorBase.cs:248-252 | each key names exactly one input parameter, the one at that entry's position |
| ConnectorBase.SuffixedName | DataAccess/ConnectorBase.cs:270 | "ReturnValue{k}" is "ReturnValue" followed by a non-empty run of digits whose value is k |
| ConnectorBase.SuffixedNameInjective | DataAccess/ConnectorBase.cs:266-270 | different indices give different "ReturnValue{k}" names |
| ConnectorBase.SuffixedNameIsNotBaseName | DataAccess/ConnectorBase.cs:263-270 | no "ReturnValue{k}" name is the plain "ReturnValue" |
| ConnectorBase.SuffixBound | DataAccess/ConnectorBase.cs:264-273 | a dictionary holding "ReturnValue" and "ReturnValue1" to "ReturnValue{n}" has more than n entries, so the search stops |
| ConnectorBase.LeastFreeSuffix | DataAccess/ConnectorBase.cs:267-273 | the least index at or above the start whose name is free, with every index below it taken |
| ConnectorBase.ReturnValueName | DataAccess/ConnectorBase.cs:261-274 | never a key of the dictionary; "ReturnValue" when that key is free; otherwise "ReturnValue{k}" for the least free k >= 1 |
| ConnectorBase.ReturnValueNameIsLeast | DataAccess/ConnectorBase.cs:263-273 | any free index k >= 1 with every index below it taken is the one chosen |
| ConnectorBase.ReturnValueParameter | DataAccess/ConnectorBase.cs:276-279 | the added parameter has the chosen name, direction ReturnValue, a null value and no database type |
| ConnectorBase.WithReturnValue | DataAccess/ConnectorBase.cs:155 | after the procedure runs, the return-value parameter holds its return value and every other parameter is unchanged |
| ConnectorBase.ReturnValueLookup | DataAccess/ConnectorBase.cs:154-160 | looking up the chosen name after the procedure runs always finds the return-value parameter, holding the return value: the lookup never raises, the `parameter != null` test always holds and the `default(TResult)` branch is never reached |
| ConnectorBase.CollectRows | DataAccess/ConnectorBase.cs:100-107 | a successful collection has one item per row; a failed one fails with the exception the row reader raised on one of the rows |
| ConnectorBase.CollectRowsInOrder | DataAccess/ConnectorBase.cs:100-107 | when every row can be read, there is one item per row, each the row reader's item for that row, in read order |
| ConnectorBase.CollectRowsFirstFailure | DataAccess/ConnectorBase.cs:102-105 | the first row the row reader fails on ends the query with that exception |
| ConnectorBase.ReadRows | DataAccess/ConnectorBase.cs:99-107 | the loop returns the collection of the rows read, or the first row reader failure |
| ConnectorBase.ConnectorBase.constructor | DataAccess/ConnectorBase.cs:32-35 | keeps the connector |
| ConnectorBase.ConnectorBase.IsTransactionInProgress | DataAccess/ConnectorBase.cs:40-46 | the connector's answer |
| ConnectorBase.ConnectorBase.BeginTransaction | DataAccess/ConnectorBase.cs:52-55 | the connector's transition: refused with both fields unchanged while a transaction is active; otherwise a new connection on the connector's connection string and a new transaction on it with the requested level |
| ConnectorBase.ConnectorBase.CommitTransaction | DataAccess/ConnectorBase.cs:60-63 | the connector's transition: refused with both fields unchanged when no transaction is active, otherwise Idle |
| ConnectorBase.ConnectorBase.RollbackTransaction | DataAccess/ConnectorBase.cs:68-71 | the connector's transition: refused with both fields unchanged when no transaction is active, otherwise Idle |
| ConnectorBase.ConnectorBase.Execute | DataAccess/ConnectorBase.cs:192-220 | a null or empty command text raises ArgumentNullException and no command is created; otherwise exactly one new command, a stored procedure of that name, carrying the input parameters (none for a null dictionary), running on the connector's connection and enlisted in no transaction |
| ConnectorBase.ConnectorBase.AttachInputParameters | DataAccess/ConnectorBase.cs:246-253 | appends exactly the input parameters of the dictionary, in enumeration order, after those already present |
| ConnectorBase.ConnectorBase.AttachReturnValue | DataAccess/ConnectorBase.cs:261-281 | a null dictionary raises NullReferenceException and adds nothing; otherwise one return-value parameter is appended, named as ReturnValueName says, and that name is returned |
| ConnectorBase.ConnectorBase.TransactionCheck | DataAccess/ConnectorBase.cs:100-155 | a command of this connector runs exactly when it is enlisted in the transaction pending on its connection |
| ConnectorBase.ConnectorBase.RunQuery | DataAccess/ConnectorBase.cs:98-108 | a command refused by the transaction check fails with that exception; otherwise the result is the row collection for the rows the procedure returns |
| ConnectorBase.ConnectorBase.ExecuteQuery | DataAccess/ConnectorBase.cs:82-109 | a null row reader raises first, then the command text is checked, both before any command exists; while a transaction is in progress the command is refused with InvalidOperationException; otherwise the result is the row collection for the rows the procedure returns for the command's parameters |
| ConnectorBase.ConnectorBase.ExecuteQueryEnlisted | DataAccess/ConnectorBase.cs:82-109 | the same argument checks; with the command enlisted, the result is the row collection whether or not a transaction is in progress |
| ConnectorBase.ConnectorBase.RunCommand | DataAccess/ConnectorBase.cs:152-163 | a null dictionary raises NullReferenceException before the transaction check; a refused command fails with the check's exception; otherwise the converter is applied to the return value the procedure gives for the input parameters and the return-value parameter |
| ConnectorBase.ConnectorBase.ExecuteCommand | DataAccess/ConnectorBase.cs:137-164 | a null converter raises first, then the command text is checked, both before any command exists; a null dictionary raises NullReferenceException; while a transaction is in progress the command is refused with InvalidOperationException; otherwise the result is the converter applied to the procedure's return value |
| ConnectorBase.ConnectorBase.ExecuteCommandEnlisted | DataAccess/ConnectorBase.cs:137-164 | the same checks; with the command enlisted, the result is the converter applied to the return value whether or not a transaction is in progress |
| ConnectorBase.QueryInTransactionFails | DataAccess/ConnectorBase.cs:203-218 | as written, a query right after BeginTransaction is refused with InvalidOperationException |
| ConnectorBase.CommandInTransactionFails | DataAccess/ConnectorBase.cs:203-218 | as written, a command right after BeginTransaction is refused with InvalidOperationException |
| ConnectorBase.QueryInTransactionRunsWhenEnlisted | DataAccess/ConnectorBase.cs:203-218 | with the command enlisted, a query right after BeginTransaction returns the collected rows |
| ConnectorBase.CommandInTransactionRunsWhenEnlisted | DataAccess/ConnectorBase.cs:203-218 | with the command enlisted, a command right after BeginTransaction returns the converted return value |

## Findings

| source | as written | input that shows it | evidently intended | confidence | as-written member | corrected member |
|---|---|---|---|---|---|---|
| DataAccess/ConnectorBase.cs:203-218 | `Execute` sets `command.Connection` to the transaction's connection but never sets `command.Transaction`; SqlClient refuses `ExecuteReader` and `ExecuteNonQuery` on a connection with a pending local transaction when the command is not enlisted in it | `BeginTransaction(ReadCommitted)` followed by `ExecuteQuery("AnyProcedure", null, rowReader)` | the query runs inside the active transaction | not executed | ConnectorBase.QueryInTransactionFails | ConnectorBase.QueryInTransactionRunsWhenEnlisted |
| DataAccess/ConnectorBase.cs:148-163 | the same missing enlistment, on the `ExecuteCommand` path | `BeginTransaction(ReadCommitted)` followed by `ExecuteCommand("AnyProcedure", parameters, converter)` | the command runs inside the active transaction | not executed | ConnectorBase.CommandInTransactionFails | ConnectorBase.CommandInTransactionRunsWhenEnlisted |

The as-written `ExecuteQuery` and `ExecuteCommand` are proved to fail with
InvalidOperationException whenever a transaction is in progress.
`ExecuteQueryEnlisted` and `ExecuteCommandEnlisted` add the one missing
step: `command.Transaction` is set to the connector's transaction. They are
proved to behave as they would without a transaction. The transaction check
itself (`Driver.CheckTransaction`) is SqlClient's behaviour and is not in
the repository's source.

## Left out

- Driver effects: opening connections, starting, committing and rolling back
  transactions, executing commands, and disposing driver objects. They are
  opaque steps that succeed. A driver failure propagating from them is not
  modelled, and neither is the half-set state left when the driver's
  `BeginTransaction` fails after `connection` has been assigned.
- The `~SqlConnector` finalizer and `GC.SuppressFinalize`: runtime and
  garbage-collector plumbing.
- The `using` block around the command in `Execute`, and the removal of a
  half-built command in `CreateCommand` and `CreateConnection` when the
  driver raises: these are disposal and failure paths of the driver.
- The `commandModifier` callback of `ExecuteQuery`, `ExecuteCommand` and
  `Execute`: it is an arbitrary caller callback. In the model it is absent,
  so the overloads without it (DataAccess/ConnectorBase.cs:118-125 and
  173-179) are the methods modelled.
- What `System.Convert` accepts, rejects and produces (overflow, format,
  culture): the conversions are passed to the typed readers as opaque
  functions. Exception message text and its culture-specific formatting are
  left out; exceptions are tags.
- `DBNull.Value`: the code tests only for `null`, so `None` is the only
  null column value.
- Thread safety of the static resolver list and of the connector: there is
  no locking, and the model is sequential.
- The case-insensitive fallback of `SqlParameterCollection` name lookup:
  `Driver.FindParameter` compares names exactly. The driver tries an exact
  match first, and the one name the layer looks up is a name it has just
  added, so the fallback is never reached here.
- The 32-bit `currentIndex` in `AttachReturnValue`: it cannot overflow,
  because the search stops within one index per dictionary entry
  (`ConnectorBase.SuffixBound`). The model uses an unbounded integer.
- Object identity of driver parameters: a parameter is a value, and the
  command's parameter collection is a sequence of values.
- The driver's type inference for a parameter whose `DbType` is never set:
  it is represented by the absence of a database type.
- `rowsFor` and `returnValueFor` see the procedure name and the command's
  parameters. The connection and transaction the command runs on are not
  passed to them.
- The string indexer `Parameters[name]` raises rather than returning null,
  and the name looked up is always found. So the `parameter != null` test in
  `ExecuteCommand` (DataAccess/ConnectorBase.cs:157) and its
  `default(TResult)` return are dead code and have no counterpart in the model.
- Reference identity of `CommandParameter` instances: `CommandParameter` is
  a class, compared by reference, and the model's datatype is compared by
  value. Only the getters' values are modelled.
- The dictionary's key comparer: the model compares keys exactly, as the
  default comparer does. A caller's dictionary built with another comparer,
  such as `StringComparer.OrdinalIgnoreCase`, makes `ContainsKey` match more
  keys, so `AttachReturnValue` may pick a different name. That case is not
  modelled.
- A null connector passed to the `ConnectorBase` constructor: the source
  accepts it, and every later call then raises NullReferenceException. The
  model's `connector` field has a non-null type, which excludes the case.
- `Driver.CheckTransaction` models only the transaction part of SqlClient's
  pre-execution validation. An unopened connection or a missing command
  text are not checked there.
