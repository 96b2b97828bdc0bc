/** The base of the data-access classes: it builds a stored-procedure command
    from a name and a dictionary of parameters, runs it through the connector,
    and either collects the rows it returns or reads its return value. */
module ConnectorBase {
  import opened Wrappers
  import opened Clr
  import Driver
  import opened InvariantFormat
  import opened ParameterTypeResolvers
  import DateTimeResolver
  import SqlConnector

  /** One key/value pair of a `Dictionary<string, object>`. */
  datatype Entry = Entry(key: string, value: Option<Obj>)

  predicate UniqueKeys(entries: seq<Entry>)
  {
    forall i, j :: 0 <= i < j < |entries| ==> entries[i].key != entries[j].key
  }

  /** A dictionary, in its enumeration order; its keys are distinct. */
  type Dictionary = entries: seq<Entry> | UniqueKeys(entries)

  /** `ContainsKey`: some entry has exactly that key (the default,
      ordinal comparer). */
  predicate ContainsKey(d: Dictionary, key: string)
    ensures ContainsKey(d, key) <==> key in Keys(d)
  {
    exists i | 0 <= i < |d| :: d[i].key == key
  }

  /** The set of keys of a dictionary. */
  function Keys(d: seq<Entry>): (ks: set<string>)
    ensures |ks| <= |d|
    ensures forall i :: 0 <= i < |d| ==> d[i].key in ks
    ensures forall k :: k in ks ==> exists i :: 0 <= i < |d| && d[i].key == k
  {
    if |d| == 0 then {} else Keys(d[..|d| - 1]) + {d[|d| - 1].key}
  }

  // ---------------------------------------------------------------------
  // Input parameters

  /** `CreateParameter`: a new driver parameter named by the key and holding
      the value; its database type is set only when the resolver registry
      answers, and is otherwise the driver's default. */
  function CreateParameter(entry: Entry): (p: Driver.DbParameter)
    ensures p.parameterName == entry.key && p.value == entry.value
    ensures p.direction == SqlConnector.CreateParameter().direction
    ensures ResolveTypeIn(FindResolvers(), entry.value).Some? ==> p.dbType == ResolveTypeIn(FindResolvers(), entry.value)
    ensures ResolveTypeIn(FindResolvers(), entry.value).None? ==> p.dbType == SqlConnector.CreateParameter().dbType
  {
    var result := SqlConnector.CreateParameter().(parameterName := entry.key, value := entry.value);
    var resolvedType := ResolveTypeIn(FindResolvers(), entry.value);
    if resolvedType.Some? then result.(dbType := resolvedType) else result
  }

  /** With the registry as built: a DateTime before 1753-01-01 gets
      DateTime2, and every other value, null included, keeps the driver's
      default type. */
  lemma CreateParameterTypes(entry: Entry)
    ensures (entry.value.Some? && entry.value.value.DateTimeObj? &&
             Before(entry.value.value.dt, DateTimeResolver.Threshold())) ==>
      CreateParameter(entry).dbType == Some(Driver.DateTime2)
    ensures !(entry.value.Some? && entry.value.value.DateTimeObj? &&
              Before(entry.value.value.dt, DateTimeResolver.Threshold())) ==>
      CreateParameter(entry).dbType.None?
  {
    RegistryResolution(entry.value);
  }

  /** The parameter `AttachInputParameters` adds for one entry. */
  function InputParameter(entry: Entry): (p: Driver.DbParameter)
    ensures p.parameterName == entry.key && p.value == entry.value
    ensures p.direction == Driver.Input
    ensures p.dbType == ResolveTypeIn(FindResolvers(), entry.value)
  {
    CreateParameter(entry).(direction := Driver.Input)
  }

  /** The parameters `AttachInputParameters` adds, in enumeration order: one
      per entry, named by its key, holding its value, of direction Input. */
  function InputParameters(d: seq<Entry>): (ps: seq<Driver.DbParameter>)
    ensures |ps| == |d|
    ensures forall i :: 0 <= i < |d| ==>
      ps[i].parameterName == d[i].key && ps[i].value == d[i].value &&
      ps[i].direction == Driver.Input && ps[i].dbType == CreateParameter(d[i]).dbType
  {
    if |d| == 0 then [] else InputParameters(d[..|d| - 1]) + [InputParameter(d[|d| - 1])]
  }

  /** Every key of the dictionary names exactly one input parameter, the one
      at its own position. */
  lemma OneInputParameterPerKey(d: Dictionary, i: nat, j: nat)
    requires i < |d| && j < |d|
    ensures InputParameters(d)[j].parameterName == d[i].key <==> j == i
  {
  }

  /** The parameters a command built from a possibly null dictionary starts
      with. */
  function InputParametersOf(parameters: Option<Dictionary>): seq<Driver.DbParameter>
  {
    if parameters.Some? then InputParameters(parameters.value) else []
  }

  // ---------------------------------------------------------------------
  // The return-value parameter's name

  const ReturnValueBaseName := "ReturnValue"

  /** `string.Format(InvariantCulture, "ReturnValue{0}", k)`. */
  function SuffixedName(k: nat): (s: string)
    ensures |s| > |ReturnValueBaseName| && s[..|ReturnValueBaseName|] == ReturnValueBaseName
    ensures AllDigits(s[|ReturnValueBaseName|..]) && DecimalValue(s[|ReturnValueBaseName|..]) == k
  {
    var digits := DecimalString(k);
    DecimalRoundTrip(k);
    assert (ReturnValueBaseName + digits)[|ReturnValueBaseName|..] == digits;
    ReturnValueBaseName + digits
  }

  lemma SuffixedNameInjective(a: nat, b: nat)
    ensures SuffixedName(a) == SuffixedName(b) ==> a == b
  {
    if SuffixedName(a) == SuffixedName(b) {
      assert DecimalString(a) == SuffixedName(a)[|ReturnValueBaseName|..];
      assert DecimalString(b) == SuffixedName(b)[|ReturnValueBaseName|..];
      DecimalStringInjective(a, b);
    }
  }

  lemma SuffixedNameIsNotBaseName(k: nat)
    ensures SuffixedName(k) != ReturnValueBaseName
  {
    assert |SuffixedName(k)| > |ReturnValueBaseName|;
  }

  /** The suffixed names 1 .. n. */
  function SuffixedNames(n: nat): set<string>
  {
    if n == 0 then {} else SuffixedNames(n - 1) + {SuffixedName(n)}
  }

  lemma {:induction false} SuffixedNamesCount(n: nat)
    ensures |SuffixedNames(n)| == n
    ensures forall s :: s in SuffixedNames(n) ==> s != ReturnValueBaseName
    ensures forall j :: 1 <= j <= n ==> SuffixedName(j) in SuffixedNames(n)
  {
    if n > 0 {
      SuffixedNamesCount(n - 1);
      SuffixedNameIsNotBaseName(n);
      if SuffixedName(n) in SuffixedNames(n - 1) {
        SuffixedNameWithin(n - 1, SuffixedName(n), n);
      }
    }
  }

  lemma {:induction false} SuffixedNameWithin(n: nat, s: string, k: nat)
    requires s in SuffixedNames(n) && s == SuffixedName(k)
    ensures 1 <= k <= n
  {
    if s == SuffixedName(n) {
      SuffixedNameInjective(n, k);
    } else {
      SuffixedNameWithin(n - 1, s, k);
    }
  }

  /** A dictionary that holds "ReturnValue" and "ReturnValue1" ..
      "ReturnValue{n}" has more than n entries: the name search is bounded. */
  lemma SuffixBound(d: Dictionary, n: nat)
    requires ContainsKey(d, ReturnValueBaseName)
    requires forall j :: 1 <= j <= n ==> ContainsKey(d, SuffixedName(j))
    ensures n < |d|
  {
    SuffixedNamesCount(n);
    var taken := SuffixedNames(n) + {ReturnValueBaseName};
    forall s | s in SuffixedNames(n)
      ensures s in Keys(d)
    {
      var j :| 1 <= j <= n && s == SuffixedName(j) by {
        SuffixedNamesMembers(n, s);
      }
    }
    assert taken <= Keys(d);
    assert |taken| == n + 1;
    SubsetCardinality(taken, Keys(d));
  }

  lemma {:induction false} SuffixedNamesMembers(n: nat, s: string)
    requires s in SuffixedNames(n)
    ensures exists j :: 1 <= j <= n && s == SuffixedName(j)
  {
    if s != SuffixedName(n) {
      SuffixedNamesMembers(n - 1, s);
    }
  }

  lemma SubsetCardinality(a: set<string>, b: set<string>)
    requires a <= b
    ensures |a| <= |b|
  {
    assert b == a + (b - a);
  }

  /** The least k >= lower whose suffixed name is not a key, given that every
      suffix from 1 below lower is taken. */
  function LeastFreeSuffix(d: Dictionary, lower: nat): (k: nat)
    requires 1 <= lower
    requires ContainsKey(d, ReturnValueBaseName)
    requires forall j :: 1 <= j < lower ==> ContainsKey(d, SuffixedName(j))
    ensures lower <= k && !ContainsKey(d, SuffixedName(k))
    ensures forall j :: 1 <= j < k ==> ContainsKey(d, SuffixedName(j))
    decreases |d| + 1 - lower
  {
    SuffixBound(d, lower - 1);
    if !ContainsKey(d, SuffixedName(lower)) then lower
    else LeastFreeSuffix(d, lower + 1)
  }

  /** The name `AttachReturnValue` chooses: "ReturnValue" when that key is
      free, otherwise "ReturnValue{k}" for the least k >= 1 that is free. It
      is never a key of the dictionary. */
  function ReturnValueName(d: Dictionary): (name: string)
    ensures !ContainsKey(d, name)
    ensures !ContainsKey(d, ReturnValueBaseName) ==> name == ReturnValueBaseName
    ensures ContainsKey(d, ReturnValueBaseName) ==>
      name == SuffixedName(LeastFreeSuffix(d, 1))
  {
    if !ContainsKey(d, ReturnValueBaseName) then ReturnValueBaseName
    else SuffixedName(LeastFreeSuffix(d, 1))
  }

  /** The description determines the name: a free suffix k >= 1 with every
      suffix below it taken is the one chosen. */
  lemma ReturnValueNameIsLeast(d: Dictionary, k: nat)
    requires ContainsKey(d, ReturnValueBaseName)
    requires 1 <= k && !ContainsKey(d, SuffixedName(k))
    requires forall j :: 1 <= j < k ==> ContainsKey(d, SuffixedName(j))
    ensures ReturnValueName(d) == SuffixedName(k)
  {
    var least := LeastFreeSuffix(d, 1);
    assert least == k;
  }

  /** The return-value parameter added for a chosen name. */
  function ReturnValueParameter(name: string): (p: Driver.DbParameter)
    ensures p.parameterName == name && p.direction == Driver.ReturnValue
    ensures p.value.None? && p.dbType.None?
  {
    SqlConnector.CreateParameter().(parameterName := name, direction := Driver.ReturnValue)
  }

  /** What `ExecuteNonQuery` does to the parameters that the layer reads
      back: the return-value parameter receives the procedure's return value. */
  function WithReturnValue(ps: seq<Driver.DbParameter>, v: Option<Obj>): (qs: seq<Driver.DbParameter>)
    ensures |qs| == |ps|
    ensures forall i :: 0 <= i < |ps| ==>
      qs[i] == if ps[i].direction == Driver.ReturnValue then ps[i].(value := v) else ps[i]
  {
    if |ps| == 0 then []
    else
      var p := ps[0];
      [if p.direction == Driver.ReturnValue then p.(value := v) else p] + WithReturnValue(ps[1..], v)
  }

  /** After the procedure has run, looking up the chosen name finds the
      return-value parameter, holding the return value: no input parameter
      has that name. */
  lemma ReturnValueLookup(d: Dictionary, v: Option<Obj>)
    ensures Driver.FindParameter(WithReturnValue(InputParameters(d) + [ReturnValueParameter(ReturnValueName(d))], v), ReturnValueName(d))
      == Success(ReturnValueParameter(ReturnValueName(d)).(value := v))
  {
    var name := ReturnValueName(d);
    var ps := InputParameters(d) + [ReturnValueParameter(name)];
    var qs := WithReturnValue(ps, v);
    forall i | 0 <= i < |d|
      ensures qs[i].parameterName != name
    {
      assert !ContainsKey(d, name);
    }
    FindAfterOthers(qs, name);
  }

  /** The lookup reaches the last parameter when no earlier one has the name. */
  lemma {:induction false} FindAfterOthers(ps: seq<Driver.DbParameter>, name: string)
    requires |ps| > 0 && ps[|ps| - 1].parameterName == name
    requires forall i :: 0 <= i < |ps| - 1 ==> ps[i].parameterName != name
    ensures Driver.FindParameter(ps, name) == Success(ps[|ps| - 1])
  {
    if |ps| > 1 {
      FindAfterOthers(ps[1..], name);
    }
  }

  // ---------------------------------------------------------------------
  // Collecting rows

  /** The rows a reader yields, one per successful `Read`, read in turn by
      the row reader; the first row the row reader fails on ends the
      collection with its exception. */
  function CollectRows<T>(rows: seq<Driver.DbDataReader>, rowReader: Driver.DbDataReader -> Result<T, Error>): (r: Result<seq<T>, Error>)
    ensures r.Success? ==> |r.value| == |rows|
    ensures r.Failure? ==> exists i :: 0 <= i < |rows| && rowReader(rows[i]) == Failure(r.error)
  {
    if |rows| == 0 then Success([])
    else
      match CollectRows(rows[..|rows| - 1], rowReader)
      case Failure(e) => Failure(e)
      case Success(items) =>
        match rowReader(rows[|rows| - 1])
        case Failure(e) => Failure(e)
        case Success(item) => Success(items + [item])
  }

  /** When every row can be read, the result has one item per row, each the
      row reader's item for that row, in read order. */
  lemma {:induction false} CollectRowsInOrder<T>(rows: seq<Driver.DbDataReader>, rowReader: Driver.DbDataReader -> Result<T, Error>)
    requires forall i :: 0 <= i < |rows| ==> rowReader(rows[i]).Success?
    ensures CollectRows(rows, rowReader).Success?
    ensures |CollectRows(rows, rowReader).value| == |rows|
    ensures forall i :: 0 <= i < |rows| ==> CollectRows(rows, rowReader).value[i] == rowReader(rows[i]).value
  {
    if |rows| > 0 {
      CollectRowsInOrder(rows[..|rows| - 1], rowReader);
    }
  }

  /** When row k is the first the row reader fails on, the collection fails
      with that row's exception. */
  lemma {:induction false} CollectRowsFirstFailure<T>(rows: seq<Driver.DbDataReader>, rowReader: Driver.DbDataReader -> Result<T, Error>, k: nat)
    requires k < |rows| && rowReader(rows[k]).Failure?
    requires forall i :: 0 <= i < k ==> rowReader(rows[i]).Success?
    ensures CollectRows(rows, rowReader) == Failure(rowReader(rows[k]).error)
  {
    if k < |rows| - 1 {
      CollectRowsFirstFailure(rows[..|rows| - 1], rowReader, k);
    } else {
      CollectRowsInOrder(rows[..k], rowReader);
    }
  }

  /** A failed prefix is a failed collection. */
  lemma {:induction false} CollectRowsFailureExtends<T>(rows: seq<Driver.DbDataReader>, rowReader: Driver.DbDataReader -> Result<T, Error>, n: nat)
    requires n <= |rows| && CollectRows(rows[..n], rowReader).Failure?
    ensures CollectRows(rows, rowReader) == CollectRows(rows[..n], rowReader)
  {
    if n < |rows| {
      assert rows[..|rows| - 1][..n] == rows[..n];
      CollectRowsFailureExtends(rows[..|rows| - 1], rowReader, n);
    } else {
      assert rows[..n] == rows;
    }
  }

  /** The `while (reader.Read())` loop of `ExecuteQuery`. */
  method ReadRows<T>(rows: seq<Driver.DbDataReader>, rowReader: Driver.DbDataReader -> Result<T, Error>) returns (r: Result<seq<T>, Error>)
    ensures r == CollectRows(rows, rowReader)
  {
    var result: seq<T> := [];
    var i := 0;
    while i < |rows|
      invariant 0 <= i <= |rows|
      invariant CollectRows(rows[..i], rowReader) == Success(result)
    {
      assert rows[..i + 1][..i] == rows[..i];
      var item := rowReader(rows[i]);
      if item.Failure? {
        CollectRowsFailureExtends(rows, rowReader, i + 1);
        return Failure(item.error);
      }
      result := result + [item.value];
      i := i + 1;
    }
    assert rows[..i] == rows;
    r := Success(result);
  }

  // ---------------------------------------------------------------------
  // The connector base

  class ConnectorBase {
    const connector: SqlConnector.SqlConnector

    constructor (connector: SqlConnector.SqlConnector)
      ensures this.connector == connector
    {
      this.connector := connector;
    }

    /** `IsTransactionInProgress`: the connector's. */
    predicate IsTransactionInProgress()
      reads connector
      ensures IsTransactionInProgress() <==> connector.transaction != null
    {
      connector.IsTransactionInProgress()
    }

    /** `BeginTransaction`: the connector's, unchanged. */
    method BeginTransaction(isolationLevel: Driver.IsolationLevel) returns (o: Outcome<Error>)
      requires connector.Valid()
      modifies connector`connection, connector`transaction
      ensures connector.Valid()
      ensures old(connector.transaction) != null ==>
        o == Fail(InvalidOperation(TransactionAlreadyInProgress)) &&
        connector.connection == old(connector.connection) && connector.transaction == old(connector.transaction)
      ensures old(connector.transaction) == null ==>
        o == Pass && IsTransactionInProgress() &&
        fresh(connector.connection) && fresh(connector.transaction) &&
        connector.connection.connectionString == connector.connectionString &&
        connector.transaction.isolationLevel == isolationLevel
    {
      o := connector.BeginTransaction(isolationLevel);
    }

    /** `CommitTransaction`: the connector's, unchanged. */
    method CommitTransaction() returns (o: Outcome<Error>)
      requires connector.Valid()
      modifies connector`connection, connector`transaction
      ensures connector.Valid()
      ensures old(connector.transaction) == null ==>
        o == Fail(InvalidOperation(NoTransactionInProgress)) &&
        connector.connection == old(connector.connection) && connector.transaction == old(connector.transaction)
      ensures old(connector.transaction) != null ==> o == Pass && connector.Idle()
    {
      o := connector.CommitTransaction();
    }

    /** `RollbackTransaction`: the connector's, unchanged. */
    method RollbackTransaction() returns (o: Outcome<Error>)
      requires connector.Valid()
      modifies connector`connection, connector`transaction
      ensures connector.Valid()
      ensures old(connector.transaction) == null ==>
        o == Fail(InvalidOperation(NoTransactionInProgress)) &&
        connector.connection == old(connector.connection) && connector.transaction == old(connector.transaction)
      ensures old(connector.transaction) != null ==> o == Pass && connector.Idle()
    {
      o := connector.RollbackTransaction();
    }

    /** The command-building part of `Execute`: an empty or null command text
        is refused before any command is created; otherwise the command
        names the stored procedure, carries one input parameter per entry
        (none for a null dictionary) and runs on the connector's connection. */
    method Execute(commandText: Option<string>, parameters: Option<Dictionary>) returns (r: Result<Driver.DbCommand, Error>)
      modifies connector`commandsCreated
      ensures IsNullOrEmpty(commandText) ==>
        r == Failure(ArgumentNull("commandText")) && connector.commandsCreated == old(connector.commandsCreated)
      ensures !IsNullOrEmpty(commandText) ==>
        r.Success? && fresh(r.value) && connector.commandsCreated == old(connector.commandsCreated) + 1 &&
        r.value.commandText == commandText.value &&
        r.value.commandType == Driver.StoredProcedure &&
        r.value.parameters == InputParametersOf(parameters) &&
        r.value.connection != null &&
        (connector.transaction != null ==> r.value.connection == connector.transaction.connection) &&
        (connector.transaction == null ==> fresh(r.value.connection)) &&
        r.value.transaction == null
    {
      if IsNullOrEmpty(commandText) {
        return Failure(ArgumentNull("commandText"));
      }
      var command := connector.CreateCommand();
      command.commandText := commandText.value;
      command.commandType := Driver.StoredProcedure;
      if parameters.Some? {
        AttachInputParameters(command, parameters.value);
      }
      var connection := connector.Connection();
      command.connection := connection;
      r := Success(command);
    }

    /** `AttachInputParameters`: appends one input parameter per entry, in
        enumeration order. */
    method AttachInputParameters(command: Driver.DbCommand, parameters: Dictionary)
      modifies command`parameters
      ensures command.parameters == old(command.parameters) + InputParameters(parameters)
    {
      for i := 0 to |parameters|
        invariant command.parameters == old(command.parameters) + InputParameters(parameters[..i])
      {
        assert parameters[..i + 1][..i] == parameters[..i];
        var current := CreateParameter(parameters[i]);
        current := current.(direction := Driver.Input);
        command.parameters := command.parameters + [current];
      }
      assert parameters[..|parameters|] == parameters;
    }

    /** `AttachReturnValue`: picks a name no entry uses (see ReturnValueName)
        and appends a return-value parameter of that name. A null dictionary
        is dereferenced and raises NullReferenceException before anything is
        added. */
    method AttachReturnValue(command: Driver.DbCommand, parameters: Option<Dictionary>) returns (r: Result<string, Error>)
      modifies command`parameters
      ensures parameters.None? ==>
        r == Failure(NullReference) && command.parameters == old(command.parameters)
      ensures parameters.Some? ==>
        r == Success(ReturnValueName(parameters.value)) &&
        command.parameters == old(command.parameters) + [ReturnValueParameter(r.value)]
    {
      if parameters.None? {
        return Failure(NullReference);
      }
      var d := parameters.value;
      ghost var attached := command.parameters;
      var parameterName := ReturnValueBaseName;
      if ContainsKey(d, parameterName) {
        var currentIndex := 1;
        while true
          invariant 1 <= currentIndex
          invariant forall j :: 1 <= j < currentIndex ==> ContainsKey(d, SuffixedName(j))
          invariant LeastFreeSuffix(d, currentIndex) == LeastFreeSuffix(d, 1)
          invariant command.parameters == attached
          decreases |d| - currentIndex
        {
          SuffixBound(d, currentIndex - 1);
          parameterName := SuffixedName(currentIndex);
          currentIndex := currentIndex + 1;
          if !ContainsKey(d, parameterName) {
            break;
          }
        }
      }
      var parameter := SqlConnector.CreateParameter();
      parameter := parameter.(parameterName := parameterName, direction := Driver.ReturnValue);
      command.parameters := command.parameters + [parameter];
      r := Success(parameterName);
    }

    /** SqlClient's transaction check for a command of this connector's, as
        `ExecuteReader` and `ExecuteNonQuery` make it. */
    function TransactionCheck(command: Driver.DbCommand): (o: Outcome<Error>)
      reads connector, command
      ensures o.Pass? <==> command.transaction == connector.PendingOn(command.connection)
    {
      Driver.CheckTransaction(connector.PendingOn(command.connection), command.transaction)
    }

    /** `ExecuteReader` on a built command: SqlClient's transaction check,
        then the rows the procedure returns, read in turn by the row reader.
        `rowsFor` stands for the driver: the rows a procedure returns for
        the parameters it is given. It changes nothing. */
    method RunQuery<T>(
      command: Driver.DbCommand,
      rowReader: Driver.DbDataReader -> Result<T, Error>,
      rowsFor: (string, seq<Driver.DbParameter>) -> seq<Driver.DbDataReader>)
      returns (r: Result<seq<T>, Error>)
      ensures TransactionCheck(command).Fail? ==>
        r == Failure(TransactionCheck(command).error)
      ensures TransactionCheck(command).Pass? ==>
        r == CollectRows(rowsFor(command.commandText, command.parameters), rowReader)
    {
      var check := TransactionCheck(command);
      if check.Fail? {
        return Failure(check.error);
      }
      var rows := rowsFor(command.commandText, command.parameters);
      r := ReadRows(rows, rowReader);
    }

    /** `ExecuteQuery` as written: a null row reader is refused first, then
        the command is built as `Execute` builds it and run. Since `Execute`
        never enlists the command, SqlClient refuses it whenever a
        transaction is in progress; otherwise the items are the row reader's
        results for the rows the procedure returns, in read order. */
    method ExecuteQuery<T>(
      commandText: Option<string>,
      parameters: Option<Dictionary>,
      rowReader: Option<Driver.DbDataReader -> Result<T, Error>>,
      rowsFor: (string, seq<Driver.DbParameter>) -> seq<Driver.DbDataReader>)
      returns (r: Result<seq<T>, Error>)
      modifies connector`commandsCreated
      ensures rowReader.None? ==>
        r == Failure(ArgumentNull("rowReader")) && connector.commandsCreated == old(connector.commandsCreated)
      ensures rowReader.Some? && IsNullOrEmpty(commandText) ==>
        r == Failure(ArgumentNull("commandText")) && connector.commandsCreated == old(connector.commandsCreated)
      ensures rowReader.Some? && !IsNullOrEmpty(commandText) ==>
        connector.commandsCreated == old(connector.commandsCreated) + 1 &&
        (connector.transaction != null ==> r == Failure(InvalidOperation(TransactionRequired))) &&
        (connector.transaction == null ==>
          r == CollectRows(rowsFor(commandText.value, InputParametersOf(parameters)), rowReader.value))
    {
      if rowReader.None? {
        return Failure(ArgumentNull("rowReader"));
      }
      var built := Execute(commandText, parameters);
      if built.Failure? {
        return Failure(built.error);
      }
      r := RunQuery(built.value, rowReader.value, rowsFor);
    }

    /** `ExecuteQuery` with the command enlisted in the connector's
        transaction before it runs: the items are then the row reader's
        results whether or not a transaction is in progress. */
    method ExecuteQueryEnlisted<T>(
      commandText: Option<string>,
      parameters: Option<Dictionary>,
      rowReader: Option<Driver.DbDataReader -> Result<T, Error>>,
      rowsFor: (string, seq<Driver.DbParameter>) -> seq<Driver.DbDataReader>)
      returns (r: Result<seq<T>, Error>)
      modifies connector`commandsCreated
      ensures rowReader.None? ==>
        r == Failure(ArgumentNull("rowReader")) && connector.commandsCreated == old(connector.commandsCreated)
      ensures rowReader.Some? && IsNullOrEmpty(commandText) ==>
        r == Failure(ArgumentNull("commandText")) && connector.commandsCreated == old(connector.commandsCreated)
      ensures rowReader.Some? && !IsNullOrEmpty(commandText) ==>
        connector.commandsCreated == old(connector.commandsCreated) + 1 &&
        r == CollectRows(rowsFor(commandText.value, InputParametersOf(parameters)), rowReader.value)
    {
      if rowReader.None? {
        return Failure(ArgumentNull("rowReader"));
      }
      var built := Execute(commandText, parameters);
      if built.Failure? {
        return Failure(built.error);
      }
      var command := built.value;
      command.transaction := connector.transaction;
      r := RunQuery(command, rowReader.value, rowsFor);
    }

    /** The part of `ExecuteCommand` after the command is built: a
        return-value parameter is attached, `ExecuteNonQuery` makes
        SqlClient's transaction check and stores the procedure's return value
        in it, and the converter gets that value. `returnValueFor` stands for
        the driver: the return value a procedure gives for the parameters it
        is given. The lookup by the chosen name always finds the parameter,
        so the source's `parameter != null` test always holds and its
        `default(TResult)` branch is never taken. */
    method RunCommand<R>(
      command: Driver.DbCommand,
      parameters: Option<Dictionary>,
      resultConverter: Option<Obj> -> Result<R, Error>,
      returnValueFor: (string, seq<Driver.DbParameter>) -> Option<Obj>)
      returns (r: Result<R, Error>)
      requires command.parameters == InputParametersOf(parameters)
      modifies command`parameters
      ensures parameters.None? ==> r == Failure(NullReference)
      ensures parameters.Some? && TransactionCheck(command).Fail? ==>
        r == Failure(TransactionCheck(command).error)
      ensures parameters.Some? && TransactionCheck(command).Pass? ==>
        r == resultConverter(returnValueFor(command.commandText,
          InputParameters(parameters.value) + [ReturnValueParameter(ReturnValueName(parameters.value))]))
    {
      var returnValueKey := AttachReturnValue(command, parameters);
      if returnValueKey.Failure? {
        return Failure(returnValueKey.error);
      }
      var check := TransactionCheck(command);
      if check.Fail? {
        return Failure(check.error);
      }
      var returned := returnValueFor(command.commandText, command.parameters);
      ReturnValueLookup(parameters.value, returned);
      command.parameters := WithReturnValue(command.parameters, returned);
      // The lookup cannot raise: ReturnValueLookup finds the added parameter.
      var parameter := Driver.FindParameter(command.parameters, returnValueKey.value);
      r := resultConverter(parameter.value.value);
    }

    /** `ExecuteCommand` as written: a null result converter is refused
        first, then the command is built as `Execute` builds it and run.
        A null dictionary raises NullReferenceException in
        `AttachReturnValue`; otherwise, since `Execute` never enlists the
        command, SqlClient refuses it whenever a transaction is in progress,
        and without one the result is the converter applied to the value the
        procedure returns. */
    method ExecuteCommand<R>(
      commandText: Option<string>,
      parameters: Option<Dictionary>,
      resultConverter: Option<Option<Obj> -> Result<R, Error>>,
      returnValueFor: (string, seq<Driver.DbParameter>) -> Option<Obj>)
      returns (r: Result<R, Error>)
      modifies connector`commandsCreated
      ensures resultConverter.None? ==>
        r == Failure(ArgumentNull("resultConverter")) && connector.commandsCreated == old(connector.commandsCreated)
      ensures resultConverter.Some? && IsNullOrEmpty(commandText) ==>
        r == Failure(ArgumentNull("commandText")) && connector.commandsCreated == old(connector.commandsCreated)
      ensures resultConverter.Some? && !IsNullOrEmpty(commandText) && parameters.None? ==>
        r == Failure(NullReference) && connector.commandsCreated == old(connector.commandsCreated) + 1
      ensures resultConverter.Some? && !IsNullOrEmpty(commandText) && parameters.Some? ==>
        connector.commandsCreated == old(connector.commandsCreated) + 1 &&
        (connector.transaction != null ==> r == Failure(InvalidOperation(TransactionRequired))) &&
        (connector.transaction == null ==>
          r == resultConverter.value(returnValueFor(commandText.value,
            InputParameters(parameters.value) + [ReturnValueParameter(ReturnValueName(parameters.value))])))
    {
      if resultConverter.None? {
        return Failure(ArgumentNull("resultConverter"));
      }
      var built := Execute(commandText, parameters);
      if built.Failure? {
        return Failure(built.error);
      }
      r := RunCommand(built.value, parameters, resultConverter.value, returnValueFor);
    }

    /** `ExecuteCommand` with the command enlisted in the connector's
        transaction before it runs: the result is then the converter applied
        to the return value whether or not a transaction is in progress. */
    method ExecuteCommandEnlisted<R>(
      commandText: Option<string>,
      parameters: Option<Dictionary>,
      resultConverter: Option<Option<Obj> -> Result<R, Error>>,
      returnValueFor: (string, seq<Driver.DbParameter>) -> Option<Obj>)
      returns (r: Result<R, Error>)
      modifies connector`commandsCreated
      ensures resultConverter.None? ==>
        r == Failure(ArgumentNull("resultConverter")) && connector.commandsCreated == old(connector.commandsCreated)
      ensures resultConverter.Some? && IsNullOrEmpty(commandText) ==>
        r == Failure(ArgumentNull("commandText")) && connector.commandsCreated == old(connector.commandsCreated)
      ensures resultConverter.Some? && !IsNullOrEmpty(commandText) && parameters.None? ==>
        r == Failure(NullReference) && connector.commandsCreated == old(connector.commandsCreated) + 1
      ensures resultConverter.Some? && !IsNullOrEmpty(commandText) && parameters.Some? ==>
        connector.commandsCreated == old(connector.commandsCreated) + 1 &&
        r == resultConverter.value(returnValueFor(commandText.value,
          InputParameters(parameters.value) + [ReturnValueParameter(ReturnValueName(parameters.value))]))
    {
      if resultConverter.None? {
        return Failure(ArgumentNull("resultConverter"));
      }
      var built := Execute(commandText, parameters);
      if built.Failure? {
        return Failure(built.error);
      }
      var command := built.value;
      command.transaction := connector.transaction;
      r := RunCommand(command, parameters, resultConverter.value, returnValueFor);
    }
  }

  /** Inside a transaction, the layer as written cannot run a query: the
      first `ExecuteQuery` after `BeginTransaction` is refused by SqlClient. */
  method QueryInTransactionFails<T>(
    connectionString: string,
    isolationLevel: Driver.IsolationLevel,
    procedure: string,
    rowReader: Driver.DbDataReader -> Result<T, Error>,
    rowsFor: (string, seq<Driver.DbParameter>) -> seq<Driver.DbDataReader>)
    returns (begun: Outcome<Error>, r: Result<seq<T>, Error>)
    requires procedure != ""
    ensures begun == Pass && r == Failure(InvalidOperation(TransactionRequired))
  {
    var connector := new SqlConnector.SqlConnector(connectionString);
    var base := new ConnectorBase(connector);
    begun := base.BeginTransaction(isolationLevel);
    r := base.ExecuteQuery(Some(procedure), None, Some(rowReader), rowsFor);
  }

  /** Inside a transaction, the layer as written cannot run a command
      either. */
  method CommandInTransactionFails<R>(
    connectionString: string,
    isolationLevel: Driver.IsolationLevel,
    procedure: string,
    parameters: Dictionary,
    resultConverter: Option<Obj> -> Result<R, Error>,
    returnValueFor: (string, seq<Driver.DbParameter>) -> Option<Obj>)
    returns (begun: Outcome<Error>, r: Result<R, Error>)
    requires procedure != ""
    ensures begun == Pass && r == Failure(InvalidOperation(TransactionRequired))
  {
    var connector := new SqlConnector.SqlConnector(connectionString);
    var base := new ConnectorBase(connector);
    begun := base.BeginTransaction(isolationLevel);
    r := base.ExecuteCommand(Some(procedure), Some(parameters), Some(resultConverter), returnValueFor);
  }

  /** With the command enlisted, the same query inside a transaction
      returns the collected rows. */
  method QueryInTransactionRunsWhenEnlisted<T>(
    connectionString: string,
    isolationLevel: Driver.IsolationLevel,
    procedure: string,
    rowReader: Driver.DbDataReader -> Result<T, Error>,
    rowsFor: (string, seq<Driver.DbParameter>) -> seq<Driver.DbDataReader>)
    returns (begun: Outcome<Error>, r: Result<seq<T>, Error>)
    requires procedure != ""
    ensures begun == Pass && r == CollectRows(rowsFor(procedure, []), rowReader)
  {
    var connector := new SqlConnector.SqlConnector(connectionString);
    var base := new ConnectorBase(connector);
    begun := base.BeginTransaction(isolationLevel);
    r := base.ExecuteQueryEnlisted(Some(procedure), None, Some(rowReader), rowsFor);
  }

  /** With the command enlisted, the same command inside a transaction
      returns the converted return value. */
  method CommandInTransactionRunsWhenEnlisted<R>(
    connectionString: string,
    isolationLevel: Driver.IsolationLevel,
    procedure: string,
    parameters: Dictionary,
    resultConverter: Option<Obj> -> Result<R, Error>,
    returnValueFor: (string, seq<Driver.DbParameter>) -> Option<Obj>)
    returns (begun: Outcome<Error>, r: Result<R, Error>)
    requires procedure != ""
    ensures begun == Pass
    ensures r == resultConverter(returnValueFor(procedure,
      InputParameters(parameters) + [ReturnValueParameter(ReturnValueName(parameters))]))
  {
    var connector := new SqlConnector.SqlConnector(connectionString);
    var base := new ConnectorBase(connector);
    begun := base.BeginTransaction(isolationLevel);
    r := base.ExecuteCommandEnlisted(Some(procedure), Some(parameters), Some(resultConverter), returnValueFor);
  }
}
