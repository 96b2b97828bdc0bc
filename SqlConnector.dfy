/** The SQL Server connector: it hands out connections, commands and
    parameters, and runs at most one transaction at a time. Its state is the
    pair of fields `connection` and `transaction`: both null when Idle, both
    set, the transaction on that connection, while a transaction is active. */
module SqlConnector {
  import opened Wrappers
  import opened Clr
  import Driver

  /** `CreateParameter`: a new driver parameter with nothing set. */
  function CreateParameter(): (p: Driver.DbParameter)
    ensures p.parameterName == "" && p.value.None? && p.direction == Driver.Input && p.dbType.None?
  {
    Driver.NewParameter
  }

  class SqlConnector {
    const connectionString: string
    /** The connection the active transaction runs on, or null. */
    var connection: Driver.SqlConnection?
    /** The active transaction, or null. */
    var transaction: Driver.SqlTransaction?
    /** How many commands this connector has created. */
    ghost var commandsCreated: nat

    /** The connection is set exactly when a transaction is, and the
        transaction runs on it. */
    ghost predicate Valid()
      reads this
    {
      (connection == null <==> transaction == null) &&
      (transaction != null ==> transaction.connection == connection)
    }

    /** Neither a connection nor a transaction is held. */
    ghost predicate Idle()
      reads this
    {
      connection == null && transaction == null
    }

    constructor (connectionString: string)
      ensures this.connectionString == connectionString
      ensures Valid() && Idle() && commandsCreated == 0
    {
      this.connectionString := connectionString;
      connection := null;
      transaction := null;
      commandsCreated := 0;
    }

    /** `IsTransactionInProgress`: a transaction is held; for a connector in
        its invariant, that is also exactly when a connection is held, so a
        connector not in progress is Idle. */
    predicate IsTransactionInProgress()
      reads this
      ensures IsTransactionInProgress() <==> transaction != null
      ensures Valid() ==> (IsTransactionInProgress() <==> connection != null)
      ensures Valid() && !IsTransactionInProgress() ==> Idle()
    {
      transaction != null
    }

    /** The local transaction pending on connection `c`: the active one when
        it runs on `c`, null otherwise. */
    function PendingOn(c: Driver.SqlConnection?): (t: Driver.SqlTransaction?)
      reads this
      ensures t != null ==> t == transaction && t.connection == c
      ensures Valid() && c == connection ==> t == transaction
      ensures Valid() && c != connection ==> t == null
    {
      if transaction != null && transaction.connection == c then transaction else null
    }

    /** `CreateConnection`: a new connection for this connector's connection
        string, opened by the driver. */
    method CreateConnection() returns (c: Driver.SqlConnection)
      ensures fresh(c) && c.connectionString == connectionString
    {
      c := new Driver.SqlConnection(connectionString);
    }

    /** `Connection`: the transaction's connection while one is active,
        otherwise a connection created for this call. It changes nothing. */
    method Connection() returns (c: Driver.SqlConnection)
      ensures transaction != null ==> c == transaction.connection
      ensures transaction == null ==> fresh(c) && c.connectionString == connectionString
    {
      if IsTransactionInProgress() {
        return transaction.connection;
      }
      c := CreateConnection();
    }

    /** `BeginTransaction`: refused while a transaction is active, leaving
        both fields as they were; otherwise a new connection and a
        transaction on it with the requested isolation level. */
    method BeginTransaction(isolationLevel: Driver.IsolationLevel) returns (o: Outcome<Error>)
      requires Valid()
      modifies this`connection, this`transaction
      ensures Valid()
      ensures old(transaction) != null ==>
        o == Fail(InvalidOperation(TransactionAlreadyInProgress)) &&
        connection == old(connection) && transaction == old(transaction)
      ensures old(transaction) == null ==>
        o == Pass && IsTransactionInProgress() &&
        fresh(connection) && fresh(transaction) &&
        connection.connectionString == connectionString &&
        transaction.isolationLevel == isolationLevel
    {
      if IsTransactionInProgress() {
        return Fail(InvalidOperation(TransactionAlreadyInProgress));
      }
      connection := CreateConnection();
      transaction := new Driver.SqlTransaction(connection, isolationLevel);
      o := Pass;
    }

    /** `CommitTransaction`: refused when no transaction is active, changing
        nothing; otherwise the transaction is committed and finalized, which
        leaves the connector Idle. */
    method CommitTransaction() returns (o: Outcome<Error>)
      requires Valid()
      modifies this`connection, this`transaction
      ensures Valid()
      ensures old(transaction) == null ==>
        o == Fail(InvalidOperation(NoTransactionInProgress)) &&
        connection == old(connection) && transaction == old(transaction)
      ensures old(transaction) != null ==> o == Pass && Idle()
    {
      if !IsTransactionInProgress() {
        return Fail(InvalidOperation(NoTransactionInProgress));
      }
      FinalizeTransaction();
      o := Pass;
    }

    /** `RollbackTransaction`: the same state change as a commit; only the
        driver's effect differs. */
    method RollbackTransaction() returns (o: Outcome<Error>)
      requires Valid()
      modifies this`connection, this`transaction
      ensures Valid()
      ensures old(transaction) == null ==>
        o == Fail(InvalidOperation(NoTransactionInProgress)) &&
        connection == old(connection) && transaction == old(transaction)
      ensures old(transaction) != null ==> o == Pass && Idle()
    {
      if !IsTransactionInProgress() {
        return Fail(InvalidOperation(NoTransactionInProgress));
      }
      FinalizeTransaction();
      o := Pass;
    }

    /** `FinalizeTransaction`: whatever was held is released, so the
        connector ends Idle; on an Idle connector it changes nothing. */
    method FinalizeTransaction()
      modifies this`connection, this`transaction
      ensures Idle() && Valid()
      ensures old(Idle()) ==> connection == old(connection) && transaction == old(transaction)
    {
      if transaction != null {
        transaction := null;
      }
      if connection != null {
        connection := null;
      }
    }

    /** `Dispose(bool)`: when disposing, an active transaction is finalized;
        otherwise the fields stay as they are. */
    method DisposeWith(disposing: bool)
      modifies this`connection, this`transaction
      ensures disposing && old(transaction) != null ==> Idle()
      ensures !(disposing && old(transaction) != null) ==>
        connection == old(connection) && transaction == old(transaction)
      ensures old(Valid()) ==> Valid()
      ensures old(Valid()) && disposing ==> Idle()
    {
      if disposing {
        if transaction != null {
          FinalizeTransaction();
          transaction := null;
        }
      }
    }

    /** `Dispose()`: disposes with `disposing` set, so a connector in its
        invariant always ends Idle. */
    method Dispose()
      requires Valid()
      modifies this`connection, this`transaction
      ensures Valid() && Idle()
    {
      DisposeWith(true);
    }

    /** `CreateCommand`: a new, empty command. */
    method CreateCommand() returns (command: Driver.DbCommand)
      modifies this`commandsCreated
      ensures fresh(command)
      ensures command.commandText == "" && command.commandType == Driver.Text
      ensures command.parameters == [] && command.connection == null && command.transaction == null
      ensures commandsCreated == old(commandsCreated) + 1
    {
      command := new Driver.DbCommand();
      commandsCreated := commandsCreated + 1;
    }
  }

  /** Two reads of `Connection` on an Idle connector give two different
      connections. */
  method ConnectionsDifferWhenIdle(connector: SqlConnector) returns (same: bool)
    requires connector.Valid() && !connector.IsTransactionInProgress()
    ensures !same
  {
    var connection1 := connector.Connection();
    var connection2 := connector.Connection();
    same := connection1 == connection2;
  }

  /** Once a transaction has begun, two reads of `Connection` give the same
      connection, the one the transaction runs on. */
  method ConnectionSharedInTransaction(connectionString: string, isolationLevel: Driver.IsolationLevel)
    returns (begun: Outcome<Error>, same: bool)
    ensures begun == Pass && same
  {
    var connector := new SqlConnector(connectionString);
    begun := connector.BeginTransaction(isolationLevel);
    var connection1 := connector.Connection();
    var connection2 := connector.Connection();
    same := connection1 == connection2;
  }

  /** Committing or rolling back on a new connector is refused. */
  method EndWithoutTransactionFails(connectionString: string) returns (committed: Outcome<Error>, rolledBack: Outcome<Error>)
    ensures committed == Fail(InvalidOperation(NoTransactionInProgress))
    ensures rolledBack == Fail(InvalidOperation(NoTransactionInProgress))
  {
    var connector := new SqlConnector(connectionString);
    committed := connector.CommitTransaction();
    rolledBack := connector.RollbackTransaction();
  }

  /** A transaction cycle: begin, a second begin refused, commit, a second
      commit refused, then begin again and roll back. */
  method TransactionCycle(connectionString: string, isolationLevel: Driver.IsolationLevel)
    returns (outcomes: seq<Outcome<Error>>)
    ensures outcomes == [
      Pass, Fail(InvalidOperation(TransactionAlreadyInProgress)),
      Pass, Fail(InvalidOperation(NoTransactionInProgress)),
      Pass, Pass]
  {
    var connector := new SqlConnector(connectionString);
    var o1 := connector.BeginTransaction(isolationLevel);
    var o2 := connector.BeginTransaction(isolationLevel);
    var o3 := connector.CommitTransaction();
    var o4 := connector.CommitTransaction();
    var o5 := connector.BeginTransaction(isolationLevel);
    var o6 := connector.RollbackTransaction();
    outcomes := [o1, o2, o3, o4, o5, o6];
  }
}
