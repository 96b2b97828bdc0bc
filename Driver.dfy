/** The parts of System.Data and of the SQL Server client the layer talks to:
    the enumerations it sets, parameters, one row of a data reader, commands,
    connections and transactions. The driver's own behaviour (opening,
    executing, committing) is not modelled; these are the values and objects
    the layer creates and fills in. */
module Driver {
  import opened Wrappers
  import Clr

  /** System.Data.DbType. */
  datatype DbType =
    | AnsiString | Binary | Byte | Boolean | Currency | Date | DateTime | Decimal
    | Double | Guid | Int16 | Int32 | Int64 | Object | SByte | Single | String
    | Time | UInt16 | UInt32 | UInt64 | VarNumeric | AnsiStringFixedLength
    | StringFixedLength | Xml | DateTime2 | DateTimeOffset

  /** System.Data.IsolationLevel. */
  datatype IsolationLevel =
    | Unspecified | Chaos | ReadUncommitted | ReadCommitted | RepeatableRead
    | Serializable | Snapshot

  /** System.Data.CommandType. */
  datatype CommandType = Text | StoredProcedure | TableDirect

  /** System.Data.ParameterDirection. */
  datatype ParameterDirection = Input | Output | InputOutput | ReturnValue

  /** A command parameter as the layer fills it in. `dbType` is None while it
      has not been set, so that the driver infers the type from the value. */
  datatype DbParameter = DbParameter(
    parameterName: string,
    value: Option<Clr.Obj>,
    direction: ParameterDirection,
    dbType: Option<DbType>)

  /** What the connector's CreateParameter hands out: no name, a null value,
      an input parameter whose type is left to the driver. */
  const NewParameter: DbParameter := DbParameter("", None, Input, None)

  /** `Parameters[name]`: the first parameter of that name; SqlClient's
      indexer raises IndexOutOfRangeException when there is none, and never
      returns null. */
  function FindParameter(parameters: seq<DbParameter>, name: string): (r: Result<DbParameter, Clr.Error>)
    ensures r.Failure? <==> forall i :: 0 <= i < |parameters| ==> parameters[i].parameterName != name
    ensures r.Failure? ==> r.error == Clr.IndexOutOfRange(name)
    ensures r.Success? ==> exists i :: 0 <= i < |parameters| && parameters[i] == r.value
    ensures r.Success? ==> r.value.parameterName == name
  {
    if |parameters| == 0 then Failure(Clr.IndexOutOfRange(name))
    else if parameters[0].parameterName == name then Success(parameters[0])
    else FindParameter(parameters[1..], name)
  }

  /** A data reader positioned on one row: whether it has been closed, and
      the current row's columns. A null column holds None. */
  datatype DbDataReader = DbDataReader(isClosed: bool, row: map<string, Option<Clr.Obj>>)

  /** `reader[columnName]`: the column's value; the driver raises
      IndexOutOfRangeException for a name the row does not have. */
  function Item(reader: DbDataReader, columnName: string): (r: Result<Option<Clr.Obj>, Clr.Error>)
    ensures r.Success? <==> columnName in reader.row
    ensures r.Success? ==> r.value == reader.row[columnName]
    ensures r.Failure? ==> r.error == Clr.IndexOutOfRange(columnName)
  {
    if columnName in reader.row then Success(reader.row[columnName])
    else Failure(Clr.IndexOutOfRange(columnName))
  }

  /** An open connection to the server. */
  class SqlConnection {
    const connectionString: string

    constructor (connectionString: string)
      ensures this.connectionString == connectionString
    {
      this.connectionString := connectionString;
    }
  }

  /** A transaction started on a connection. */
  class SqlTransaction {
    const connection: SqlConnection
    const isolationLevel: IsolationLevel

    constructor (connection: SqlConnection, isolationLevel: IsolationLevel)
      ensures this.connection == connection && this.isolationLevel == isolationLevel
    {
      this.connection := connection;
      this.isolationLevel := isolationLevel;
    }
  }

  /** A command: its text, its kind, its parameter collection in the order
      parameters were added, the connection it runs on and the transaction
      it is enlisted in. */
  class DbCommand {
    var commandText: string
    var commandType: CommandType
    var parameters: seq<DbParameter>
    var connection: SqlConnection?
    var transaction: SqlTransaction?

    /** `new SqlCommand()`: empty text, a Text command, no parameters, no
        connection, no transaction. */
    constructor ()
      ensures commandText == "" && commandType == Text && parameters == []
      ensures connection == null && transaction == null
    {
      commandText := "";
      commandType := Text;
      parameters := [];
      connection := null;
      transaction := null;
    }
  }

  /** SqlClient's check before `ExecuteReader` and `ExecuteNonQuery`: the
      command must be enlisted in exactly the local transaction pending on
      its connection, if any. A command left without a transaction on a
      connection with a pending one is refused with InvalidOperationException,
      and so is a command enlisted in any other transaction. */
  function CheckTransaction(pending: SqlTransaction?, enlisted: SqlTransaction?): (r: Outcome<Clr.Error>)
    ensures r.Pass? <==> enlisted == pending
    ensures pending != null && enlisted == null ==> r == Fail(Clr.InvalidOperation(Clr.TransactionRequired))
    ensures r.Fail? ==> r.error.InvalidOperation?
  {
    if enlisted == pending then Pass
    else if enlisted == null then Fail(Clr.InvalidOperation(Clr.TransactionRequired))
    else Fail(Clr.InvalidOperation(Clr.TransactionMismatch))
  }
}
