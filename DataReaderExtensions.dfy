/** Helpers that read one column of the current row of a data reader by
    name. Every read checks its arguments and the reader; a null column is an
    error for the non-nullable readers and an empty result for the nullable
    ones; any other value goes through the caller's converter. */
module DataReaderExtensions {
  import opened Wrappers
  import opened Clr
  import Driver

  /** A converter from the column's object to T, `Func<object, T>`; like any
      delegate it may raise, which the reader passes on unchanged. */
  type Converter<T> = Obj -> Result<T, Error>

  /** `ReadObject`: the reader must be non-null, the column name non-empty
      and the reader open, checked in that order; then the column's value is
      returned as it is stored. */
  function ReadObject(reader: Option<Driver.DbDataReader>, columnName: Option<string>): (r: Result<Option<Obj>, Error>)
    ensures reader.None? ==> r == Failure(ArgumentNull("reader"))
    ensures reader.Some? && IsNullOrEmpty(columnName) ==> r == Failure(ArgumentNull("columnName"))
    ensures reader.Some? && !IsNullOrEmpty(columnName) && reader.value.isClosed ==> r == Failure(Argument("reader"))
    ensures r.Success? <==>
      reader.Some? && !IsNullOrEmpty(columnName) && !reader.value.isClosed && columnName.value in reader.value.row
    ensures r.Success? ==> r.value == reader.value.row[columnName.value]
  {
    if reader.None? then Failure(ArgumentNull("reader"))
    else if IsNullOrEmpty(columnName) then Failure(ArgumentNull("columnName"))
    else if reader.value.isClosed then Failure(Argument("reader"))
    else Driver.Item(reader.value, columnName.value)
  }

  /** The policy of the non-nullable readers, given what ReadObject returned:
      its exception passes through, a null column raises
      InvalidOperationException, any other value is converted. */
  ghost predicate NonNullableRead<T>(read: Result<Option<Obj>, Error>, columnName: string, convert: Converter<T>, r: Result<T, Error>)
  {
    match read
    case Failure(e) => r == Failure(e)
    case Success(None) => r == Failure(InvalidOperation(NullColumn(columnName)))
    case Success(Some(v)) => r == convert(v)
  }

  /** The policy of the nullable readers: a null column gives an empty
      result, any other value is converted. */
  ghost predicate NullableRead<T>(read: Result<Option<Obj>, Error>, convert: Converter<T>, r: Result<Option<T>, Error>)
  {
    match read
    case Failure(e) => r == Failure(e)
    case Success(None) => r == Success(None)
    case Success(Some(v)) =>
      match convert(v)
      case Success(x) => r == Success(Some(x))
      case Failure(e) => r == Failure(e)
  }

  /** The name the null-column message carries; only used once ReadObject
      has accepted the name. */
  function NameOf(columnName: Option<string>): string
  {
    if columnName.Some? then columnName.value else ""
  }

  /** `ReadValueType`: the converter is checked first, before the reader and
      the column; then the non-nullable policy applies. */
  function ReadValueType<T>(reader: Option<Driver.DbDataReader>, columnName: Option<string>, valueConverter: Option<Converter<T>>): (r: Result<T, Error>)
    ensures valueConverter.None? ==> r == Failure(ArgumentNull("valueConverter"))
    ensures valueConverter.Some? ==> NonNullableRead(ReadObject(reader, columnName), NameOf(columnName), valueConverter.value, r)
  {
    if valueConverter.None? then Failure(ArgumentNull("valueConverter"))
    else
      match ReadObject(reader, columnName)
      case Failure(e) => Failure(e)
      case Success(None) => Failure(InvalidOperation(NullColumn(columnName.value)))
      case Success(Some(v)) => valueConverter.value(v)
  }

  /** `ReadValueTypeNullable`: the converter is checked first; then the
      nullable policy applies. */
  function ReadValueTypeNullable<T>(reader: Option<Driver.DbDataReader>, columnName: Option<string>, valueConverter: Option<Converter<T>>): (r: Result<Option<T>, Error>)
    ensures valueConverter.None? ==> r == Failure(ArgumentNull("valueConverter"))
    ensures valueConverter.Some? ==> NullableRead(ReadObject(reader, columnName), valueConverter.value, r)
  {
    if valueConverter.None? then Failure(ArgumentNull("valueConverter"))
    else
      match ReadObject(reader, columnName)
      case Failure(e) => Failure(e)
      case Success(None) => Success(None)
      case Success(Some(v)) =>
        match valueConverter.value(v)
        case Success(x) => Success(Some(x))
        case Failure(e) => Failure(e)
  }

  /** `ReadReferenceType`: the same policy as ReadValueType, for a class T. */
  function ReadReferenceType<T>(reader: Option<Driver.DbDataReader>, columnName: Option<string>, valueConverter: Option<Converter<T>>): (r: Result<T, Error>)
    ensures valueConverter.None? ==> r == Failure(ArgumentNull("valueConverter"))
    ensures valueConverter.Some? ==> NonNullableRead(ReadObject(reader, columnName), NameOf(columnName), valueConverter.value, r)
  {
    if valueConverter.None? then Failure(ArgumentNull("valueConverter"))
    else
      match ReadObject(reader, columnName)
      case Failure(e) => Failure(e)
      case Success(None) => Failure(InvalidOperation(NullColumn(columnName.value)))
      case Success(Some(v)) => valueConverter.value(v)
  }

  /** `ReadReferenceTypeNullable`: the same policy as ReadValueTypeNullable,
      for a class T, whose null is the empty result. */
  function ReadReferenceTypeNullable<T>(reader: Option<Driver.DbDataReader>, columnName: Option<string>, valueConverter: Option<Converter<T>>): (r: Result<Option<T>, Error>)
    ensures valueConverter.None? ==> r == Failure(ArgumentNull("valueConverter"))
    ensures valueConverter.Some? ==> NullableRead(ReadObject(reader, columnName), valueConverter.value, r)
  {
    if valueConverter.None? then Failure(ArgumentNull("valueConverter"))
    else
      match ReadObject(reader, columnName)
      case Failure(e) => Failure(e)
      case Success(None) => Success(None)
      case Success(Some(v)) =>
        match valueConverter.value(v)
        case Success(x) => Success(Some(x))
        case Failure(e) => Failure(e)
  }

  /** Reading a column that holds a value returns that value itself, and the
      generic readers return exactly what the converter makes of it. */
  lemma ReadsStoredValue<T>(reader: Driver.DbDataReader, columnName: string, v: Obj, convert: Converter<T>)
    requires !reader.isClosed && columnName != "" && columnName in reader.row && reader.row[columnName] == Some(v)
    ensures ReadObject(Some(reader), Some(columnName)) == Success(Some(v))
    ensures ReadValueType(Some(reader), Some(columnName), Some(convert)) == convert(v)
    ensures convert(v).Success? ==> ReadValueTypeNullable(Some(reader), Some(columnName), Some(convert)) == Success(Some(convert(v).value))
  {
  }

  /** The nullable and the non-nullable reader agree except on a null
      column: there the nullable one gives an empty result and the other
      raises InvalidOperationException. */
  lemma NullableAgreesWithNonNullable<T>(reader: Option<Driver.DbDataReader>, columnName: Option<string>, convert: Converter<T>)
    ensures ReadObject(reader, columnName) == Success(None) ==>
      ReadValueTypeNullable(reader, columnName, Some(convert)) == Success(None) &&
      ReadValueType(reader, columnName, Some(convert)) == Failure(InvalidOperation(NullColumn(columnName.value)))
    ensures ReadObject(reader, columnName) != Success(None) ==>
      ReadValueTypeNullable(reader, columnName, Some(convert)) ==
        match ReadValueType(reader, columnName, Some(convert))
        case Success(x) => Success(Some(x))
        case Failure(e) => Failure(e)
  {
  }

  /** System.Convert's conversions, which the typed readers use; what they
      accept and raise is the framework's and is not modelled. */
  datatype Conversions = Conversions(
    toInt16: Converter<Int16>,
    toInt32: Converter<Int32>,
    toInt64: Converter<Int64>,
    toString: Converter<string>,
    toDateTime: Converter<DateTime>)

  function ReadInt16(convert: Conversions, reader: Option<Driver.DbDataReader>, columnName: Option<string>): (r: Result<Int16, Error>)
    ensures NonNullableRead(ReadObject(reader, columnName), NameOf(columnName), convert.toInt16, r)
  {
    ReadValueType(reader, columnName, Some(convert.toInt16))
  }

  function ReadInt16Nullable(convert: Conversions, reader: Option<Driver.DbDataReader>, columnName: Option<string>): (r: Result<Option<Int16>, Error>)
    ensures NullableRead(ReadObject(reader, columnName), convert.toInt16, r)
  {
    ReadValueTypeNullable(reader, columnName, Some(convert.toInt16))
  }

  function ReadInt32(convert: Conversions, reader: Option<Driver.DbDataReader>, columnName: Option<string>): (r: Result<Int32, Error>)
    ensures NonNullableRead(ReadObject(reader, columnName), NameOf(columnName), convert.toInt32, r)
  {
    ReadValueType(reader, columnName, Some(convert.toInt32))
  }

  function ReadInt32Nullable(convert: Conversions, reader: Option<Driver.DbDataReader>, columnName: Option<string>): (r: Result<Option<Int32>, Error>)
    ensures NullableRead(ReadObject(reader, columnName), convert.toInt32, r)
  {
    ReadValueTypeNullable(reader, columnName, Some(convert.toInt32))
  }

  function ReadInt64(convert: Conversions, reader: Option<Driver.DbDataReader>, columnName: Option<string>): (r: Result<Int64, Error>)
    ensures NonNullableRead(ReadObject(reader, columnName), NameOf(columnName), convert.toInt64, r)
  {
    ReadValueType(reader, columnName, Some(convert.toInt64))
  }

  function ReadInt64Nullable(convert: Conversions, reader: Option<Driver.DbDataReader>, columnName: Option<string>): (r: Result<Option<Int64>, Error>)
    ensures NullableRead(ReadObject(reader, columnName), convert.toInt64, r)
  {
    ReadValueTypeNullable(reader, columnName, Some(convert.toInt64))
  }

  function ReadString(convert: Conversions, reader: Option<Driver.DbDataReader>, columnName: Option<string>): (r: Result<string, Error>)
    ensures NonNullableRead(ReadObject(reader, columnName), NameOf(columnName), convert.toString, r)
  {
    ReadReferenceType(reader, columnName, Some(convert.toString))
  }

  function ReadStringNullable(convert: Conversions, reader: Option<Driver.DbDataReader>, columnName: Option<string>): (r: Result<Option<string>, Error>)
    ensures NullableRead(ReadObject(reader, columnName), convert.toString, r)
  {
    ReadReferenceTypeNullable(reader, columnName, Some(convert.toString))
  }

  function ReadDateTime(convert: Conversions, reader: Option<Driver.DbDataReader>, columnName: Option<string>): (r: Result<DateTime, Error>)
    ensures NonNullableRead(ReadObject(reader, columnName), NameOf(columnName), convert.toDateTime, r)
  {
    ReadValueType(reader, columnName, Some(convert.toDateTime))
  }

  function ReadDateTimeNullable(convert: Conversions, reader: Option<Driver.DbDataReader>, columnName: Option<string>): (r: Result<Option<DateTime>, Error>)
    ensures NullableRead(ReadObject(reader, columnName), convert.toDateTime, r)
  {
    ReadValueTypeNullable(reader, columnName, Some(convert.toDateTime))
  }
}
