/** The runtime types, boxed values, dates and exceptions of the .NET base
    library, as far as the data-access layer observes them. */
module Clr {
  import opened Wrappers

  /** Reference types: System.Object at the root, System.ValueType (the base
      class of every struct), System.String, and any other class together
      with its base class. */
  datatype ClassType =
    | ObjectClass
    | ValueTypeClass
    | StringClass
    | OtherClass(name: string, baseClass: ClassType)

  /** Value types the layer names, and any other struct. Structs are sealed. */
  datatype StructType =
    | BooleanStruct
    | Int16Struct
    | Int32Struct
    | Int64Struct
    | DateTimeStruct
    | OtherStruct(name: string)

  /** A runtime type, what `GetType()` and `typeof(T)` produce. */
  datatype ClrType = Struct(structType: StructType) | Class(classType: ClassType)

  const DateTimeType: ClrType := Struct(DateTimeStruct)

  /** `c` is `d` or derives from it. */
  predicate IsSubclassOf(c: ClassType, d: ClassType)
  {
    c == d ||
    match c
    case ObjectClass => false
    case ValueTypeClass => d == ObjectClass
    case StringClass => d == ObjectClass
    case OtherClass(_, b) => IsSubclassOf(b, d)
  }

  /** A value whose runtime type is `from` passes the C# test `value is to`:
      a boxed struct is its own type, a ValueType and an Object; an object of
      a class is an instance of that class and of every class above it. */
  predicate IsAssignable(from: ClrType, to: ClrType)
  {
    match from
    case Struct(_) => to == from || to == Class(ValueTypeClass) || to == Class(ObjectClass)
    case Class(c) => to.Class? && IsSubclassOf(c, to.classType)
  }

  const MinInt16: int := -0x8000
  const MaxInt16: int := 0x7FFF
  const MinInt32: int := -0x8000_0000
  const MaxInt32: int := 0x7FFF_FFFF
  const MinInt64: int := -0x8000_0000_0000_0000
  const MaxInt64: int := 0x7FFF_FFFF_FFFF_FFFF

  type Int16 = x: int | MinInt16 <= x <= MaxInt16
  type Int32 = x: int | MinInt32 <= x <= MaxInt32
  type Int64 = x: int | MinInt64 <= x <= MaxInt64

  /** System.DateTime counts 100-nanosecond ticks from 0001-01-01 00:00 in the
      proleptic Gregorian calendar; MaxValue is the last tick of 9999-12-31. */
  const TicksPerDay: int := 864_000_000_000
  const MaxTicks: int := 3_155_378_975_999_999_999

  type Ticks = t: int | 0 <= t <= MaxTicks

  datatype DateTime = DateTime(ticks: Ticks)

  const MinValue: DateTime := DateTime(0)
  const MaxValue: DateTime := DateTime(MaxTicks)

  /** DateTime's `<` operator compares ticks. */
  predicate Before(a: DateTime, b: DateTime)
  {
    a.ticks < b.ticks
  }

  predicate IsLeapYear(year: int)
  {
    year % 4 == 0 && (year % 100 != 0 || year % 400 == 0)
  }

  function DaysInMonth(year: int, month: int): int
    requires 1 <= month <= 12
  {
    if month == 2 then (if IsLeapYear(year) then 29 else 28)
    else if month == 4 || month == 6 || month == 9 || month == 11 then 30
    else 31
  }

  /** The days of `year` that precede the first of `month`, as DateTime's
      tables of cumulative month lengths give them. */
  function DaysBeforeMonth(year: int, month: int): (days: nat)
    requires 1 <= month <= 12
    ensures days + DaysInMonth(year, month) <= (if IsLeapYear(year) then 366 else 365)
  {
    var table := if IsLeapYear(year)
      then [0, 31, 60, 91, 121, 152, 182, 213, 244, 274, 305, 335, 366]
      else [0, 31, 59, 90, 120, 151, 181, 212, 243, 273, 304, 334, 365];
    table[month - 1]
  }

  /** The days from 0001-01-01 to the first of January of `year`. */
  function DaysBeforeYear(year: int): int
    requires 1 <= year
  {
    var y := year - 1;
    y * 365 + y / 4 - y / 100 + y / 400
  }

  lemma QuotientStep(y: nat, d: int)
    requires d == 4 || d == 100 || d == 400
    ensures (y + 1) / d == y / d + (if (y + 1) % d == 0 then 1 else 0)
  {
    var q, r := y / d, y % d;
    assert y == q * d + r && 0 <= r < d;
    if r + 1 < d {
      assert y + 1 == q * d + (r + 1);
    } else {
      assert y + 1 == (q + 1) * d;
    }
  }

  lemma DaysBeforeYearStep(year: int)
    requires 1 <= year
    ensures DaysBeforeYear(year + 1) == DaysBeforeYear(year) + (if IsLeapYear(year) then 366 else 365)
  {
    QuotientStep(year - 1, 4);
    QuotientStep(year - 1, 100);
    QuotientStep(year - 1, 400);
  }

  lemma {:induction false} DaysBeforeYearBound(year: int)
    requires 1 <= year <= 9999
    ensures 0 <= DaysBeforeYear(year)
    decreases 9999 - year
    ensures DaysBeforeYear(year) + (if IsLeapYear(year) then 366 else 365) <= DaysBeforeYear(10000)
  {
    if year < 9999 {
      DaysBeforeYearBound(year + 1);
      DaysBeforeYearStep(year);
      DaysBeforeYearStep(year + 1);
    } else {
      DaysBeforeYearStep(year);
    }
  }

  predicate IsValidDate(year: int, month: int, day: int)
  {
    1 <= year <= 9999 && 1 <= month <= 12 && 1 <= day <= DaysInMonth(year, month)
  }

  /** `new DateTime(year, month, day)`: midnight at the start of that day. */
  function FromDate(year: int, month: int, day: int): (d: DateTime)
    requires IsValidDate(year, month, day)
    ensures d.ticks % TicksPerDay == 0
  {
    DaysBeforeYearBound(year);
    assert DaysBeforeYear(10000) * TicksPerDay == MaxTicks + 1;
    var days := DaysBeforeYear(year) + DaysBeforeMonth(year, month) + day - 1;
    DateTime(days * TicksPerDay)
  }

  /** A boxed value, what a variable of type `object` holds when it is not null. */
  datatype Obj =
    | BooleanObj(b: bool)
    | Int16Obj(i16: Int16)
    | Int32Obj(i32: Int32)
    | Int64Obj(i64: Int64)
    | DateTimeObj(dt: DateTime)
    | OtherStructObj(structName: string, bits: int)
    | StringObj(s: string)
    | Instance(instanceClass: ClassType, id: nat)

  /** `value.GetType()`. */
  function RuntimeType(o: Obj): ClrType
  {
    match o
    case BooleanObj(_) => Struct(BooleanStruct)
    case Int16Obj(_) => Struct(Int16Struct)
    case Int32Obj(_) => Struct(Int32Struct)
    case Int64Obj(_) => Struct(Int64Struct)
    case DateTimeObj(_) => DateTimeType
    case OtherStructObj(name, _) => Struct(OtherStruct(name))
    case StringObj(_) => Class(StringClass)
    case Instance(c, _) => Class(c)
  }

  /** `value is T`, for the T whose runtime type is `t`. */
  predicate IsInstanceOf(o: Obj, t: ClrType)
  {
    IsAssignable(RuntimeType(o), t)
  }

  /** `default(T)`: null for a reference type, the all-zero value of a struct. */
  function DefaultOf(t: ClrType): (d: Option<Obj>)
    ensures t.Class? <==> d.None?
    ensures d.Some? ==> RuntimeType(d.value) == t
  {
    match t
    case Class(_) => None
    case Struct(BooleanStruct) => Some(BooleanObj(false))
    case Struct(Int16Struct) => Some(Int16Obj(0))
    case Struct(Int32Struct) => Some(Int32Obj(0))
    case Struct(Int64Struct) => Some(Int64Obj(0))
    case Struct(DateTimeStruct) => Some(DateTimeObj(MinValue))
    case Struct(OtherStruct(name)) => Some(OtherStructObj(name, 0))
  }

  /** `string.IsNullOrEmpty`. */
  predicate IsNullOrEmpty(s: Option<string>)
  {
    s.None? || s.value == ""
  }

  /** Why an InvalidOperationException was raised. */
  datatype InvalidOperationReason =
    | TransactionAlreadyInProgress
    | NoTransactionInProgress
    | NullColumn(columnName: string)
    | UnexpectedType(expected: ClrType, found: ClrType)
    | TransactionRequired
    | TransactionMismatch

  /** The exceptions the layer raises or lets through, as tags without message text. */
  datatype Error =
    | ArgumentNull(paramName: string)
    | Argument(paramName: string)
    | InvalidOperation(reason: InvalidOperationReason)
    | NullReference
    | IndexOutOfRange(name: string)
    | Raised(description: string)
}
