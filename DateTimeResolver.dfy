/** The resolver for System.DateTime: SQL Server's `datetime` type starts at
    1753-01-01, so an earlier date is sent as `datetime2`. */
module DateTimeResolver {
  import opened Wrappers
  import opened Clr
  import Driver
  import opened ParameterTypeResolverBase

  /** `new DateTime(1753, 1, 1)`, the first day `datetime` can store. */
  function Threshold(): (d: DateTime)
    ensures d.ticks == DaysBeforeYear(1753) * TicksPerDay
  {
    FromDate(1753, 1, 1)
  }

  /** `ResolveTypeInternal`: DateTime2 for a date strictly before the
      threshold, 1753-01-01 at 552877920000000000 ticks, and no override
      otherwise. */
  function ResolveTypeInternal(value: DateTime): (r: Option<Driver.DbType>)
    ensures r == if value.ticks < 552_877_920_000_000_000 then Some(Driver.DateTime2) else None
  {
    if Before(value, Threshold()) then Some(Driver.DateTime2) else None
  }

  /** `new DateTimeResolver()`: the base class instantiated with T = DateTime.
      Its rule receives the cast value, which is always a DateTime (see
      CastYieldsDateTime), and applies ResolveTypeInternal to it. */
  function Resolver(): (r: ParameterTypeResolver)
    ensures r.SupportedType() == DateTimeType
    ensures forall d: DateTime :: r.resolveTypeInternal(Some(DateTimeObj(d))) == ResolveTypeInternal(d)
  {
    ParameterTypeResolver(DateTimeType,
      (casted: Option<Obj>) =>
        match casted
        case Some(DateTimeObj(d)) => ResolveTypeInternal(d)
        case _ => None)
  }

  lemma CastYieldsDateTime(value: Option<Obj>)
    ensures Resolver().Cast(value).Success? ==> Resolver().Cast(value).value.Some? && Resolver().Cast(value).value.value.DateTimeObj?
  {
  }

  /** Days counted from 0001-01-01 grow with the year. */
  lemma {:induction false} DaysBeforeYearMonotonic(a: int, b: int)
    requires 1 <= a <= b
    ensures DaysBeforeYear(a) <= DaysBeforeYear(b)
    decreases b - a
  {
    if a < b {
      DaysBeforeYearStep(a);
      DaysBeforeYearMonotonic(a + 1, b);
    }
  }

  /** On calendar dates the rule is a statement about the year: every day
      of a year before 1753 resolves to DateTime2, every day from 1753 on
      resolves to no override. */
  lemma {:induction false} ResolveByYear(year: int, month: int, day: int)
    requires IsValidDate(year, month, day)
    ensures ResolveTypeInternal(FromDate(year, month, day)) == if year < 1753 then Some(Driver.DateTime2) else None
  {
    var days := DaysBeforeYear(year) + DaysBeforeMonth(year, month) + day - 1;
    assert FromDate(year, month, day).ticks == days * TicksPerDay;
    if year < 1753 {
      DaysBeforeYearStep(year);
      DaysBeforeYearMonotonic(year + 1, 1753);
      assert days < DaysBeforeYear(1753);
    } else {
      DaysBeforeYearMonotonic(1753, year);
      assert DaysBeforeYear(1753) <= days;
    }
  }

  /** The boundary: the threshold itself gets no override, the tick before
      it gets DateTime2. */
  lemma ThresholdIsExclusive()
    ensures ResolveTypeInternal(Threshold()) == None
    ensures ResolveTypeInternal(DateTime(Threshold().ticks - 1)) == Some(Driver.DateTime2)
  {
  }

  /** DateTime.MinValue, passed to the resolver, resolves to DateTime2. */
  lemma MinValueResolvesToDateTime2()
    ensures Resolver().ResolveType(Some(DateTimeObj(MinValue))) == Success(Some(Driver.DateTime2))
  {
  }

  /** A present-day date resolves to no override. */
  lemma CurrentDateResolvesToNone(now: DateTime)
    requires Threshold().ticks <= now.ticks
    ensures Resolver().ResolveType(Some(DateTimeObj(now))) == Success(None)
  {
  }

  /** A null passed to the resolver directly is cast to default(DateTime),
      which is MinValue, and so resolves to DateTime2. */
  lemma NullResolvesToDateTime2()
    ensures Resolver().ResolveType(None) == Success(Some(Driver.DateTime2))
  {
  }

  /** Called directly with anything but a DateTime, the resolver raises. */
  lemma OtherValuesRaise(o: Obj)
    requires !o.DateTimeObj?
    ensures Resolver().ResolveType(Some(o)) == Failure(InvalidOperation(UnexpectedType(DateTimeType, RuntimeType(o))))
  {
  }
}
