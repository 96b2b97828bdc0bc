/** The base of every parameter type resolver: a resolver handles one
    framework type T, casts the incoming object to T and hands the cast
    value to the T-specific rule. */
module ParameterTypeResolverBase {
  import opened Wrappers
  import opened Clr
  import Driver

  /** A resolver for the framework type whose runtime type is `t`, with its
      T-specific rule `resolveTypeInternal`. The rule receives the value the
      cast produced: `default(T)` or an instance of T. */
  datatype ParameterTypeResolver = ParameterTypeResolver(
    t: ClrType,
    resolveTypeInternal: Option<Obj> -> Option<Driver.DbType>)
  {
    /** `SupportedType`: `typeof(T)`, the type the registry compares a
        value's runtime type with. A value of exactly that type passes the
        cast unchanged, so a resolver chosen by that comparison never raises. */
    function SupportedType(): (r: ClrType)
      ensures forall o: Obj :: RuntimeType(o) == r ==> Cast(Some(o)) == Success(Some(o))
    {
      t
    }

    /** `Cast`: null becomes `default(T)`, an instance of T is returned
        unchanged, and anything else raises InvalidOperationException naming
        the expected and the actual type. */
    function Cast(value: Option<Obj>): (r: Result<Option<Obj>, Error>)
      ensures r.Success? <==> value.None? || IsInstanceOf(value.value, t)
      ensures r.Success? && value.Some? ==> r.value == value
      ensures r.Success? && value.None? ==> r.value == DefaultOf(t)
      ensures r.Success? ==> r.value.None? || IsInstanceOf(r.value.value, t)
      ensures r.Failure? ==> r.error == InvalidOperation(UnexpectedType(t, RuntimeType(value.value)))
    {
      match value
      case None => Success(DefaultOf(t))
      case Some(o) =>
        if IsInstanceOf(o, t) then Success(value)
        else Failure(InvalidOperation(UnexpectedType(t, RuntimeType(o))))
    }

    /** `ResolveType`: the T-specific rule applied to the cast value; the
        cast's exception propagates. */
    function ResolveType(value: Option<Obj>): (r: Result<Option<Driver.DbType>, Error>)
      ensures r.Success? <==> Cast(value).Success?
      ensures r.Success? ==> r.value == resolveTypeInternal(Cast(value).value)
      ensures r.Failure? ==> r.error == Cast(value).error
    {
      match Cast(value)
      case Success(casted) => Success(resolveTypeInternal(casted))
      case Failure(e) => Failure(e)
    }
  }

  /** An instance of a class derived from T is a T too, so the cast accepts
      it: the cast follows `is`, not exact type equality. */
  lemma DerivedInstanceCasts(base: ClassType, name: string, id: nat, rule: Option<Obj> -> Option<Driver.DbType>)
    ensures ParameterTypeResolver(Class(base), rule).Cast(Some(Instance(OtherClass(name, base), id))).Success?
  {
    assert IsSubclassOf(base, base);
  }
}
