/** The process-wide registry of parameter type resolvers and the lookup the
    command builder uses: the first resolver whose supported type is exactly
    the value's runtime type decides; otherwise the driver infers the type. */
module ParameterTypeResolvers {
  import opened Wrappers
  import opened Clr
  import Driver
  import opened ParameterTypeResolverBase
  import DateTimeResolver

  /** `FindResolvers`: the resolvers of the application, in order: a single
      DateTime resolver. */
  function FindResolvers(): (rs: seq<ParameterTypeResolver>)
    ensures |rs| == 1 && rs[0].SupportedType() == DateTimeType
    ensures forall d: DateTime :: rs[0].ResolveType(Some(DateTimeObj(d))) == Success(DateTimeResolver.ResolveTypeInternal(d))
  {
    [DateTimeResolver.Resolver()]
  }

  /** `FirstOrDefault(r => r.SupportedType == type)`: the position of the
      first resolver whose supported type equals `t`, if any. */
  function FirstSupporting(resolvers: seq<ParameterTypeResolver>, t: ClrType): (r: Option<nat>)
    ensures r.Some? ==> r.value < |resolvers| && resolvers[r.value].SupportedType() == t
    ensures r.Some? ==> forall j :: 0 <= j < r.value ==> resolvers[j].SupportedType() != t
    ensures r.None? <==> forall j :: 0 <= j < |resolvers| ==> resolvers[j].SupportedType() != t
  {
    if |resolvers| == 0 then None
    else if resolvers[0].SupportedType() == t then Some(0)
    else
      match FirstSupporting(resolvers[1..], t)
      case None => None
      case Some(i) => Some(i + 1)
  }

  /** `ResolveType` over a given resolver list. A null value, or a value no
      resolver supports exactly, gets no override; otherwise the first
      supporting resolver's answer is the result. Its cast cannot fail,
      because that resolver's type is the value's own type. */
  function ResolveTypeIn(resolvers: seq<ParameterTypeResolver>, value: Option<Obj>): (r: Option<Driver.DbType>)
    ensures value.None? ==> r.None?
    ensures value.Some? && FirstSupporting(resolvers, RuntimeType(value.value)).None? ==> r.None?
    ensures value.Some? && FirstSupporting(resolvers, RuntimeType(value.value)).Some? ==>
      resolvers[FirstSupporting(resolvers, RuntimeType(value.value)).value].ResolveType(value) == Success(r)
  {
    match value
    case None => None
    case Some(o) =>
      match FirstSupporting(resolvers, RuntimeType(o))
      case None => None
      case Some(i) =>
        assert resolvers[i].Cast(value) == Success(value);
        resolvers[i].ResolveType(value).value
  }

  /** With the registry as built, a DateTime value gets the DateTime rule
      and a value of any other type, or null, gets no override. */
  lemma RegistryResolution(value: Option<Obj>)
    ensures value.Some? && value.value.DateTimeObj? ==>
      ResolveTypeIn(FindResolvers(), value) == DateTimeResolver.ResolveTypeInternal(value.value.dt)
    ensures !(value.Some? && value.value.DateTimeObj?) ==> ResolveTypeIn(FindResolvers(), value).None?
  {
    if value.Some? && !value.value.DateTimeObj? {
      assert FindResolvers()[0].SupportedType() != RuntimeType(value.value);
    }
  }

  /** The match is on exact type: a list whose resolver supports a base
      class gives no override for an instance of a derived class, although
      that resolver's cast would accept the instance. */
  lemma DerivedTypesDoNotMatch(base: ClassType, name: string, id: nat, rule: Option<Obj> -> Option<Driver.DbType>)
    ensures ResolveTypeIn([ParameterTypeResolver(Class(base), rule)], Some(Instance(OtherClass(name, base), id))).None?
    ensures ParameterTypeResolver(Class(base), rule).Cast(Some(Instance(OtherClass(name, base), id))).Success?
  {
    DerivedInstanceCasts(base, name, id, rule);
    assert OtherClass(name, base) != base;
  }

  /** The earliest resolver wins when several support the same type. */
  lemma FirstResolverWins(a: ParameterTypeResolver, b: ParameterTypeResolver, o: Obj)
    requires a.SupportedType() == b.SupportedType() == RuntimeType(o)
    ensures ResolveTypeIn([a, b], Some(o)) == a.resolveTypeInternal(Some(o))
  {
  }

  /** The static `resolvers` field behind the `Resolvers` getter. */
  class Registry {
    var resolvers: Option<seq<ParameterTypeResolver>>

    /** Once built, the list is the one FindResolvers yields. */
    ghost predicate Valid()
      reads this
    {
      resolvers.Some? ==> resolvers.value == FindResolvers()
    }

    /** Before first use the field is null. */
    constructor ()
      ensures Valid() && resolvers.None?
    {
      resolvers := None;
    }

    /** `Resolvers`: built on first access, the same list afterwards. */
    method Resolvers() returns (rs: seq<ParameterTypeResolver>)
      requires Valid()
      modifies this
      ensures Valid()
      ensures resolvers == Some(rs) && rs == FindResolvers()
      ensures old(resolvers).Some? ==> resolvers == old(resolvers)
    {
      if resolvers.None? {
        resolvers := Some(FindResolvers());
      }
      rs := resolvers.value;
    }

    /** `ResolveType`: null is answered before the list is touched;
        otherwise the lookup runs over the list the getter returns. */
    method ResolveType(value: Option<Obj>) returns (r: Option<Driver.DbType>)
      requires Valid()
      modifies this
      ensures Valid()
      ensures value.None? ==> resolvers == old(resolvers)
      ensures value.Some? ==> resolvers == Some(FindResolvers())
      ensures r == ResolveTypeIn(FindResolvers(), value)
    {
      if value.None? {
        return None;
      }
      var rs := Resolvers();
      r := ResolveTypeIn(rs, value);
    }
  }
}
