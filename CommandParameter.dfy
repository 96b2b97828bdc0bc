/** Information about one command parameter: a name, a value and an optional
    database type. All three are fixed when the parameter is constructed, so
    the record is a value. */
module CommandParameter {
  import opened Wrappers
  import Clr
  import Driver

  datatype CommandParameter = CommandParameter(
    name: Option<string>,
    value: Option<Clr.Obj>,
    databaseType: Option<Driver.DbType>)
  {
    /** The `Name` getter. */
    function Name(): Option<string> { name }

    /** The `Value` getter. */
    function Value(): Option<Clr.Obj> { value }

    /** The `DatabaseType` getter. */
    function DatabaseType(): Option<Driver.DbType> { databaseType }
  }

  /** The three-argument constructor: no validation, so every name (null and
      empty included) and every value (null included) is accepted, and the
      getters give the arguments back. */
  function Create(name: Option<string>, value: Option<Clr.Obj>, databaseType: Option<Driver.DbType>): (p: CommandParameter)
    ensures p.Name() == name && p.Value() == value && p.DatabaseType() == databaseType
  {
    CommandParameter(name, value, databaseType)
  }

  /** The two-argument constructor: the three-argument one with no database type. */
  function CreateUntyped(name: Option<string>, value: Option<Clr.Obj>): (p: CommandParameter)
    ensures p.Name() == name && p.Value() == value && p.DatabaseType().None?
  {
    Create(name, value, None)
  }
}
