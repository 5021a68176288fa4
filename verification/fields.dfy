/** Field descriptors (`Field` and its presets, www/orm.py): immutable
    metadata for one table column. */
module Fields {
  import opened Values

  /** `name` is the optional column-name override, `columnType` the SQL
      type, `default` a static value or a `FactoryV` callable (`NoneV` when
      there is none). */
  datatype Field = Field(name: Option<string>, columnType: string, primaryKey: bool, default: Value)

  /** `StringField(name=None, primary_key=False, default=None, ddl='varchar(100)')`. */
  function StringField(name: Option<string> := None, primaryKey: bool := false,
                       default: Value := NoneV, ddl: string := "varchar(100)"): (f: Field)
    ensures f.columnType == ddl && f.primaryKey == primaryKey
    ensures f.name == name && f.default == default
  {
    Field(name, ddl, primaryKey, default)
  }

  /** `IntegerField(name=None, primary_key=False, default=0)`: a `bigint` column. */
  function IntegerField(name: Option<string> := None, primaryKey: bool := false,
                        default: Value := IntV(0)): (f: Field)
    ensures f.columnType == "bigint" && f.primaryKey == primaryKey
    ensures f.name == name && f.default == default
  {
    Field(name, "bigint", primaryKey, default)
  }

  /** `BooleanField(name=None, default=False)`: a `boolean` column that can
      never be the primary key. */
  function BooleanField(name: Option<string> := None, default: Value := BoolV(false)): (f: Field)
    ensures f.columnType == "boolean" && !f.primaryKey
    ensures f.name == name && f.default == default
  {
    Field(name, "boolean", false, default)
  }

  /** `FloatField(name=None, primary_key=False, default=0.0)`: a `real` column. */
  function FloatField(name: Option<string> := None, primaryKey: bool := false,
                      default: Value := FloatV(0.0)): (f: Field)
    ensures f.columnType == "real" && f.primaryKey == primaryKey
    ensures f.name == name && f.default == default
  {
    Field(name, "real", primaryKey, default)
  }

  /** `TextField(name=None, default=None)`: a `text` column that can never
      be the primary key. */
  function TextField(name: Option<string> := None, default: Value := NoneV): (f: Field)
    ensures f.columnType == "text" && !f.primaryKey
    ensures f.name == name && f.default == default
  {
    Field(name, "text", false, default)
  }

  /** `mappings.get(attr).name or attr`: the column an attribute is stored
      in, the override when it is a non-empty string, else the attribute
      name. */
  function ColumnName(f: Field, attr: string): (c: string)
    ensures Given(f.name) ==> c == f.name.value
    ensures !Given(f.name) ==> c == attr
  {
    if Given(f.name) then f.name.value else attr
  }
}
